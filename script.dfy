/**
 * Jobs that send their requests one after another to a scripted server: a
 * loop that runs one step per item, each step reading the replies the
 * previous steps left, and stopping at the first step that does not finish.
 */
module Script {
  import opened PyJson
  import opened Batching

  /**
   * Runs `step(env, x, rest)` for every `x` of `xs` in order, where `rest`
   * is what the earlier steps left of `replies`; a step returns its outcome
   * and how many replies it read. The outcome is every step's value, or the
   * first outcome that is not a value; also the number of replies read.
   */
  function RunAll<E, X, S, R>(step: (E, X, seq<R>) -> (Run<S>, nat), env: E, xs: seq<X>, replies: seq<R>)
    : (r: (Run<seq<S>>, nat))
    ensures r.0.Finished? ==> |r.0.value| == |xs|
    decreases |xs|
  {
    if xs == [] then (Finished([]), 0)
    else
      var (done, used) := RunAll(step, env, xs[..|xs| - 1], replies);
      if !done.Finished? then (done, used)
      else
        var (run, n) := step(env, xs[|xs| - 1], Drop(replies, used));
        if !run.Finished? then (Stop(run), used + n)
        else (Finished(done.value + [run.value]), used + n)
  }

  /** What is left of `replies` after the first `n` have been read: nothing once they are all read. */
  function Drop<R>(replies: seq<R>, n: nat): (r: seq<R>)
    ensures n <= |replies| ==> r == replies[n..]
    ensures n >= |replies| ==> r == []
  {
    if n <= |replies| then replies[n..] else []
  }

  /** Dropping `m` replies, then `n` more, drops `m + n`. */
  lemma DropDrop<R>(replies: seq<R>, m: nat, n: nat)
    ensures Drop(Drop(replies, m), n) == Drop(replies, m + n)
  {
    if m <= |replies| && n <= |replies| - m {
      assert replies[m..][n..] == replies[m + n..];
    }
  }

  /** One iteration of a loop that computes RunAll. */
  lemma RunAllStep<E, X, S, R>(step: (E, X, seq<R>) -> (Run<S>, nat), env: E, xs: seq<X>, replies: seq<R>, i: nat)
    requires i < |xs|
    requires RunAll(step, env, xs[..i], replies).0.Finished?
    ensures var (done, used) := RunAll(step, env, xs[..i], replies);
      var (run, n) := step(env, xs[i], Drop(replies, used));
      RunAll(step, env, xs[..i + 1], replies)
        == (if run.Finished? then Finished(done.value + [run.value]) else Stop(run), used + n)
  {
    assert xs[..i + 1][..i] == xs[..i];
  }

  /**
   * One iteration of a loop that computes RunAll, stated on the loop's own
   * variables: the values so far and the replies read so far.
   */
  lemma RunAllNext<E, X, S, R>(step: (E, X, seq<R>) -> (Run<S>, nat), env: E, xs: seq<X>, replies: seq<R>,
                                          i: nat, done: seq<S>, used: nat, run: Run<S>, n: nat)
    requires i < |xs|
    requires RunAll(step, env, xs[..i], replies) == (Finished(done), used)
    requires (run, n) == step(env, xs[i], Drop(replies, used))
    ensures run.Finished? ==> RunAll(step, env, xs[..i + 1], replies) == (Finished(done + [run.value]), used + n)
    ensures !run.Finished? ==> RunAll(step, env, xs, replies) == (Stop(run), used + n)
  {
    RunAllStep(step, env, xs, replies, i);
    if !run.Finished? {
      RunAllPrefixStopped(step, env, xs, replies, i + 1);
    }
  }

  /** Once a prefix of the items stops, the whole loop stops there. */
  lemma {:induction false} RunAllPrefixStopped<E, X, S, R>(step: (E, X, seq<R>) -> (Run<S>, nat), env: E, xs: seq<X>, replies: seq<R>, n: nat)
    requires n <= |xs|
    requires !RunAll(step, env, xs[..n], replies).0.Finished?
    ensures RunAll(step, env, xs, replies) == RunAll(step, env, xs[..n], replies)
    decreases |xs| - n
  {
    if n < |xs| {
      assert xs[..n + 1][..n] == xs[..n];
      RunAllPrefixStopped(step, env, xs, replies, n + 1);
    } else {
      assert xs[..n] == xs;
    }
  }

  /** Running over `a + b` runs over `a`, then over `b` on the replies `a` left. */
  lemma {:induction false} RunAllAppend<E, X, S, R>(step: (E, X, seq<R>) -> (Run<S>, nat), env: E, a: seq<X>, b: seq<X>, replies: seq<R>)
    ensures var (ra, ua) := RunAll(step, env, a, replies);
      var (rb, ub) := RunAll(step, env, b, Drop(replies, ua));
      RunAll(step, env, a + b, replies)
        == if !ra.Finished? then (ra, ua)
           else (if rb.Finished? then Finished(ra.value + rb.value) else Stop(rb), ua + ub)
    decreases |b|
  {
    var (ra, ua) := RunAll(step, env, a, replies);
    if !ra.Finished? {
      assert (a + b)[..|a|] == a;
      RunAllPrefixStopped(step, env, a + b, replies, |a|);
    } else if b == [] {
      assert a + b == a;
      assert ra.value + [] == ra.value;
    } else {
      var b' := b[..|b| - 1];
      var ab := a + b;
      assert ab[..|ab| - 1] == a + b';
      assert ab[|ab| - 1] == b[|b| - 1];
      RunAllAppend(step, env, a, b', replies);
      var (rb', ub') := RunAll(step, env, b', Drop(replies, ua));
      if rb'.Finished? {
        DropDrop(replies, ua, ub');
        var (run, n) := step(env, b[|b| - 1], Drop(replies, ua + ub'));
        if run.Finished? {
          assert ra.value + rb'.value + [run.value] == ra.value + (rb'.value + [run.value]);
        }
      }
    }
  }

  /** A property that every step's value has, in terms of its item, holds of every value of the loop. */
  lemma {:induction false} RunAllValues<E, X, S, R>(step: (E, X, seq<R>) -> (Run<S>, nat), env: E, xs: seq<X>, replies: seq<R>,
                                                    p: (X, S) -> bool)
    requires forall x, rs :: step(env, x, rs).0.Finished? ==> p(x, step(env, x, rs).0.value)
    ensures var r := RunAll(step, env, xs, replies).0;
      r.Finished? ==> forall i | 0 <= i < |xs| :: p(xs[i], r.value[i])
    decreases |xs|
  {
    if xs != [] {
      var init := xs[..|xs| - 1];
      RunAllValues(step, env, init, replies, p);
      var (done, used) := RunAll(step, env, init, replies);
      if done.Finished? {
        var run := step(env, xs[|xs| - 1], Drop(replies, used)).0;
        if run.Finished? {
          var all := done.value + [run.value];
          assert forall i | 0 <= i < |init| :: all[i] == done.value[i] && xs[i] == init[i];
        }
      }
    }
  }

  /**
   * A job over groups of items: the step for one item, the environment it
   * runs in, and what to make of one group's values (which may raise).
   */
  datatype GroupJob<!E, !X, !S, !R, U> = GroupJob(step: (E, X, seq<R>) -> (Run<S>, nat), env: E, post: seq<S> -> Result<seq<U>>)

  /** One group: every item's step in turn, then `post` of all their values. Also the replies read. */
  function Grouped<E, X, S, R, U>(job: GroupJob<E, X, S, R, U>, group: seq<X>, replies: seq<R>): (Run<seq<U>>, nat) {
    var (fetched, n) := RunAll(job.step, job.env, group, replies);
    if !fetched.Finished? then (Stop(fetched), n)
    else (match job.post(fetched.value) case Ok(v) => Finished(v) case Err(e) => Raised(e), n)
  }

  /** `post` of a concatenation: `post` of each part, concatenated, or the first part's exception. */
  ghost predicate Splits<S(!new), U>(post: seq<S> -> Result<seq<U>>) {
    && post([]) == Ok([])
    && forall a, b :: post(a + b) == (var u :- post(a); var v :- post(b); Ok(u + v))
  }

  /**
   * Grouping is invisible: when the replies let every item's step finish,
   * the groups' outputs, concatenated, are `post` of all the items' values
   * at once, read from exactly the same replies; when `post` of all the
   * values raises, the groups end with the same exception.
   */
  lemma {:induction false} GroupingInvisible<E, X, S(!new), R, U>(job: GroupJob<E, X, S, R, U>, groups: seq<seq<X>>, replies: seq<R>)
    requires Splits(job.post)
    ensures var (fetched, n) := RunAll(job.step, job.env, Flatten(groups), replies);
      var (outs, used) := RunAll(Grouped, job, groups, replies);
      fetched.Finished? ==> match job.post(fetched.value)
        case Ok(vs) => outs.Finished? && Flatten(outs.value) == vs && used == n
        case Err(e) => outs == Raised(e)
    decreases |groups|
  {
    if groups != [] {
      var init := groups[..|groups| - 1];
      var last := groups[|groups| - 1];
      assert groups == init + [last];
      FlattenAppend(init, [last]);
      FlattenOne(last);
      var all := Flatten(init);
      RunAllAppend(job.step, job.env, all, last, replies);
      var (ra, ua) := RunAll(job.step, job.env, all, replies);
      if RunAll(job.step, job.env, Flatten(groups), replies).0.Finished? {
        var (rb, ub) := RunAll(job.step, job.env, last, Drop(replies, ua));
        GroupingInvisible(job, init, replies);
        assert job.post(ra.value + rb.value) == (var u :- job.post(ra.value); var v :- job.post(rb.value); Ok(u + v));
        var (outsA, usedA) := RunAll(Grouped, job, init, replies);
        if outsA.Finished? {
          var (out, m) := Grouped(job, last, Drop(replies, usedA));
          RunAllNext(Grouped, job, groups, replies, |init|, outsA.value, usedA, out, m);
          assert groups[..|init|] == init && groups[..|init| + 1] == groups;
          if out.Finished? {
            FlattenAppend(outsA.value, [out.value]);
            FlattenOne(out.value);
          }
        } else {
          assert groups[..|init|] == init;
          RunAllPrefixStopped(Grouped, job, groups, replies, |init|);
        }
      }
    }
  }
}
