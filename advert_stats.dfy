/**
 * The advertising-statistics job (src/advert/utils_advert.py): listing the
 * active campaigns of an account, merging their IDs, and fetching full
 * statistics for them in batches of 100 IDs with a per-batch retry loop.
 *
 * Every HTTP exchange is replaced by a scripted reply; sleeps are no-ops and
 * `asyncio.gather` runs its tasks one after another, in order.
 */
module AdvertStats {
  import opened PyJson
  import opened Batching

  const StatsBatchSize := 100
  const StatsMaxRetries := 5
  const ActiveStatuses: seq<int> := [9, 11]

  /** A reply of the full-stats endpoint. */
  datatype StatsReply =
    | Reply(status: int, body: Value)  // body: the decoded JSON
    | ClientError                      // aiohttp.ClientError raised by the request

  /** The query parameters of one full-stats request. */
  datatype StatsQuery = StatsQuery(ids: seq<Value>, beginDate: Date, endDate: Date)

  /** What one attempt of the retry loop does with a reply. */
  datatype Attempt =
    | Uncounted                      // 400: retried without touching retry_count
    | Counted                        // 429, any other status >= 400, or a ClientError
    | Succeeded(items: seq<Record>)  // the batch's records (`batch_data or []`)
    | Crashed(error: PyError)        // an exception the loop does not catch

  /** `batch_data or []`, iterated with `item[...] = ...`: every element must be a dict. */
  function BatchItems(body: Value): Result<seq<Record>> {
    if Truthy(body) then AsRecords(body) else Ok([])
  }

  function Classify(r: StatsReply): Attempt {
    match r
    case ClientError => Counted
    case Reply(status, body) =>
      // the 400 branch logs `err.get('message')`, which only a dict has
      if status == 400 then (if body.Map? then Uncounted else Crashed(AttributeError))
      // 429 is counted explicitly; raise_for_status turns every other status
      // >= 400 into a ClientResponseError, which the ClientError handler counts
      else if status == 429 || status >= 400 then Counted
      else match BatchItems(body)
        case Ok(items) => Succeeded(items)
        case Err(e) => Crashed(e)
  }

  /** How the retry loop of one batch ends. */
  datatype BatchEnd = Fetched(items: seq<Record>) | GaveUp | NoReply | Failed(error: PyError)

  /**
   * The retry loop of one batch, entered with `retries` counted failures:
   * how it ends and how many replies it consumes.
   */
  function BatchLoop(replies: seq<StatsReply>, retries: nat): (r: (BatchEnd, nat))
    ensures r.1 <= |replies|
    decreases |replies|
  {
    if retries >= StatsMaxRetries then (GaveUp, 0)
    else if replies == [] then (NoReply, 0)
    else match Classify(replies[0])
      case Succeeded(items) => (Fetched(items), 1)
      case Crashed(e) => (Failed(e), 1)
      case Uncounted => var r := BatchLoop(replies[1..], retries); (r.0, r.1 + 1)
      case Counted => var r := BatchLoop(replies[1..], retries + 1); (r.0, r.1 + 1)
  }

  /** `item["account"] = account; item["date"] = date_from` for every item. */
  function TagStats(items: seq<Record>, account: string, date: Date): seq<Record> {
    TagAll(TagAll(items, "account", Str(account)), "date", Str(date))
  }

  /**
   * The batch loop of adv_stat_async over the remaining batches: its outcome
   * and the queries it sends that get a reply.
   */
  function StatsLoop(batches: seq<seq<Value>>, replies: seq<StatsReply>, account: string, dateFrom: Date, dateTo: Date)
    : (r: (Run<seq<Record>>, seq<StatsQuery>))
    ensures |r.1| <= |replies|
    decreases |batches|
  {
    if batches == [] then (Finished([]), [])
    else
      var b := BatchLoop(replies, 0);
      var sent := seq(b.1, _ => StatsQuery(batches[0], dateFrom, dateTo));
      match b.0
      case NoReply => (Starved, sent)
      case Failed(e) => (Raised(e), sent)
      case GaveUp =>
        var rest := StatsLoop(batches[1..], replies[b.1..], account, dateFrom, dateTo);
        (rest.0, sent + rest.1)
      case Fetched(items) =>
        var rest := StatsLoop(batches[1..], replies[b.1..], account, dateFrom, dateTo);
        (Prepend(TagStats(items, account, dateFrom), rest.0), sent + rest.1)
  }

  /** The spec of adv_stat_async: batches of 100 IDs, each through its retry loop. */
  function AdvStats(campaignIds: seq<Value>, dateFrom: Date, dateTo: Date, account: string, replies: seq<StatsReply>)
    : (Run<seq<Record>>, seq<StatsQuery>)
  {
    StatsLoop(Batchify(campaignIds, StatsBatchSize), replies, account, dateFrom, dateTo)
  }

  /**
   * adv_stat_async: for every batch, retry until a success or five counted
   * failures, tag the batch's records and append them. Returns the outcome and
   * the queries sent that got a reply.
   */
  method AdvStatAsync(campaignIds: seq<Value>, dateFrom: Date, dateTo: Date, account: string, replies: seq<StatsReply>)
    returns (run: Run<seq<Record>>, queries: seq<StatsQuery>)
    ensures (run, queries) == AdvStats(campaignIds, dateFrom, dateTo, account, replies)
  {
    var batches := Batchify(campaignIds, StatsBatchSize);
    var data: seq<Record> := [];
    queries := [];
    var next := 0;
    var b := 0;
    assert batches[0..] == batches && replies[0..] == replies;
    ResumeEmpty(StatsLoop(batches, replies, account, dateFrom, dateTo));
    while b < |batches|
      invariant 0 <= b <= |batches| && 0 <= next <= |replies|
      invariant AdvStats(campaignIds, dateFrom, dateTo, account, replies)
             == Resume(data, queries, StatsLoop(batches[b..], replies[next..], account, dateFrom, dateTo))
    {
      var start := next;
      var end;
      end, next := RetryBatch(replies, start);
      var sent := seq(next - start, _ => StatsQuery(batches[b], dateFrom, dateTo));
      if end.NoReply? || end.Failed? {
        run := if end.NoReply? then Starved else Raised(end.error);
        assert StatsLoop(batches[b..], replies[start..], account, dateFrom, dateTo) == (run, sent);
        queries := queries + sent;
        return;
      }
      var items := if end.Fetched? then TagStats(end.items, account, dateFrom) else [];
      BatchStep(batches, b, replies, start, next, account, dateFrom, dateTo, end);
      ResumeAssoc(data, queries, items, sent, StatsLoop(batches[b + 1..], replies[next..], account, dateFrom, dateTo));
      data := data + items;
      queries := queries + sent;
      b := b + 1;
    }
    assert batches[b..] == [];
    assert data + [] == data && queries + [] == queries;
    run := Finished(data);
  }

  /**
   * The `while retry_count < 5` loop for one batch, reading replies from
   * `replies[start..]`: how it ends and where the next unread reply is.
   */
  method RetryBatch(replies: seq<StatsReply>, start: nat) returns (end: BatchEnd, next: nat)
    requires start <= |replies|
    ensures start <= next <= |replies|
    ensures (end, next - start) == BatchLoop(replies[start..], 0)
  {
    next := start;
    var retryCount := 0;
    while retryCount < StatsMaxRetries
      invariant start <= next <= |replies| && 0 <= retryCount <= StatsMaxRetries
      invariant BatchLoop(replies[start..], 0) == Shifted(BatchLoop(replies[next..], retryCount), next - start)
      decreases |replies| - next
    {
      if next == |replies| {
        return NoReply, next;
      }
      var reply := replies[next];
      assert replies[next..][1..] == replies[next + 1..];
      next := next + 1;
      match Classify(reply) {
        case Uncounted =>
        case Counted =>
          retryCount := retryCount + 1;
        case Succeeded(items) =>
          return Fetched(items), next;
        case Crashed(e) =>
          return Failed(e), next;
      }
    }
    return GaveUp, next;
  }

  function Shifted(r: (BatchEnd, nat), k: nat): (BatchEnd, nat) {
    (r.0, r.1 + k)
  }

  function Resume(data: seq<Record>, log: seq<StatsQuery>, rest: (Run<seq<Record>>, seq<StatsQuery>))
    : (Run<seq<Record>>, seq<StatsQuery>)
  {
    (Prepend(data, rest.0), log + rest.1)
  }

  lemma ResumeAssoc(data: seq<Record>, log: seq<StatsQuery>, items: seq<Record>, sent: seq<StatsQuery>,
                    r: (Run<seq<Record>>, seq<StatsQuery>))
    ensures Resume(data, log, Resume(items, sent, r)) == Resume(data + items, log + sent, r)
  {
    assert log + (sent + r.1) == (log + sent) + r.1;
    if r.0.Finished? {
      assert data + (items + r.0.value) == (data + items) + r.0.value;
    }
  }

  /** After one batch's retry loop, the batch loop continues with the next batch and the unread replies. */
  lemma BatchStep(batches: seq<seq<Value>>, b: nat, replies: seq<StatsReply>, start: nat, next: nat,
                  account: string, dateFrom: Date, dateTo: Date, end: BatchEnd)
    requires b < |batches| && start <= next <= |replies| && (end.Fetched? || end.GaveUp?)
    requires BatchLoop(replies[start..], 0) == (end, next - start)
    ensures StatsLoop(batches[b..], replies[start..], account, dateFrom, dateTo)
         == Resume(if end.Fetched? then TagStats(end.items, account, dateFrom) else [],
                   seq(next - start, _ => StatsQuery(batches[b], dateFrom, dateTo)),
                   StatsLoop(batches[b + 1..], replies[next..], account, dateFrom, dateTo))
  {
    assert replies[start..][next - start..] == replies[next..];
    assert batches[b..][1..] == batches[b + 1..];
    var rest := StatsLoop(batches[b + 1..], replies[next..], account, dateFrom, dateTo);
    if end.GaveUp? {
      ResumeEmpty(rest);
    }
  }

  lemma ResumeEmpty(r: (Run<seq<Record>>, seq<StatsQuery>))
    ensures Resume([], [], r) == r
  {
    assert [] + r.1 == r.1;
    if r.0.Finished? {
      assert [] + r.0.value == r.0.value;
    }
  }

  // ---------------------------------------------------------------------------
  // What the retry loop and the batch loop promise
  // ---------------------------------------------------------------------------

  predicate Retried(a: Attempt) { a.Uncounted? || a.Counted? }

  /** How many of the replies count towards `retry_count`. */
  function CountedIn(rs: seq<StatsReply>): nat {
    if rs == [] then 0 else (if Classify(rs[0]).Counted? then 1 else 0) + CountedIn(rs[1..])
  }

  /** How many of the replies are 400s that the loop retries for free. */
  function UncountedIn(rs: seq<StatsReply>): nat {
    if rs == [] then 0 else (if Classify(rs[0]).Uncounted? then 1 else 0) + UncountedIn(rs[1..])
  }

  /** The records of every successful reply, in order: an independent reading of the output. */
  function SuccessItems(rs: seq<StatsReply>): seq<Record> {
    if rs == [] then [] else Gained(rs[0]) + SuccessItems(rs[1..])
  }

  /** The records one reply contributes: those of a success, none otherwise. */
  function Gained(r: StatsReply): seq<Record> {
    match Classify(r) case Succeeded(items) => items case _ => []
  }

  lemma {:induction false} SuccessItemsAppend(a: seq<StatsReply>, b: seq<StatsReply>)
    ensures SuccessItems(a + b) == SuccessItems(a) + SuccessItems(b)
  {
    if a != [] {
      assert (a + b)[1..] == a[1..] + b;
      SuccessItemsAppend(a[1..], b);
    } else {
      assert a + b == b;
    }
  }

  lemma {:induction false} UncountedAppend(a: seq<StatsReply>, b: seq<StatsReply>)
    ensures UncountedIn(a + b) == UncountedIn(a) + UncountedIn(b)
  {
    if a != [] {
      assert (a + b)[1..] == a[1..] + b;
      UncountedAppend(a[1..], b);
    } else {
      assert a + b == b;
    }
  }

  /**
   * The retry loop of one batch, entered after `k` counted failures: at most
   * 5 - k replies count, at most 5 - k of them are anything but a free 400,
   * it gives up exactly when the fifth counted failure arrives, and it runs
   * out of replies only when it has consumed them all.
   */
  lemma {:induction false} BatchLoopCounts(rs: seq<StatsReply>, k: nat)
    requires k <= StatsMaxRetries
    ensures var (e, n) := BatchLoop(rs, k);
      && k + CountedIn(rs[..n]) <= StatsMaxRetries
      && n - UncountedIn(rs[..n]) <= StatsMaxRetries - k
      && (e.GaveUp? <==> k + CountedIn(rs[..n]) == StatsMaxRetries)
      && (e.NoReply? ==> n == |rs|)
    decreases |rs|
  {
    var (e, n) := BatchLoop(rs, k);
    if k >= StatsMaxRetries || rs == [] {
      assert rs[..n] == [];
    } else {
      var a := Classify(rs[0]);
      if a.Succeeded? || a.Crashed? {
        assert rs[..n] == [rs[0]];
        assert rs[..n][1..] == [];
      } else {
        var k' := if a.Counted? then k + 1 else k;
        BatchLoopCounts(rs[1..], k');
        assert BatchLoop(rs[1..], k') == (e, n - 1);
        assert rs[..n][1..] == rs[1..][..n - 1];
        assert rs[..n][0] == rs[0];
      }
    }
  }

  /**
   * Every reply the retry loop consumes is retried, except the last one of a
   * batch that ends in a success or a crash, which is that success or crash.
   */
  lemma {:induction false} BatchLoopRetries(rs: seq<StatsReply>, k: nat)
    ensures var (e, n) := BatchLoop(rs, k);
      && (e.GaveUp? || e.NoReply? ==> forall i | 0 <= i < n :: Retried(Classify(rs[i])))
      && (e.Fetched? || e.Failed? ==> 0 < n && forall i | 0 <= i < n - 1 :: Retried(Classify(rs[i])))
      && (e.Fetched? ==> Classify(rs[n - 1]) == Succeeded(e.items))
      && (e.Failed? ==> Classify(rs[n - 1]) == Crashed(e.error))
    decreases |rs|
  {
    var (e, n) := BatchLoop(rs, k);
    if k < StatsMaxRetries && rs != [] {
      var a := Classify(rs[0]);
      if a.Uncounted? || a.Counted? {
        var k' := if a.Counted? then k + 1 else k;
        BatchLoopRetries(rs[1..], k');
        assert BatchLoop(rs[1..], k') == (e, n - 1);
        forall i | 0 <= i < n && (e.GaveUp? || e.NoReply? || i < n - 1)
          ensures Retried(Classify(rs[i]))
        {
          if i > 0 { assert rs[i] == rs[1..][i - 1]; }
        }
        if e.Fetched? || e.Failed? {
          assert rs[n - 1] == rs[1..][n - 2];
        }
      }
    }
  }

  /** A fetched batch is the records of its one successful reply; a batch given up adds none. */
  lemma {:induction false} BatchLoopItems(rs: seq<StatsReply>, k: nat)
    ensures var (e, n) := BatchLoop(rs, k);
      && (e.Fetched? ==> SuccessItems(rs[..n]) == e.items)
      && (e.GaveUp? ==> SuccessItems(rs[..n]) == [])
    decreases |rs|
  {
    var (e, n) := BatchLoop(rs, k);
    if k >= StatsMaxRetries || rs == [] {
      assert rs[..n] == [];
    } else {
      var a := Classify(rs[0]);
      if a.Succeeded? || a.Crashed? {
        assert rs[..n] == [rs[0]];
        assert rs[..n][1..] == [];
      } else {
        var k' := if a.Counted? then k + 1 else k;
        BatchLoopItems(rs[1..], k');
        assert BatchLoop(rs[1..], k') == (e, n - 1);
        assert rs[..n][1..] == rs[1..][..n - 1];
        assert rs[..n][0] == rs[0];
      }
    }
  }

  /** adv_stat_async returns the tagged records of the successful replies, in order. */
  lemma {:induction false} StatsOutput(batches: seq<seq<Value>>, replies: seq<StatsReply>,
                                       account: string, dateFrom: Date, dateTo: Date)
    ensures var (run, log) := StatsLoop(batches, replies, account, dateFrom, dateTo);
      run.Finished? ==> run.value == TagStats(SuccessItems(replies[..|log|]), account, dateFrom)
    decreases |batches|
  {
    var (run, log) := StatsLoop(batches, replies, account, dateFrom, dateTo);
    if batches == [] {
      assert replies[..0] == [];
    } else if run.Finished? {
      var (e, n) := BatchLoop(replies, 0);
      var mine := if e.Fetched? then e.items else [];
      var rest := StatsLoop(batches[1..], replies[n..], account, dateFrom, dateTo);
      var later := SuccessItems(replies[n..][..|rest.1|]);
      assert |log| == n + |rest.1| && run.value == TagStats(mine, account, dateFrom) + TagStats(later, account, dateFrom) by {
        StatsLoopFinished(batches, replies, account, dateFrom, dateTo);
        StatsOutput(batches[1..], replies[n..], account, dateFrom, dateTo);
      }
      BatchContribution(replies);
      SuccessItemsSplit(replies, n, |rest.1|);
      TagStatsAppend(mine, later, account, dateFrom);
    }
  }

  /**
   * One batch of a loop that finishes: it was fetched or given up, the loop
   * over the other batches finishes too, and the output is this batch's
   * tagged records followed by theirs.
   */
  lemma StatsLoopFinished(batches: seq<seq<Value>>, replies: seq<StatsReply>,
                          account: string, dateFrom: Date, dateTo: Date)
    requires batches != []
    ensures var (run, log) := StatsLoop(batches, replies, account, dateFrom, dateTo);
      var (e, n) := BatchLoop(replies, 0);
      var rest := StatsLoop(batches[1..], replies[n..], account, dateFrom, dateTo);
      run.Finished? ==>
        && (e.Fetched? || e.GaveUp?)
        && rest.0.Finished?
        && |log| == n + |rest.1|
        && run.value == TagStats(if e.Fetched? then e.items else [], account, dateFrom) + rest.0.value
  {
    assert TagStats([], account, dateFrom) == [];
  }

  lemma SuccessItemsSplit(replies: seq<StatsReply>, n: nat, m: nat)
    requires n + m <= |replies|
    ensures SuccessItems(replies[..n + m]) == SuccessItems(replies[..n]) + SuccessItems(replies[n..][..m])
  {
    PrefixSplit(replies, n, m);
    SuccessItemsAppend(replies[..n], replies[n..][..m]);
  }

  /** What one batch adds to the output is the records of the replies it consumed. */
  lemma BatchContribution(rs: seq<StatsReply>)
    ensures var (e, n) := BatchLoop(rs, 0);
      (e.Fetched? ==> SuccessItems(rs[..n]) == e.items) && (e.GaveUp? ==> SuccessItems(rs[..n]) == [])
  {
    BatchLoopItems(rs, 0);
  }

  lemma PrefixSplit<T>(s: seq<T>, n: nat, m: nat)
    requires n + m <= |s|
    ensures s[..n + m] == s[..n] + s[n..][..m]
  {
  }

  lemma TagStatsAppend(a: seq<Record>, b: seq<Record>, account: string, date: Date)
    ensures TagStats(a + b, account, date) == TagStats(a, account, date) + TagStats(b, account, date)
  {
    TagAllAppend(a, b, "account", Str(account));
    TagAllAppend(TagAll(a, "account", Str(account)), TagAll(b, "account", Str(account)), "date", Str(date));
  }

  /** Every tagged record carries the account and the date. */
  lemma TagStatsTags(items: seq<Record>, account: string, date: Date)
    ensures forall r | r in TagStats(items, account, date) ::
      "account" in r && r["account"] == Str(account) && "date" in r && r["date"] == Str(date)
  {
    var t := TagStats(items, account, date);
    forall r | r in t
      ensures "account" in r && r["account"] == Str(account) && "date" in r && r["date"] == Str(date)
    {
      var i :| 0 <= i < |t| && t[i] == r;
    }
  }

  /** Every record adv_stat_async returns carries the account and the start date. */
  lemma StatsTagged(campaignIds: seq<Value>, dateFrom: Date, dateTo: Date, account: string, replies: seq<StatsReply>)
    ensures var run := AdvStats(campaignIds, dateFrom, dateTo, account, replies).0;
      run.Finished? ==> forall r | r in run.value ::
        "account" in r && r["account"] == Str(account) && "date" in r && r["date"] == Str(dateFrom)
  {
    var (run, log) := AdvStats(campaignIds, dateFrom, dateTo, account, replies);
    StatsOutput(Batchify(campaignIds, StatsBatchSize), replies, account, dateFrom, dateTo);
    TagStatsTags(SuccessItems(replies[..|log|]), account, dateFrom);
  }

  /**
   * Each batch sends at most five requests besides its free 400 retries:
   * the requests sent, less the 400s answered, are at most 5 per batch.
   */
  lemma {:induction false} StatsRequestBound(batches: seq<seq<Value>>, replies: seq<StatsReply>,
                                             account: string, dateFrom: Date, dateTo: Date)
    ensures var log := StatsLoop(batches, replies, account, dateFrom, dateTo).1;
      |log| - UncountedIn(replies[..|log|]) <= StatsMaxRetries * |batches|
    decreases |batches|
  {
    if batches != [] {
      var (e, n) := BatchLoop(replies, 0);
      BatchLoopCounts(replies, 0);
      StatsLoopSent(batches, replies, account, dateFrom, dateTo);
      assert StatsMaxRetries * |batches| == StatsMaxRetries + StatsMaxRetries * |batches[1..]|;
      if e.GaveUp? || e.Fetched? {
        var rest := StatsLoop(batches[1..], replies[n..], account, dateFrom, dateTo);
        StatsRequestBound(batches[1..], replies[n..], account, dateFrom, dateTo);
        UncountedSplit(replies, n, |rest.1|);
      }
    }
  }

  /** The requests of the first batch come first: those of the other batches follow when it ends without failing. */
  lemma StatsLoopSent(batches: seq<seq<Value>>, replies: seq<StatsReply>, account: string, dateFrom: Date, dateTo: Date)
    requires batches != []
    ensures var log := StatsLoop(batches, replies, account, dateFrom, dateTo).1;
      var (e, n) := BatchLoop(replies, 0);
      |log| == if e.GaveUp? || e.Fetched? then n + |StatsLoop(batches[1..], replies[n..], account, dateFrom, dateTo).1| else n
  {
  }

  lemma UncountedSplit(replies: seq<StatsReply>, n: nat, m: nat)
    requires n + m <= |replies|
    ensures UncountedIn(replies[..n + m]) == UncountedIn(replies[..n]) + UncountedIn(replies[n..][..m])
  {
    PrefixSplit(replies, n, m);
    UncountedAppend(replies[..n], replies[n..][..m]);
  }

  /**
   * A server that answers every request with a counted failure (429, 5xx,
   * a network error): every batch gives up after exactly five requests and
   * contributes nothing, and the job still finishes.
   */
  lemma {:induction false} StatsAllFailing(batches: seq<seq<Value>>, replies: seq<StatsReply>,
                                           account: string, dateFrom: Date, dateTo: Date)
    requires forall i | 0 <= i < |replies| :: Classify(replies[i]).Counted?
    requires |replies| >= StatsMaxRetries * |batches|
    ensures StatsLoop(batches, replies, account, dateFrom, dateTo).0 == Finished([])
    ensures |StatsLoop(batches, replies, account, dateFrom, dateTo).1| == StatsMaxRetries * |batches|
    decreases |batches|
  {
    if batches != [] {
      GiveUpAfterFive(replies, 0);
      StatsAllFailing(batches[1..], replies[StatsMaxRetries..], account, dateFrom, dateTo);
    }
  }

  lemma {:induction false} GiveUpAfterFive(rs: seq<StatsReply>, k: nat)
    requires k <= StatsMaxRetries
    requires |rs| >= StatsMaxRetries - k
    requires forall i | 0 <= i < |rs| :: Classify(rs[i]).Counted?
    ensures BatchLoop(rs, k) == (GaveUp, StatsMaxRetries - k)
    decreases StatsMaxRetries - k
  {
    if k < StatsMaxRetries {
      assert Classify(rs[0]).Counted?;
      GiveUpAfterFive(rs[1..], k + 1);
    }
  }

  /**
   * A server that answers every request with 400 (a dict body) keeps the
   * first batch's loop retrying forever: however long the script, the job
   * consumes all of it and still wants to send another request.
   */
  lemma {:induction false} StatsBadRequestsSpin(batches: seq<seq<Value>>, replies: seq<StatsReply>,
                                                account: string, dateFrom: Date, dateTo: Date)
    requires batches != []
    requires forall i | 0 <= i < |replies| :: Classify(replies[i]).Uncounted?
    ensures StatsLoop(batches, replies, account, dateFrom, dateTo) == (Starved, seq(|replies|, _ => StatsQuery(batches[0], dateFrom, dateTo)))
  {
    SpinOnBadRequests(replies);
  }

  lemma {:induction false} SpinOnBadRequests(rs: seq<StatsReply>)
    requires forall i | 0 <= i < |rs| :: Classify(rs[i]).Uncounted?
    ensures BatchLoop(rs, 0) == (NoReply, |rs|)
    decreases |rs|
  {
    if rs != [] {
      assert Classify(rs[0]).Uncounted?;
      SpinOnBadRequests(rs[1..]);
    }
  }
}
