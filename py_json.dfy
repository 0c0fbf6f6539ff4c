/**
 * Decoded JSON values as the jobs hold them after `json.loads`, and the few
 * pieces of Python's semantics the jobs rely on when they read them:
 * subscripting, `dict.get`, truthiness, and the exceptions these raise.
 */
module PyJson {

  /** A decoded JSON value. */
  datatype Value =
    | Null
    | Int(i: int)
    | Str(s: string)
    | List(items: seq<Value>)
    | Map(fields: map<string, Value>)

  /** A JSON object: one API item or one flat row. */
  type Record = map<string, Value>

  /** A calendar day as `strftime("%Y-%m-%d")` prints it. */
  type Date = s: string | |s| == 10 witness "1970-01-01"

  /** The Python exceptions the modelled code raises or catches. */
  datatype PyError = KeyError | IndexError | TypeError | AttributeError | ValueError | ConnectionError

  datatype Option<+T> = None | Some(value: T)

  /** A Python expression's outcome: a value, or the exception it raised. */
  datatype Result<+T> = Ok(value: T) | Err(error: PyError) {
    predicate IsFailure() { Err? }
    function PropagateFailure<U>(): Result<U> requires Err? { Err(error) }
    function Extract(): T requires Ok? { value }
  }

  /**
   * How a job that talks to a scripted server ends: it returned a value, it
   * raised an exception nobody catches, or the script ran out of replies
   * while the job still wanted to send a request (the real program would
   * still be running).
   */
  datatype Run<+T> = Finished(value: T) | Raised(error: PyError) | Starved

  /** A run that did not finish, seen as a run of another result type. */
  function Stop<T, U>(run: Run<T>): (r: Run<U>)
    requires !run.Finished?
    ensures r.Raised? <==> run.Raised?
    ensures r.Raised? ==> r.error == run.error
  {
    if run.Raised? then Raised(run.error) else Starved
  }

  /** `data` followed by what a run returns, when it returns. */
  function Prepend<T>(data: seq<T>, run: Run<seq<T>>): Run<seq<T>> {
    if run.Finished? then Finished(data + run.value) else run
  }

  lemma PrependEmpty<T>(r: Run<seq<T>>)
    ensures Prepend([], r) == r
  {
    if r.Finished? {
      assert [] + r.value == r.value;
    }
  }

  lemma PrependAssoc<T>(a: seq<T>, b: seq<T>, r: Run<seq<T>>)
    ensures Prepend(a, Prepend(b, r)) == Prepend(a + b, r)
  {
    if r.Finished? {
      assert a + (b + r.value) == (a + b) + r.value;
    }
  }

  lemma AppendAssoc<T>(a: seq<T>, b: seq<T>, c: seq<T>)
    ensures a + (b + c) == (a + b) + c
  {
  }

  /** Python truthiness (`if v:`). */
  predicate Truthy(v: Value) {
    match v
    case Null => false
    case Int(i) => i != 0
    case Str(s) => s != []
    case List(xs) => xs != []
    case Map(m) => m != map[]
  }

  /** `v[k]` with a string key. */
  function Field(v: Value, k: string): Result<Value> {
    match v
    case Map(m) => if k in m then Ok(m[k]) else Err(KeyError)
    case _ => Err(TypeError)
  }

  /** `v[i]` with a non-negative integer index; a dict has only string keys. */
  function At(v: Value, i: nat): Result<Value> {
    match v
    case List(xs) => if i < |xs| then Ok(xs[i]) else Err(IndexError)
    case Str(s) => if i < |s| then Ok(Str([s[i]])) else Err(IndexError)
    case Map(_) => Err(KeyError)
    case _ => Err(TypeError)
  }

  /** `r[k]` on a record. */
  function Lookup(r: Record, k: string): Result<Value> {
    if k in r then Ok(r[k]) else Err(KeyError)
  }

  /** `v.get(k, default)`: only a dict has a `get` attribute. */
  function Get(v: Value, k: string, default: Value): Result<Value> {
    match v
    case Map(m) => Ok(if k in m then m[k] else default)
    case _ => Err(AttributeError)
  }

  /** `r.get(k, default)` on a record. */
  function GetOr(r: Record, k: string, default: Value): Value {
    if k in r then r[k] else default
  }

  /** `s * n` for a non-negative count. */
  function Repeat<T>(s: seq<T>, n: nat): (r: seq<T>)
    ensures |r| == |s| * n
  {
    if n == 0 then [] else s + Repeat(s, n - 1)
  }

  /** `v * n` with an int literal `n`: numbers multiply, strings and lists repeat. */
  function Mul(v: Value, n: nat): Result<Value> {
    match v
    case Int(i) => Ok(Int(i * n))
    case Str(s) => Ok(Str(Repeat(s, n)))
    case List(xs) => Ok(List(Repeat(xs, n)))
    case _ => Err(TypeError)
  }

  /** `v + w`: numbers add, strings and lists concatenate, anything else is a TypeError. */
  function Add(v: Value, w: Value): Result<Value> {
    match (v, w)
    case (Int(a), Int(b)) => Ok(Int(a + b))
    case (Str(a), Str(b)) => Ok(Str(a + b))
    case (List(a), List(b)) => Ok(List(a + b))
    case _ => Err(TypeError)
  }

  /** The Python elements of `v` when every element is a dict (what `for item in v: item[k] = x` accepts). */
  function AsRecords(v: Value): Result<seq<Record>> {
    match v
    case List(xs) => FieldsOf(xs)
    case Map(m) => if m == map[] then Ok([]) else Err(TypeError)
    case Str(s) => if s == [] then Ok([]) else Err(TypeError)
    case _ => Err(TypeError)
  }

  /** The dicts of a list, or TypeError when an element is not one. */
  function FieldsOf(xs: seq<Value>): (r: Result<seq<Record>>)
    ensures r.Ok? <==> forall i | 0 <= i < |xs| :: xs[i].Map?
    ensures r.Ok? ==> |r.value| == |xs| && forall i | 0 <= i < |xs| :: r.value[i] == xs[i].fields
    ensures r.Err? ==> r.error == TypeError
    decreases |xs|
  {
    if xs == [] then Ok([])
    else if !xs[|xs| - 1].Map? then Err(TypeError)
    else
      var init :- FieldsOf(xs[..|xs| - 1]);
      Ok(init + [xs[|xs| - 1].fields])
  }

  /**
   * `for item in items: item[k] = v`: every item now maps `k` to `v`, gains
   * no other key and keeps the value of every other key.
   */
  function TagAll(items: seq<Record>, k: string, v: Value): (tagged: seq<Record>)
    ensures |tagged| == |items|
    ensures forall i | 0 <= i < |items| :: tagged[i].Keys == items[i].Keys + {k} && tagged[i][k] == v
    ensures forall i, j | 0 <= i < |items| && j in items[i] && j != k :: tagged[i][j] == items[i][j]
  {
    seq(|items|, i requires 0 <= i < |items| => items[i][k := v])
  }

  lemma TagAllAppend(a: seq<Record>, b: seq<Record>, k: string, v: Value)
    ensures TagAll(a + b, k, v) == TagAll(a, k, v) + TagAll(b, k, v)
  {
  }

  /**
   * A loop that appends `f(x)` for every `x` in order, as far as the first
   * exception, which it raises.
   */
  function MapAll<T, U>(f: T -> Result<U>, xs: seq<T>): Result<seq<U>>
    decreases |xs|
  {
    if xs == [] then Ok([])
    else
      var done :- MapAll(f, xs[..|xs| - 1]);
      var last :- f(xs[|xs| - 1]);
      Ok(done + [last])
  }

  /** The loop MapAll describes. */
  method MapAllLoop<T, U>(f: T -> Result<U>, xs: seq<T>) returns (r: Result<seq<U>>)
    ensures r == MapAll(f, xs)
  {
    var done: seq<U> := [];
    for i := 0 to |xs|
      invariant MapAll(f, xs[..i]) == Ok(done)
    {
      MapAllSnoc(f, xs, i);
      var last := f(xs[i]);
      if last.Err? {
        MapAllPrefixErr(f, xs, i + 1);
        return Err(last.error);
      }
      done := done + [last.value];
    }
    assert xs[..|xs|] == xs;
    r := Ok(done);
  }

  /** One result per element, in order, each `f` of its element. */
  lemma {:induction false} MapAllEach<T, U>(f: T -> Result<U>, xs: seq<T>)
    ensures var r := MapAll(f, xs);
      r.Ok? ==> |r.value| == |xs| && forall i | 0 <= i < |xs| :: f(xs[i]) == Ok(r.value[i])
    ensures MapAll(f, xs).Err? <==> exists i | 0 <= i < |xs| :: f(xs[i]).Err?
    decreases |xs|
  {
    if xs != [] {
      var init := xs[..|xs| - 1];
      MapAllEach(f, init);
      assert forall i | 0 <= i < |init| :: init[i] == xs[i];
      if MapAll(f, xs).Err? && MapAll(f, init).Ok? {
        assert f(xs[|xs| - 1]).Err?;
      }
      if exists i | 0 <= i < |xs| :: f(xs[i]).Err? {
        var i :| 0 <= i < |xs| && f(xs[i]).Err?;
        if i < |init| {
          assert f(init[i]).Err?;
        }
      }
    }
  }

  /** The loop over a prefix, extended by one element. */
  lemma MapAllSnoc<T, U>(f: T -> Result<U>, xs: seq<T>, i: nat)
    requires i < |xs|
    ensures MapAll(f, xs[..i + 1]) == (var done :- MapAll(f, xs[..i]); var last :- f(xs[i]); Ok(done + [last]))
  {
    assert xs[..i + 1][..i] == xs[..i];
  }

  /** Once a prefix raises, the whole loop raises the same exception. */
  lemma {:induction false} MapAllPrefixErr<T, U>(f: T -> Result<U>, xs: seq<T>, n: nat)
    requires n <= |xs|
    requires MapAll(f, xs[..n]).Err?
    ensures MapAll(f, xs) == MapAll(f, xs[..n])
    decreases |xs| - n
  {
    if n < |xs| {
      assert xs[..n + 1][..n] == xs[..n];
      MapAllPrefixErr(f, xs, n + 1);
    } else {
      assert xs[..n] == xs;
    }
  }

  /** Mapping a concatenation maps the parts: the loop can run over the parts one after another. */
  lemma {:induction false} MapAllAppend<T, U>(f: T -> Result<U>, a: seq<T>, b: seq<T>)
    ensures MapAll(f, a + b) == (var ra :- MapAll(f, a); var rb :- MapAll(f, b); Ok(ra + rb))
    decreases |b|
  {
    if b == [] {
      assert a + b == a;
      if MapAll(f, a).Ok? { assert MapAll(f, a).value + [] == MapAll(f, a).value; }
    } else {
      var b' := b[..|b| - 1];
      assert (a + b)[..|a + b| - 1] == a + b';
      assert (a + b)[|a + b| - 1] == b[|b| - 1];
      MapAllAppend(f, a, b');
      if MapAll(f, a).Ok? && MapAll(f, b').Ok? && f(b[|b| - 1]).Ok? {
        assert MapAll(f, a).value + MapAll(f, b').value + [f(b[|b| - 1]).value]
            == MapAll(f, a).value + (MapAll(f, b').value + [f(b[|b| - 1]).value]);
      }
    }
  }
}
