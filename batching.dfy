/**
 * `batchify(data, batch_size)`, the generator all four jobs define, which
 * yields `data[i:i + batch_size]` for `i` in `range(0, len(data), batch_size)`,
 * and the concatenation it is undone by.
 */
module Batching {

  /** `itertools.chain(*ss)`: the lists one after another. */
  function Flatten<T>(ss: seq<seq<T>>): seq<T> {
    if ss == [] then [] else ss[0] + Flatten(ss[1..])
  }

  lemma {:induction false} FlattenAppend<T>(a: seq<seq<T>>, b: seq<seq<T>>)
    ensures Flatten(a + b) == Flatten(a) + Flatten(b)
  {
    if a == [] {
      assert a + b == b;
    } else {
      assert (a + b)[1..] == a[1..] + b;
      FlattenAppend(a[1..], b);
    }
  }

  lemma FlattenOne<T>(s: seq<T>)
    ensures Flatten([s]) == s
  {
    assert [s][1..] == [];
  }

  /** An item of the chain comes from one of the lists. */
  lemma {:induction false} FlattenMember<T>(ss: seq<seq<T>>, x: T)
    requires x in Flatten(ss)
    ensures exists i | 0 <= i < |ss| :: x in ss[i]
    decreases |ss|
  {
    if x !in ss[0] {
      FlattenMember(ss[1..], x);
      var i :| 0 <= i < |ss[1..]| && x in ss[1..][i];
      assert ss[i + 1] == ss[1..][i];
    }
  }

  /** Lists of one length `m`, chained: `|ss| * m` items. */
  lemma {:induction false} FlattenUniform<T>(ss: seq<seq<T>>, m: nat)
    requires forall i | 0 <= i < |ss| :: |ss[i]| == m
    ensures |Flatten(ss)| == |ss| * m
    decreases |ss|
  {
    if ss != [] {
      FlattenUniform(ss[1..], m);
      MulSucc(|ss| - 1, m);
    }
  }

  /** Lists of one length `m`, chained: item `j` of list `i` sits at position `i * m + j`. */
  lemma {:induction false} FlattenAt<T>(ss: seq<seq<T>>, m: nat, i: nat, j: nat)
    requires forall k | 0 <= k < |ss| :: |ss[k]| == m
    requires i < |ss| && j < m
    ensures i * m + j < |Flatten(ss)| && Flatten(ss)[i * m + j] == ss[i][j]
    decreases i
  {
    var rest := Flatten(ss[1..]);
    assert Flatten(ss) == ss[0] + rest;
    if i == 0 {
      assert i * m + j == j;
    } else {
      var p := (i - 1) * m + j;
      FlattenAt(ss[1..], m, i - 1, j);
      MulSucc(i - 1, m);
      assert i * m + j == |ss[0]| + p;
      assert ss[1..][i - 1] == ss[i];
    }
  }

  /**
   * The batches, in order. A negative size gives an empty range, so no batch;
   * a zero size makes `range` raise, which no caller can reach (the callers
   * pass 100 and 28).
   */
  function Batchify<T>(data: seq<T>, size: int): seq<seq<T>>
    requires size != 0
    decreases |data|
  {
    if size < 0 || data == [] then []
    else if |data| <= size then [data]
    else [data[..size]] + Batchify(data[size..], size)
  }

  /** Batching loses nothing and adds nothing: the batches, concatenated, are the data. */
  lemma {:induction false} BatchifyFlatten<T>(data: seq<T>, size: int)
    requires size > 0
    ensures Flatten(Batchify(data, size)) == data
    decreases |data|
  {
    if data == [] {
    } else if |data| <= size {
      FlattenOne(data);
    } else {
      var rest := Batchify(data[size..], size);
      BatchifyFlatten(data[size..], size);
      assert ([data[..size]] + rest)[1..] == rest;
      assert data[..size] + data[size..] == data;
    }
  }

  /** No batch is empty and none holds more than `size` items. */
  lemma {:induction false} BatchifySizes<T>(data: seq<T>, size: int)
    requires size > 0
    ensures forall b | b in Batchify(data, size) :: 0 < |b| <= size
    decreases |data|
  {
    if |data| > size {
      BatchifySizes(data[size..], size);
    }
  }

  lemma MulSucc(n: int, m: int)
    ensures (n + 1) * m == n * m + m
  {
  }

  /**
   * The number of batches is ceil(|data| / size): every batch but the last
   * is full, so |data| lies in ((n - 1) * size, n * size] for n batches.
   */
  lemma {:induction false} BatchifyCount<T>(data: seq<T>, size: int)
    requires size > 0
    ensures data == [] <==> Batchify(data, size) == []
    ensures data != [] ==> var n := |Batchify(data, size)|; (n - 1) * size < |data| <= n * size
    decreases |data|
  {
    if data == [] {
    } else if |data| <= size {
    } else {
      var n' := |Batchify(data[size..], size)|;
      BatchifyCount(data[size..], size);
      MulSucc(n' - 1, size);
      MulSucc(n', size);
    }
  }

  /** Where batch k starts: k * size, counted up one batch at a time. */
  function Start(k: nat, size: nat): nat {
    if k == 0 then 0 else Start(k - 1, size) + size
  }

  lemma {:induction false} StartIsProduct(k: nat, size: nat)
    ensures Start(k, size) == k * size
  {
    if k > 0 {
      StartIsProduct(k - 1, size);
      MulSucc(k - 1, size);
    }
  }

  /** Batch k is the slice `data[k*size : k*size + size]`, cut short at the end. */
  lemma {:induction false} BatchifySlices<T>(data: seq<T>, size: nat, k: nat)
    requires size > 0
    requires k < |Batchify(data, size)|
    ensures Start(k, size) < |data|
    ensures Batchify(data, size)[k] == data[Start(k, size) .. Min(Start(k, size) + size, |data|)]
    decreases |data|
  {
    if |data| <= size {
      assert k == 0;
    } else if k > 0 {
      var rest := Batchify(data[size..], size);
      var batches := Batchify(data, size);
      assert batches == [data[..size]] + rest;
      assert k - 1 < |rest|;
      BatchifySlices(data[size..], size, k - 1);
      var lo := Start(k - 1, size);
      assert lo < |data[size..]|;
      assert rest[k - 1] == data[size..][lo .. Min(lo + size, |data[size..]|)];
      SliceStep(data, size, k, batches, rest);
    }
  }

  /** One step of BatchifySlices: batch k of `data` is batch k - 1 of `data[size..]`. */
  lemma SliceStep<T>(data: seq<T>, size: nat, k: nat, batches: seq<seq<T>>, rest: seq<seq<T>>)
    requires 0 < size < |data| && k > 0
    requires batches == [data[..size]] + rest
    requires k - 1 < |rest|
    requires Start(k - 1, size) < |data[size..]|
    requires rest[k - 1] == data[size..][Start(k - 1, size) .. Min(Start(k - 1, size) + size, |data[size..]|)]
    ensures Start(k, size) < |data|
    ensures batches[k] == data[Start(k, size) .. Min(Start(k, size) + size, |data|)]
  {
    var lo := Start(k - 1, size);
    var hi := Min(lo + size, |data| - size);
    SliceOfSuffix(data, size, lo, hi);
    var st := Start(k, size);
    assert st == size + lo;
    assert size + hi == Min(st + size, |data|);
    calc {
      batches[k];
      rest[k - 1];
      data[size..][lo..hi];
      data[st .. Min(st + size, |data|)];
    }
  }

  lemma SliceOfSuffix<T>(s: seq<T>, d: nat, lo: nat, hi: nat)
    requires d <= |s| && lo <= hi <= |s| - d
    ensures s[d..][lo..hi] == s[d + lo .. d + hi]
  {
  }

  function Min(a: int, b: int): int { if a <= b then a else b }

  /** Every batch but the last has exactly `size` elements. */
  lemma {:induction false} BatchifyFullBatches<T>(data: seq<T>, size: int, k: nat)
    requires size > 0
    requires k + 1 < |Batchify(data, size)|
    ensures |Batchify(data, size)[k]| == size
    decreases |data|
  {
    if |data| <= size {
    } else if k > 0 {
      BatchifyFullBatches(data[size..], size, k - 1);
    }
  }
}
