/** The slicing loop `for (i = 0; i < n; i += SIZE) s.slice(i, min(i + SIZE, n))` that
    commit-component (chunks of 5) and save-translations (batches of 10) use. */
module Batching {

  /** The slices `s[i..min(i + size, |s|)]` for `i = from, from + size, ...` below `|s|`. */
  function ChunksFrom<T>(s: seq<T>, size: nat, from: nat): seq<seq<T>>
    requires size > 0
    decreases |s| - from
  {
    if from >= |s| then []
    else [s[from..if from + size < |s| then from + size else |s|]] + ChunksFrom(s, size, from + size)
  }

  /** The groups the loop visits, in order. */
  function Chunks<T>(s: seq<T>, size: nat): seq<seq<T>>
    requires size > 0
  {
    ChunksFrom(s, size, 0)
  }

  function Flatten<T>(cs: seq<seq<T>>): seq<T> {
    if cs == [] then [] else cs[0] + Flatten(cs[1..])
  }

  lemma {:induction false} ChunksFromCover<T>(s: seq<T>, size: nat, from: nat)
    requires size > 0
    requires from <= |s|
    ensures Flatten(ChunksFrom(s, size, from)) == s[from..]
    ensures forall c :: c in ChunksFrom(s, size, from) ==> 0 < |c| <= size
    ensures |ChunksFrom(s, size, from)| == (|s| - from + size - 1) / size
    decreases |s| - from
  {
    if from < |s| {
      var to := if from + size < |s| then from + size else |s|;
      ChunksFromCover(s, size, to);
      var cs := ChunksFrom(s, size, from);
      var rest := ChunksFrom(s, size, to);
      assert cs == [s[from..to]] + ChunksFrom(s, size, from + size);
      assert ChunksFrom(s, size, from + size) == rest by {
        if to == |s| {
          assert ChunksFrom(s, size, from + size) == [] && rest == [];
        }
      }
      assert cs[0] == s[from..to] && cs[1..] == rest;
      assert Flatten(cs) == s[from..] by {
        assert Flatten(cs) == s[from..to] + Flatten(rest);
        SliceSplit(s, from, to);
      }
    }
    ChunksFromCount(s, size, from);
  }

  lemma {:induction false} ChunksFromCount<T>(s: seq<T>, size: nat, from: nat)
    requires size > 0
    requires from <= |s|
    ensures |ChunksFrom(s, size, from)| == (|s| - from + size - 1) / size
    decreases |s| - from
  {
    if from < |s| {
      var m := |s| - from;
      var to := if from + size < |s| then from + size else |s|;
      var k := |s| - to;
      ChunksFromCount(s, size, to);
      assert ChunksFrom(s, size, from) == [s[from..to]] + ChunksFrom(s, size, from + size);
      DivStep(m, size);
      if m > size {
        assert to == from + size && k == m - size;
        assert |ChunksFrom(s, size, to)| == (k + size - 1) / size;
      } else {
        assert ChunksFrom(s, size, from + size) == [];
      }
    }
  }

  lemma SliceSplit<T>(s: seq<T>, from: nat, to: nat)
    requires from <= to <= |s|
    ensures s[from..] == s[from..to] + s[to..]
  {
  }

  lemma DivStep(m: nat, size: nat)
    requires 0 < m && size > 0
    ensures (m + size - 1) / size == 1 + (if m > size then (m - size + size - 1) / size else 0)
  {
    if m > size {
      DivUnique(m + size - 1, size, (m - 1) / size + 1, (m - 1) % size);
    } else {
      DivUnique(m + size - 1, size, 1, m - 1);
    }
  }

  lemma DivUnique(a: int, d: int, q: int, r: int)
    requires d > 0 && 0 <= r < d && a == q * d + r
    ensures a / d == q
  {
    var q', r' := a / d, a % d;
    var e := q - q';
    assert e * d == r' - r by {
      assert q * d - q' * d == (q - q') * d;
    }
    if e >= 1 {
      MulAtLeast(e, d);
    } else if e <= -1 {
      MulAtLeast(-e, d);
    }
  }

  lemma {:induction false} MulAtLeast(k: int, d: int)
    requires k >= 1 && d > 0
    ensures k * d >= d
    decreases k
  {
    if k > 1 {
      MulAtLeast(k - 1, d);
      assert k * d == (k - 1) * d + d;
    }
  }

  /** The groups cover the input exactly once, in order; each holds between one and
      `size` elements; there are `ceil(|s| / size)` of them. */
  lemma ChunksCover<T>(s: seq<T>, size: nat)
    requires size > 0
    ensures Flatten(Chunks(s, size)) == s
    ensures forall c :: c in Chunks(s, size) ==> 0 < |c| <= size
    ensures |Chunks(s, size)| == (|s| + size - 1) / size
  {
    ChunksFromCover(s, size, 0);
  }

  /** The `b`-th group starts `b * size` elements in, and there is one exactly when that
      start is inside `s`: the loop's `i`-th visit, `i = b * size`, sees that group. */
  lemma {:induction false} ChunkAt<T>(s: seq<T>, size: nat, from: nat, b: nat)
    requires size > 0 && from <= |s|
    ensures b < |ChunksFrom(s, size, from)| <==> from + b * size < |s|
    ensures from + b * size < |s| ==>
      var start := from + b * size;
      ChunksFrom(s, size, from)[b] == s[start..if start + size < |s| then start + size else |s|]
    decreases b
  {
    if from < |s| && b > 0 {
      var to := if from + size < |s| then from + size else |s|;
      ChunkAt(s, size, to, b - 1);
      assert from + b * size == from + size + (b - 1) * size;
      if to == |s| {
        assert (b - 1) * size >= 0;
      }
    }
  }
}
