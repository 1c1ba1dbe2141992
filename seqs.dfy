/** Sequence helpers shared by the model: concatenation of pieces and the
    fixed-stride slicing `[s[i:i + n] for i in range(0, len(s), n)]` both
    generators use to cut words into screens and screens into lines. */
module Seqs {

  function Min(a: int, b: int): int
  {
    if a <= b then a else b
  }

  /** The concatenation of all pieces, in order. */
  function Flatten<T>(ss: seq<seq<T>>): seq<T>
  {
    if ss == [] then [] else ss[0] + Flatten(ss[1..])
  }

  /** Appending a piece appends its elements. */
  lemma {:induction false} FlattenSnoc<T>(ss: seq<seq<T>>, t: seq<T>)
    ensures Flatten(ss + [t]) == Flatten(ss) + t
    decreases |ss|
  {
    if ss == [] {
      assert ss + [t] == [t];
      assert [t][1..] == [];
    } else {
      assert (ss + [t])[1..] == ss[1..] + [t];
      FlattenSnoc(ss[1..], t);
    }
  }

  /** The first `j` pieces flatten to the first `j - 1` and then piece `j - 1`. */
  lemma FlattenPrefix<T>(ss: seq<seq<T>>, j: nat)
    requires 0 < j <= |ss|
    ensures Flatten(ss[..j]) == Flatten(ss[..j - 1]) + ss[j - 1]
  {
    assert ss[..j] == ss[..j - 1] + [ss[j - 1]];
    FlattenSnoc(ss[..j - 1], ss[j - 1]);
  }

  /** Consecutive slices of `s` of length `n`; only the last may be shorter. */
  function Chunks<T>(s: seq<T>, n: nat): (cs: seq<seq<T>>)
    requires n > 0
    ensures forall i :: 0 <= i < |cs| ==> 0 < |cs[i]| <= n
    ensures forall i :: 0 <= i < |cs| - 1 ==> |cs[i]| == n
    decreases |s|
  {
    if s == [] then []
    else if |s| <= n then [s]
    else [s[..n]] + Chunks(s[n..], n)
  }

  /** The chunks cover `s` exactly, in order: nothing dropped, nothing repeated. */
  lemma {:induction false} ChunksFlatten<T>(s: seq<T>, n: nat)
    requires n > 0
    ensures Flatten(Chunks(s, n)) == s
    decreases |s|
  {
    if s == [] {
    } else if |s| <= n {
      assert Chunks(s, n) == [s];
      assert Flatten([s]) == s + Flatten([s][1..]);
    } else {
      var cs := Chunks(s, n);
      ChunksFlatten(s[n..], n);
      assert cs[0] == s[..n] && cs[1..] == Chunks(s[n..], n);
      assert s == s[..n] + s[n..];
    }
  }

  /** There are ceil(|s| / n) chunks. */
  lemma {:induction false} ChunksCount<T>(s: seq<T>, n: nat)
    requires n > 0
    ensures (|Chunks(s, n)| - 1) * n < |s| <= |Chunks(s, n)| * n
    decreases |s|
  {
    if s == [] || |s| <= n {
    } else {
      ChunksCount(s[n..], n);
      var c := |Chunks(s[n..], n)|;
      assert |Chunks(s, n)| == c + 1;
      assert (c + 1) * n == c * n + n;
    }
  }

  /** Chunk `i` is the slice `s[i * n : i * n + n]`, as Python slicing clamps it. */
  lemma {:induction false} ChunkAt<T>(s: seq<T>, n: nat, i: nat)
    requires n > 0 && i < |Chunks(s, n)|
    ensures i * n < |s|
    ensures Chunks(s, n)[i] == s[i * n .. Min(i * n + n, |s|)]
    decreases i
  {
    if i > 0 {
      assert |s| > n;
      var t := s[n..];
      ChunkAt(t, n, i - 1);
      assert Chunks(s, n)[i] == Chunks(t, n)[i - 1];
      var j := (i - 1) * n;
      assert j + n == i * n;
      assert t[j .. Min(j + n, |t|)] == s[j + n .. Min(j + n + n, |s|)];
    }
  }

  /** The chunks before chunk `j` are full: they hold `j * n` elements. */
  lemma {:induction false} ChunksBefore<T>(s: seq<T>, n: nat, j: nat)
    requires n > 0 && j < |Chunks(s, n)|
    ensures |Flatten(Chunks(s, n)[..j])| == j * n
    decreases j
  {
    if j > 0 {
      var cs := Chunks(s, n);
      ChunksBefore(s, n, j - 1);
      FlattenPrefix(cs, j);
      assert |cs[j - 1]| == n;
      var p := (j - 1) * n;
      assert p + n == j * n;
    }
  }

  /** A loop stepping `idx` through `s` by `n` visits chunk `i` at
      `idx == i * n`, slicing exactly that chunk. */
  lemma ChunkStep<T>(s: seq<T>, n: nat, i: nat, idx: nat)
    requires n > 0 && idx == i * n && idx < |s|
    ensures i < |Chunks(s, n)|
    ensures Chunks(s, n)[i] == s[idx .. Min(idx + n, |s|)]
    ensures idx + n == (i + 1) * n
  {
    ChunksCount(s, n);
    MulCancel(i, |Chunks(s, n)|, n);
    ChunkAt(s, n, i);
  }

  /** Such a loop stops right after the last chunk. */
  lemma ChunkStop<T>(s: seq<T>, n: nat, i: nat, idx: nat)
    requires n > 0 && idx == i * n && |s| <= idx && i <= |Chunks(s, n)|
    ensures i == |Chunks(s, n)|
  {
    ChunksCount(s, n);
    MulCancel(|Chunks(s, n)| - 1, i, n);
  }

  /** Division by `n` recovers quotient and remainder. */
  lemma ModOfMultiple(q: nat, i: nat, n: nat)
    requires i < n
    ensures (n * q + i) % n == i && (n * q + i) / n == q
  {
    var x := n * q + i;
    var d, r := x / n, x % n;
    assert n * (d - q) == i - r;
    if d - q >= 1 {
      MulMonotone(1, d - q, n);
    } else if d - q <= -1 {
      MulMonotone(1, q - d, n);
    }
  }

  /** Multiplying by a positive `n` keeps strict order. */
  lemma MulCancel(a: int, b: int, n: nat)
    requires n > 0
    ensures a * n < b * n ==> a < b
  {
    if a >= b {
      MulMonotone(b, a, n);
    }
  }

  lemma MulMonotone(a: int, b: int, n: nat)
    requires a <= b
    ensures a * n <= b * n
  {
  }
}
