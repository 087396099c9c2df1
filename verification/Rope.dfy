/**
 Rotary position embedding over the reals: the in-place loop on interleaved pairs, the cache of cosines and sines it
 reads, and the reference that de-interleaves a vector and rotates its halves.
 */
module Rope {

  // ---------- the reference ----------

  /** Even elements first, then odd ones: the view, transpose and reshape of the reference. */
  function Deinterleave(x: seq<real>): (y: seq<real>)
    requires |x| % 2 == 0
    ensures |y| == |x|
  {
    seq(|x|, i requires 0 <= i < |x| => if i < |x| / 2 then x[2 * i] else x[2 * (i - |x| / 2) + 1])
  }

  function RotateHalf(x: seq<real>): (y: seq<real>)
    requires |x| % 2 == 0
    ensures |y| == |x|
  {
    var h := |x| / 2;
    seq(h, i requires 0 <= i < h => -x[h + i]) + x[..h]
  }

  /** `x * cos + rotate_half(x) * sin` after de-interleaving; `cos` and `sin` repeat for the second half. */
  function Rotate(x: seq<real>, cos: seq<real>, sin: seq<real>): (y: seq<real>)
    requires |x| == 2 * |cos| == 2 * |sin|
    ensures |y| == |x|
  {
    var d, r := Deinterleave(x), RotateHalf(Deinterleave(x));
    seq(|x|, i requires 0 <= i < |x| => d[i] * (cos + cos)[i] + r[i] * (sin + sin)[i])
  }

  /** The two coordinates of a pair turned by an angle with the given cosine and sine. */
  function First(c: real, s: real, a: real, b: real): real {
    c * a - s * b
  }

  function Second(c: real, s: real, a: real, b: real): real {
    s * a + c * b
  }

  /** What that is, pair by pair. */
  lemma RotateAt(x: seq<real>, cos: seq<real>, sin: seq<real>, i: nat)
    requires |x| == 2 * |cos| == 2 * |sin| && i < |cos|
    ensures Rotate(x, cos, sin)[i] == First(cos[i], sin[i], x[2 * i], x[2 * i + 1])
    ensures Rotate(x, cos, sin)[i + |cos|] == Second(cos[i], sin[i], x[2 * i], x[2 * i + 1])
  {
  }

  // ---------- the cache ----------

  /** Where entry `(at, j)` of a table with rows of `h` entries lies. */
  function Flat(at: nat, j: nat, h: nat): nat {
    at * h + j
  }

  lemma FlatFits(at: nat, j: nat, rows: nat, h: nat)
    requires at < rows && j <= h
    ensures Flat(at, j, h) == Flat(at, 0, h) + j && Flat(at, 0, h) + h <= rows * h
  {
    assert (at + 1) * h <= rows * h;
  }

  lemma FlatApart(at: nat, k: nat, i: nat, j: nat, h: nat)
    requires k < h && j < h && (at, k) != (i, j)
    ensures Flat(at, k, h) != Flat(i, j, h)
  {
    if at < i {
      FlatFits(at, k, i, h);
    } else if i < at {
      FlatFits(i, j, at, h);
    }
  }

  lemma HalfOfRow(at: nat, dim: nat)
    requires dim % 2 == 0
    ensures at * dim / 2 == Flat(at, 0, dim / 2)
  {
    assert at * dim == 2 * (at * (dim / 2));
  }

  /** Entry `(at, j)` of both tables is the cosine and sine of position `at` times frequency `j`. */
  predicate EntryOk(cos: seq<real>, sin: seq<real>, invFreq: seq<real>, at: nat, j: nat, cosine: real -> real,
                    sine: real -> real)
    requires j < |invFreq|
  {
    && Flat(at, j, |invFreq|) < |cos| && cos[Flat(at, j, |invFreq|)] == cosine(at as real * invFreq[j])
    && Flat(at, j, |invFreq|) < |sin| && sin[Flat(at, j, |invFreq|)] == sine(at as real * invFreq[j])
  }

  ghost predicate RowsOk(cos: seq<real>, sin: seq<real>, invFreq: seq<real>, rows: nat, last: nat,
                         cosine: real -> real, sine: real -> real)
  {
    forall at: nat, j: nat | j < |invFreq| && (at < rows || (at == rows && j < last)) ::
      EntryOk(cos, sin, invFreq, at, j, cosine, sine)
  }

  /** One entry more; no other lies at its place. */
  lemma OneMoreEntry(cos: seq<real>, sin: seq<real>, invFreq: seq<real>, i: nat, j: nat, cosine: real -> real,
                     sine: real -> real)
    requires RowsOk(cos, sin, invFreq, i, j, cosine, sine) && j < |invFreq|
    requires Flat(i, j, |invFreq|) < |cos| && Flat(i, j, |invFreq|) < |sin|
    ensures var idx, freq := Flat(i, j, |invFreq|), i as real * invFreq[j];
            RowsOk(cos[idx := cosine(freq)], sin[idx := sine(freq)], invFreq, i, j + 1, cosine, sine)
  {
    hide Flat;
    var idx, freq := Flat(i, j, |invFreq|), i as real * invFreq[j];
    var cos', sin' := cos[idx := cosine(freq)], sin[idx := sine(freq)];
    forall at: nat, k: nat | k < |invFreq| && (at < i || (at == i && k < j + 1))
      ensures EntryOk(cos', sin', invFreq, at, k, cosine, sine)
    {
      if at == i && k == j {
        assert cos'[idx] == cosine(freq) && sin'[idx] == sine(freq);
      } else {
        FlatApart(at, k, i, j, |invFreq|);
        assert EntryOk(cos, sin, invFreq, at, k, cosine, sine);
        var other := Flat(at, k, |invFreq|);
        assert other != idx && cos'[other] == cos[other] && sin'[other] == sin[other];
      }
    }
  }

  method SetEntry(cos: array<real>, sin: array<real>, invFreq: seq<real>, dim: nat, i: nat, j: nat,
                  cosine: real -> real, sine: real -> real)
    requires dim % 2 == 0 && |invFreq| == dim / 2 && cos != sin && j < |invFreq|
    requires Flat(i, j, |invFreq|) < cos.Length && Flat(i, j, |invFreq|) < sin.Length
    requires RowsOk(cos[..], sin[..], invFreq, i, j, cosine, sine)
    modifies cos, sin
    ensures RowsOk(cos[..], sin[..], invFreq, i, j + 1, cosine, sine)
  {
    hide RowsOk, Flat;
    HalfOfRow(i, dim);
    FlatFits(i, j, i + 1, |invFreq|);
    OneMoreEntry(cos[..], sin[..], invFreq, i, j, cosine, sine);
    var freq := i as real * invFreq[j];
    var idx1 := i * dim / 2 + j;
    assert idx1 == Flat(i, j, |invFreq|);
    cos[idx1] := cosine(freq);
    sin[idx1] := sine(freq);
    assert cos[..] == old(cos[..])[idx1 := cosine(freq)] && sin[..] == old(sin[..])[idx1 := sine(freq)];
  }

  /** The offset of the pointers `cos(at)` and `sin(at)` in tables for `dim` dimensions. */
  function RowStart(dim: nat, at: nat): nat {
    at * dim / 2
  }

  class RotaryEmbedding {
    const dim: nat
    const invFreq: seq<real>
    var cosCached: array<real>
    var sinCached: array<real>
    var maxSeqLenCached: nat

    ghost predicate Valid()
      reads this
    {
      && dim % 2 == 0 && |invFreq| == dim / 2 && cosCached != sinCached
      && cosCached.Length == sinCached.Length == maxSeqLenCached * (dim / 2)
    }

    constructor (dim: nat, invFreq: seq<real>)
      requires dim % 2 == 0 && |invFreq| == dim / 2
      ensures Valid() && this.dim == dim && this.invFreq == invFreq && maxSeqLenCached == 0
      ensures fresh(cosCached) && fresh(sinCached)
    {
      this.dim, this.invFreq := dim, invFreq;
      cosCached := new real[0];
      sinCached := new real[0];
      maxSeqLenCached := 0;
    }

    /** `n` entries can be read from where position `at` starts. */
    ghost predicate HasRow(at: nat, n: nat)
      requires Valid()
      reads this
    {
      RowStart(dim, at) + n <= cosCached.Length == sinCached.Length
    }

    ghost predicate HasRows(pos: nat, posLen: nat, n: nat)
      requires Valid()
      reads this
    {
      forall p | pos <= p < pos + posLen :: HasRow(p, n)
    }

    ghost function Cosines(at: nat, n: nat): seq<real>
      requires Valid() && HasRow(at, n)
      reads this, cosCached
    {
      Window(cosCached[..], RowStart(dim, at), n)
    }

    ghost function Sines(at: nat, n: nat): seq<real>
      requires Valid() && HasRow(at, n)
      reads this, sinCached
    {
      Window(sinCached[..], RowStart(dim, at), n)
    }

    /** The row the pointer `cos(at)` starts. */
    ghost function CosRow(at: nat): (row: seq<real>)
      requires Valid() && at < maxSeqLenCached
      reads this, cosCached
      ensures |row| == dim / 2
    {
      FlatFits(at, 0, maxSeqLenCached, dim / 2);
      HalfOfRow(at, dim);
      Cosines(at, dim / 2)
    }

    ghost function SinRow(at: nat): (row: seq<real>)
      requires Valid() && at < maxSeqLenCached
      reads this, sinCached
      ensures |row| == dim / 2
    {
      FlatFits(at, 0, maxSeqLenCached, dim / 2);
      HalfOfRow(at, dim);
      Sines(at, dim / 2)
    }

    /** Afterwards row `at` holds the cosines and sines of `at` times each frequency. */
    method SetCosSinCache(seqLen: nat, cosine: real -> real, sine: real -> real)
      requires Valid()
      modifies this
      ensures Valid() && fresh(cosCached) && fresh(sinCached) && maxSeqLenCached == seqLen
      ensures forall at, j | 0 <= at < seqLen && 0 <= j < dim / 2 ::
                && CosRow(at)[j] == cosine(at as real * invFreq[j])
                && SinRow(at)[j] == sine(at as real * invFreq[j])
    {
      var h := dim / 2;
      cosCached := new real[seqLen * h];
      sinCached := new real[seqLen * h];
      maxSeqLenCached := seqLen;
      hide Flat;
      for i := 0 to seqLen
        invariant Valid() && fresh(cosCached) && fresh(sinCached) && maxSeqLenCached == seqLen
        invariant RowsOk(cosCached[..], sinCached[..], invFreq, i, 0, cosine, sine)
      {
        for j := 0 to |invFreq|
          invariant Valid() && fresh(cosCached) && fresh(sinCached) && maxSeqLenCached == seqLen
          invariant RowsOk(cosCached[..], sinCached[..], invFreq, i, j, cosine, sine)
        {
          FlatFits(i, j, seqLen, h);
          SetEntry(cosCached, sinCached, invFreq, dim, i, j, cosine, sine);
        }
      }
      forall at, j | 0 <= at < seqLen && 0 <= j < dim / 2
        ensures CosRow(at)[j] == cosine(at as real * invFreq[j]) && SinRow(at)[j] == sine(at as real * invFreq[j])
      {
        RowEntry(at, j, cosine, sine);
      }
    }

    lemma RowEntry(at: nat, j: nat, cosine: real -> real, sine: real -> real)
      requires Valid() && at < maxSeqLenCached && j < dim / 2
      requires RowsOk(cosCached[..], sinCached[..], invFreq, maxSeqLenCached, 0, cosine, sine)
      ensures CosRow(at)[j] == cosine(at as real * invFreq[j]) && SinRow(at)[j] == sine(at as real * invFreq[j])
    {
      hide Flat;
      FlatFits(at, j, maxSeqLenCached, dim / 2);
      HalfOfRow(at, dim);
      assert EntryOk(cosCached[..], sinCached[..], invFreq, at, j, cosine, sine);
    }
  }

  // ---------- applying it in place ----------

  /** The thread's scratch vector, which only grows. */
  class Scratch {
    var v2: array<real>

    constructor ()
      ensures fresh(v2) && v2.Length == 0
    {
      v2 := new real[0];
    }

    method Grow(size: nat)
      modifies this
      ensures fresh(v2) && v2.Length == size
    {
      var before := v2[..];
      v2 := new real[size](i requires 0 <= i => if i < |before| then before[i] else 0.0);
    }
  }

  /** The `size` elements from `start` on. */
  function Window(v: seq<real>, start: nat, size: nat): (x: seq<real>)
    requires start + size <= |v|
    ensures |x| == size && forall k | 0 <= k < size :: x[k] == v[start + k]
  {
    v[start..start + size]
  }

  lemma SameWindow(x: seq<real>, y: seq<real>, start: nat, size: nat)
    requires |x| == |y| && start + size <= |x| && forall k | start <= k < start + size :: x[k] == y[k]
    ensures Window(x, start, size) == Window(y, start, size)
  {
  }

  /** Fills `v2` with the rotated vector; `row` is where the position's cosines and sines start. */
  method RotateInto(cos: array<real>, sin: array<real>, row: nat, v: array<real>, start: nat, size: nat,
                    v2: array<real>)
    requires size % 2 == 0 && start + size <= v.Length && size <= v2.Length
    requires row + size / 2 <= cos.Length && row + size / 2 <= sin.Length
    requires v2 != v && v2 != cos && v2 != sin
    modifies v2
    ensures forall k | 0 <= k < size :: v2[k] ==
              Rotate(Window(v[..], start, size), Window(cos[..], row, size / 2), Window(sin[..], row, size / 2))[k]
  {
    hide Rotate, First, Second, Window;
    var h := size / 2;
    ghost var x, c, s := Window(v[..], start, size), Window(cos[..], row, h), Window(sin[..], row, h);
    ghost var y := Rotate(x, c, s);
    for i := 0 to h
      invariant forall k | 0 <= k < i || h <= k < h + i :: v2[k] == y[k]
    {
      RotateAt(x, c, s, i);
      var a, b := v[start + 2 * i], v[start + 2 * i + 1];
      assert a == x[2 * i] && b == x[2 * i + 1] && c[i] == cos[row + i] && s[i] == sin[row + i];
      v2[i] := First(cos[row + i], sin[row + i], a, b);
      v2[i + h] := Second(cos[row + i], sin[row + i], a, b);
    }
  }

  method CopyBack(v2: array<real>, v: array<real>, start: nat, size: nat)
    requires v2 != v && start + size <= v.Length && size <= v2.Length
    modifies v
    ensures forall k | 0 <= k < v.Length :: v[k] == if start <= k < start + size then v2[k - start] else old(v[k])
  {
    for i := 0 to size
      invariant forall k | 0 <= k < v.Length :: v[k] == if start <= k < start + i then v2[k - start] else old(v[k])
    {
      v[start + i] := v2[i];
    }
  }

  /** The `size` elements from `start` on, turned by the cosines and sines from `row` on. */
  ghost predicate Turned(cos: seq<real>, sin: seq<real>, row: nat, before: seq<real>, after: seq<real>,
                         start: nat, size: nat)
    requires size % 2 == 0 && row + size / 2 <= |cos| == |sin| && start + size <= |before| == |after|
  {
    Window(after, start, size) ==
    Rotate(Window(before, start, size), Window(cos, row, size / 2), Window(sin, row, size / 2))
  }

  lemma StaysTurned(cos: seq<real>, sin: seq<real>, row: nat, before: seq<real>, after: seq<real>, after': seq<real>,
                    start: nat, size: nat)
    requires size % 2 == 0 && row + size / 2 <= |cos| == |sin| && start + size <= |before| == |after| == |after'|
    requires Turned(cos, sin, row, before, after, start, size)
    requires forall k | start <= k < start + size :: after'[k] == after[k]
    ensures Turned(cos, sin, row, before, after', start, size)
  {
    hide Rotate, Window;
    SameWindow(after, after', start, size);
  }

  /** `ok` is false where the source throws: for an odd size, and then nothing changes. */
  method ApplySingle(emb: RotaryEmbedding, scratch: Scratch, v: array<real>, start: nat, size: nat, pos: nat)
    returns (ok: bool)
    requires emb.Valid() && start + size <= v.Length
    requires size > 0 && size % 2 == 0 ==> emb.HasRow(pos, size / 2)
    requires v != scratch.v2 && v != emb.cosCached && v != emb.sinCached
    requires scratch.v2 != emb.cosCached && scratch.v2 != emb.sinCached
    modifies v, scratch, scratch.v2
    ensures ok <==> size % 2 == 0
    ensures fresh(scratch.v2) || scratch.v2 == old(scratch.v2)
    ensures ok && size > 0 ==>
              Turned(emb.cosCached[..], emb.sinCached[..], RowStart(emb.dim, pos), old(v[..]), v[..], start, size)
    ensures !ok ==> v[..] == old(v[..])
    ensures forall k | 0 <= k < v.Length && !(start <= k < start + size) :: v[k] == old(v[k])
  {
    hide Rotate, RowStart, Window;
    if size == 0 {
      return true;
    }
    if size % 2 != 0 {
      return false;
    }
    if scratch.v2.Length < size {
      scratch.Grow(size);
    }
    RotateInto(emb.cosCached, emb.sinCached, RowStart(emb.dim, pos), v, start, size, scratch.v2);
    CopyBack(scratch.v2, v, start, size);
    ok := true;
  }

  /** Where vector `i` of a block of them starts. */
  function VectorStart(start: nat, size: nat, i: nat): nat {
    start + size * i
  }

  lemma VectorsApart(start: nat, size: nat, i: nat, k: nat)
    requires i < k
    ensures start <= VectorStart(start, size, i) && VectorStart(start, size, i) + size <= VectorStart(start, size, k)
    ensures VectorStart(start, size, 0) == start
    ensures VectorStart(start, size, i + 1) == VectorStart(start, size, i) + size
  {
    assert size * (i + 1) <= size * k;
  }

  /** Vector `i` of the block has been turned by position `pos + i`. */
  ghost predicate VectorTurned(cos: seq<real>, sin: seq<real>, dim: nat, first: seq<real>, now: seq<real>, start: nat,
                               size: nat, pos: nat, i: nat)
  {
    && size % 2 == 0 && RowStart(dim, pos + i) + size / 2 <= |cos| == |sin|
    && VectorStart(start, size, i) + size <= |first| == |now|
    && Turned(cos, sin, RowStart(dim, pos + i), first, now, VectorStart(start, size, i), size)
  }

  /** The first `done` vectors have been turned and nothing else has changed. */
  ghost predicate Progress(cos: seq<real>, sin: seq<real>, dim: nat, first: seq<real>, now: seq<real>, start: nat,
                           size: nat, pos: nat, done: nat)
  {
    && |first| == |now|
    && (forall i | 0 <= i < done :: VectorTurned(cos, sin, dim, first, now, start, size, pos, i))
    && (forall k | 0 <= k < |first| && !(start <= k < VectorStart(start, size, done)) :: now[k] == first[k])
  }

  lemma ProgressStep(cos: seq<real>, sin: seq<real>, dim: nat, first: seq<real>, before: seq<real>, after: seq<real>,
                     start: nat, size: nat, pos: nat, i: nat)
    requires Progress(cos, sin, dim, first, before, start, size, pos, i) && |after| == |before|
    requires VectorTurned(cos, sin, dim, before, after, start, size, pos, i)
    requires var at := VectorStart(start, size, i);
             forall k | 0 <= k < |after| && !(at <= k < at + size) :: after[k] == before[k]
    ensures Progress(cos, sin, dim, first, after, start, size, pos, i + 1)
  {
    hide Turned, VectorStart, RowStart;
    VectorsApart(start, size, i, i + 1);
    forall k | 0 <= k < i + 1 ensures VectorTurned(cos, sin, dim, first, after, start, size, pos, k) {
      if k < i {
        VectorsApart(start, size, k, i);
        assert VectorTurned(cos, sin, dim, first, before, start, size, pos, k);
        StaysTurned(cos, sin, RowStart(dim, pos + k), first, before, after, VectorStart(start, size, k), size);
      } else {
        TurnedFrom(cos, sin, RowStart(dim, pos + i), first, before, after, VectorStart(start, size, i), size);
      }
    }
  }

  lemma TurnedFrom(cos: seq<real>, sin: seq<real>, row: nat, first: seq<real>, before: seq<real>, after: seq<real>,
                   start: nat, size: nat)
    requires size % 2 == 0 && row + size / 2 <= |cos| == |sin| && start + size <= |first| == |before| == |after|
    requires Turned(cos, sin, row, before, after, start, size)
    requires forall k | start <= k < start + size :: before[k] == first[k]
    ensures Turned(cos, sin, row, first, after, start, size)
  {
    hide Rotate, Window;
    SameWindow(first, before, start, size);
  }

  /** Vector `i` of the block gets position `pos + i`; nothing else changes. */
  method ApplyMultiple(emb: RotaryEmbedding, scratch: Scratch, v: array<real>, start: nat, size: nat, pos: nat,
                       posLen: nat)
    returns (ok: bool)
    requires emb.Valid() && VectorStart(start, size, posLen) <= v.Length
    requires size > 0 && size % 2 == 0 ==> emb.HasRows(pos, posLen, size / 2)
    requires v != scratch.v2 && v != emb.cosCached && v != emb.sinCached
    requires scratch.v2 != emb.cosCached && scratch.v2 != emb.sinCached
    modifies v, scratch, scratch.v2
    ensures ok <==> size % 2 == 0 || posLen == 0
    ensures Progress(emb.cosCached[..], emb.sinCached[..], emb.dim, old(v[..]), v[..], start, size, pos,
                     if ok && size > 0 then posLen else 0)
  {
    hide Turned, RowStart, VectorStart, VectorTurned, Progress;
    ghost var cos, sin := emb.cosCached[..], emb.sinCached[..];
    NothingTurned(cos, sin, emb.dim, v[..], start, size, pos);
    if size == 0 || posLen == 0 {
      return true;
    }
    if size % 2 != 0 {
      return false;
    }
    for i := 0 to posLen
      invariant fresh(scratch.v2) || scratch.v2 == old(scratch.v2)
      invariant Progress(cos, sin, emb.dim, old(v[..]), v[..], start, size, pos, i)
    {
      assert emb.HasRow(pos + i, size / 2);
      VectorsApart(start, size, i, posLen);
      ghost var before := v[..];
      var applied := ApplySingle(emb, scratch, v, VectorStart(start, size, i), size, pos + i);
      JustTurned(cos, sin, emb.dim, before, v[..], start, size, pos, i);
      ProgressStep(cos, sin, emb.dim, old(v[..]), before, v[..], start, size, pos, i);
    }
    ok := true;
  }

  lemma NothingTurned(cos: seq<real>, sin: seq<real>, dim: nat, v: seq<real>, start: nat, size: nat, pos: nat)
    ensures Progress(cos, sin, dim, v, v, start, size, pos, 0)
  {
  }

  lemma JustTurned(cos: seq<real>, sin: seq<real>, dim: nat, before: seq<real>, after: seq<real>, start: nat, size: nat,
                   pos: nat, i: nat)
    requires size % 2 == 0 && RowStart(dim, pos + i) + size / 2 <= |cos| == |sin|
    requires VectorStart(start, size, i) + size <= |before| == |after|
    requires Turned(cos, sin, RowStart(dim, pos + i), before, after, VectorStart(start, size, i), size)
    ensures VectorTurned(cos, sin, dim, before, after, start, size, pos, i)
  {
  }
}
