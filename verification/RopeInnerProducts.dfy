/**
 What rotary embeddings are for: they keep inner products of vectors at one position, and make those of vectors at two
 positions depend on nothing but the distance.
 */
module RopeInnerProducts {
  import opened Rope

  function Dot(x: seq<real>, y: seq<real>, lo: nat, hi: nat): real
    requires lo <= hi <= |x| == |y|
  {
    if lo == hi then 0.0 else Dot(x, y, lo, hi - 1) + x[hi - 1] * y[hi - 1]
  }

  lemma {:induction false} DotSplit(x: seq<real>, y: seq<real>, lo: nat, mid: nat, hi: nat)
    requires lo <= mid <= hi <= |x| == |y|
    ensures Dot(x, y, lo, hi) == Dot(x, y, lo, mid) + Dot(x, y, mid, hi)
    decreases hi
  {
    if mid < hi {
      DotSplit(x, y, lo, mid, hi - 1);
    }
  }

  /** Of two pairs: the inner product, and the product of one with the other turned by a right angle. */
  function Inner(a: real, b: real, a': real, b': real): real {
    a * a' + b * b'
  }

  function Cross(a: real, b: real, a': real, b': real): real {
    a * b' - b * a'
  }

  /** The cosine and sine of the difference of two angles. */
  function CosDiff(c: real, s: real, c': real, s': real): real {
    c * c' + s * s'
  }

  function SinDiff(c: real, s: real, c': real, s': real): real {
    s * c' - c * s'
  }

  /** Turning two pairs changes their inner product only through the difference of the angles. */
  lemma TurnedPair(c: real, s: real, c': real, s': real, a: real, b: real, a': real, b': real)
    ensures First(c, s, a, b) * First(c', s', a', b') + Second(c, s, a, b) * Second(c', s', a', b') ==
            CosDiff(c, s, c', s') * Inner(a, b, a', b') + SinDiff(c, s, c', s') * Cross(a, b, a', b')
  {
    assert First(c, s, a, b) * First(c', s', a', b') ==
           c * a * (c' * a') - c * a * (s' * b') - s * b * (c' * a') + s * b * (s' * b');
    assert Second(c, s, a, b) * Second(c', s', a', b') ==
           s * a * (s' * a') + s * a * (c' * b') + c * b * (s' * a') + c * b * (c' * b');
  }

  /** The inner product of two turned vectors, pair by pair. */
  function PairSum(x: seq<real>, y: seq<real>, c: seq<real>, s: seq<real>, c': seq<real>, s': seq<real>, n: nat): real
    requires n <= |c| == |s| == |c'| == |s'| && |x| == |y| == 2 * |c|
  {
    if n == 0 then 0.0
    else
      var i := n - 1;
      PairSum(x, y, c, s, c', s', i)
      + CosDiff(c[i], s[i], c'[i], s'[i]) * Inner(x[2 * i], x[2 * i + 1], y[2 * i], y[2 * i + 1])
      + SinDiff(c[i], s[i], c'[i], s'[i]) * Cross(x[2 * i], x[2 * i + 1], y[2 * i], y[2 * i + 1])
  }

  lemma {:induction false} DotIsPairSumUpTo(x: seq<real>, y: seq<real>, c: seq<real>, s: seq<real>, c': seq<real>,
                                            s': seq<real>, n: nat)
    requires n <= |c| == |s| == |c'| == |s'| && |x| == |y| == 2 * |c|
    ensures var u, v, h := Rotate(x, c, s), Rotate(y, c', s'), |c|;
            Dot(u, v, 0, n) + Dot(u, v, h, h + n) == PairSum(x, y, c, s, c', s', n)
  {
    hide Rotate, First, Second, Inner, Cross, CosDiff, SinDiff;
    if n > 0 {
      DotIsPairSumUpTo(x, y, c, s, c', s', n - 1);
      var i := n - 1;
      RotateAt(x, c, s, i);
      RotateAt(y, c', s', i);
      TurnedPair(c[i], s[i], c'[i], s'[i], x[2 * i], x[2 * i + 1], y[2 * i], y[2 * i + 1]);
    }
  }

  lemma {:induction false} DotIsPairSum(x: seq<real>, y: seq<real>, c: seq<real>, s: seq<real>, c': seq<real>,
                                        s': seq<real>)
    requires |c| == |s| == |c'| == |s'| && |x| == |y| == 2 * |c|
    ensures Dot(Rotate(x, c, s), Rotate(y, c', s'), 0, |x|) == PairSum(x, y, c, s, c', s', |c|)
  {
    hide *;
    DotIsPairSumUpTo(x, y, c, s, c', s', |c|);
    JoinHalves(Rotate(x, c, s), Rotate(y, c', s'), |c|, PairSum(x, y, c, s, c', s', |c|));
  }

  lemma JoinHalves(u: seq<real>, v: seq<real>, h: nat, sum: real)
    requires |u| == |v| == 2 * h && Dot(u, v, 0, h) + Dot(u, v, h, h + h) == sum
    ensures Dot(u, v, 0, |u|) == sum
  {
    DotSplit(u, v, 0, h, |u|);
  }

  predicate OnCircle(c: seq<real>, s: seq<real>)
    requires |c| == |s|
  {
    forall i | 0 <= i < |c| :: c[i] * c[i] + s[i] * s[i] == 1.0
  }

  lemma {:induction false} SameAngles(x: seq<real>, y: seq<real>, c: seq<real>, s: seq<real>, n: nat)
    requires n <= |c| == |s| && |x| == |y| == 2 * |c| && OnCircle(c, s)
    ensures PairSum(x, y, c, s, c, s, n) == Dot(x, y, 0, 2 * n)
  {
    if n > 0 {
      SameAngles(x, y, c, s, n - 1);
      var i := n - 1;
      assert CosDiff(c[i], s[i], c[i], s[i]) == 1.0;
      assert SinDiff(c[i], s[i], c[i], s[i]) == 0.0;
      assert Dot(x, y, 0, 2 * n) == Dot(x, y, 0, 2 * i) + x[2 * i] * y[2 * i] + x[2 * i + 1] * y[2 * i + 1];
    }
  }

  /** At equal positions the embedding keeps inner products. */
  lemma InnerProductKept(x: seq<real>, y: seq<real>, c: seq<real>, s: seq<real>)
    requires |c| == |s| && |x| == |y| == 2 * |c| && OnCircle(c, s)
    ensures Dot(Rotate(x, c, s), Rotate(y, c, s), 0, |x|) == Dot(x, y, 0, |x|)
  {
    DotIsPairSum(x, y, c, s, c, s);
    SameAngles(x, y, c, s, |c|);
  }

  // ---------- distances ----------

  /** Rows of cosines and sines by position, one entry per frequency, that obey angle addition. */
  datatype Angles = Angles(cos: nat -> seq<real>, sin: nat -> seq<real>, n: nat)

  predicate AddsAt(g: Angles, p: nat, t: nat, i: nat)
    requires |g.cos(p)| == |g.sin(p)| == |g.cos(t)| == |g.sin(t)| == |g.cos(p + t)| == |g.sin(p + t)| == g.n && i < g.n
  {
    && g.cos(p + t)[i] == g.cos(p)[i] * g.cos(t)[i] - g.sin(p)[i] * g.sin(t)[i]
    && g.sin(p + t)[i] == g.sin(p)[i] * g.cos(t)[i] + g.cos(p)[i] * g.sin(t)[i]
  }

  ghost predicate Sized(g: Angles) {
    forall p :: |g.cos(p)| == |g.sin(p)| == g.n
  }

  ghost predicate Lawful(g: Angles) {
    && Sized(g)
    && (forall p :: OnCircle(g.cos(p), g.sin(p)))
    && (forall p, t, i | 0 <= i < g.n :: AddsAt(g, p, t, i))
  }

  /** Adding one angle to both leaves the difference alone. */
  lemma ShiftedDiff(c: real, s: real, c': real, s': real, u: real, v: real, d: real, r: real, d': real, r': real)
    requires u * u + v * v == 1.0
    requires d == c * u - s * v && r == s * u + c * v && d' == c' * u - s' * v && r' == s' * u + c' * v
    ensures CosDiff(d, r, d', r') == CosDiff(c, s, c', s') && SinDiff(d, r, d', r') == SinDiff(c, s, c', s')
  {
    assert d * d' + r * r' == (c * c' + s * s') * (u * u + v * v);
    assert r * d' - d * r' == (s * c' - c * s') * (u * u + v * v);
  }

  lemma LawfulAt(g: Angles, p: nat, t: nat, i: nat)
    requires Lawful(g) && i < g.n
    ensures |g.cos(p)| == |g.sin(p)| == |g.cos(t)| == |g.sin(t)| == |g.cos(p + t)| == |g.sin(p + t)| == g.n
    ensures AddsAt(g, p, t, i) && g.cos(t)[i] * g.cos(t)[i] + g.sin(t)[i] * g.sin(t)[i] == 1.0
  {
    assert AddsAt(g, p, t, i) && OnCircle(g.cos(t), g.sin(t));
  }

  lemma ShiftedEntry(g: Angles, p: nat, q: nat, t: nat, i: nat)
    requires Lawful(g) && i < g.n
    ensures var c, s, c', s' := g.cos(p)[i], g.sin(p)[i], g.cos(q)[i], g.sin(q)[i];
            var d, r, d', r' := g.cos(p + t)[i], g.sin(p + t)[i], g.cos(q + t)[i], g.sin(q + t)[i];
            CosDiff(d, r, d', r') == CosDiff(c, s, c', s') && SinDiff(d, r, d', r') == SinDiff(c, s, c', s')
  {
    hide CosDiff, SinDiff, Lawful, OnCircle;
    LawfulAt(g, p, t, i);
    LawfulAt(g, q, t, i);
    ShiftedDiff(g.cos(p)[i], g.sin(p)[i], g.cos(q)[i], g.sin(q)[i], g.cos(t)[i], g.sin(t)[i],
                g.cos(p + t)[i], g.sin(p + t)[i], g.cos(q + t)[i], g.sin(q + t)[i]);
  }

  lemma {:induction false} ShiftedPairSum(x: seq<real>, y: seq<real>, g: Angles, p: nat, q: nat, t: nat, n: nat)
    requires Lawful(g) && n <= g.n && |x| == |y| == 2 * g.n
    ensures PairSum(x, y, g.cos(p + t), g.sin(p + t), g.cos(q + t), g.sin(q + t), n) ==
            PairSum(x, y, g.cos(p), g.sin(p), g.cos(q), g.sin(q), n)
  {
    hide CosDiff, SinDiff, Inner, Cross;
    if n > 0 {
      ShiftedPairSum(x, y, g, p, q, t, n - 1);
      ShiftedEntry(g, p, q, t, n - 1);
    }
  }

  /** The score of a query at position `p` against a key at position `q`. */
  function Score(x: seq<real>, y: seq<real>, g: Angles, p: nat, q: nat): real
    requires |g.cos(p)| == |g.sin(p)| == |g.cos(q)| == |g.sin(q)| && |x| == |y| == 2 * |g.cos(p)|
  {
    Dot(Rotate(x, g.cos(p), g.sin(p)), Rotate(y, g.cos(q), g.sin(q)), 0, |x|)
  }

  /** Scores depend only on the distance between the positions. */
  lemma OnlyDistanceCounts(x: seq<real>, y: seq<real>, g: Angles, p: nat, q: nat, p': nat, q': nat)
    requires Lawful(g) && |x| == |y| == 2 * g.n && p - q == p' - q'
    ensures Score(x, y, g, p, q) == Score(x, y, g, p', q')
  {
    DotIsPairSum(x, y, g.cos(p), g.sin(p), g.cos(q), g.sin(q));
    DotIsPairSum(x, y, g.cos(p'), g.sin(p'), g.cos(q'), g.sin(q'));
    if p <= p' {
      ShiftedPairSum(x, y, g, p, q, p' - p, g.n);
    } else {
      ShiftedPairSum(x, y, g, p', q', p - p', g.n);
    }
  }

  // ---------- the tables of `set_cos_sin_cache` ----------

  predicate AngleAddition(cosine: real -> real, sine: real -> real, a: real, b: real) {
    && cosine(a + b) == cosine(a) * cosine(b) - sine(a) * sine(b)
    && sine(a + b) == sine(a) * cosine(b) + cosine(a) * sine(b)
  }

  predicate UnitAt(cosine: real -> real, sine: real -> real, a: real) {
    cosine(a) * cosine(a) + sine(a) * sine(a) == 1.0
  }

  ghost predicate Trigonometric(cosine: real -> real, sine: real -> real) {
    (forall a, b :: AngleAddition(cosine, sine, a, b)) && forall a :: UnitAt(cosine, sine, a)
  }

  function Phase(at: nat, freq: real): real {
    at as real * freq
  }

  lemma PhasesAdd(p: nat, t: nat, freq: real)
    ensures Phase(p + t, freq) == Phase(p, freq) + Phase(t, freq)
  {
    assert (p + t) as real == p as real + t as real;
  }

  function Row(f: real -> real, invFreq: seq<real>, at: nat): (row: seq<real>)
    ensures |row| == |invFreq| && forall j | 0 <= j < |row| :: row[j] == f(Phase(at, invFreq[j]))
  {
    seq(|invFreq|, j requires 0 <= j < |invFreq| => f(Phase(at, invFreq[j])))
  }

  function TableAngles(cosine: real -> real, sine: real -> real, invFreq: seq<real>): Angles {
    Angles((at: nat) => Row(cosine, invFreq, at), (at: nat) => Row(sine, invFreq, at), |invFreq|)
  }

  /** Whatever the frequencies, tables of position times frequency obey angle addition. */
  lemma TablesAreLawful(cosine: real -> real, sine: real -> real, invFreq: seq<real>)
    requires Trigonometric(cosine, sine)
    ensures Lawful(TableAngles(cosine, sine, invFreq))
  {
    hide Phase;
    var g := TableAngles(cosine, sine, invFreq);
    forall p: nat, t: nat, i: nat | i < g.n ensures AddsAt(g, p, t, i) {
      PhasesAdd(p, t, invFreq[i]);
      assert AngleAddition(cosine, sine, Phase(p, invFreq[i]), Phase(t, invFreq[i]));
    }
    forall p: nat ensures OnCircle(g.cos(p), g.sin(p)) {
      forall i | 0 <= i < g.n ensures g.cos(p)[i] * g.cos(p)[i] + g.sin(p)[i] * g.sin(p)[i] == 1.0 {
        assert UnitAt(cosine, sine, Phase(p, invFreq[i]));
      }
    }
  }

  // ---------- from the cache to the scores ----------

  /** What `set_cos_sin_cache` leaves behind. */
  ghost predicate Cached(emb: RotaryEmbedding, cosine: real -> real, sine: real -> real)
    requires emb.Valid()
    reads emb, emb.cosCached, emb.sinCached
  {
    forall at, j | 0 <= at < emb.maxSeqLenCached && 0 <= j < emb.dim / 2 ::
      && emb.CosRow(at)[j] == cosine(at as real * emb.invFreq[j])
      && emb.SinRow(at)[j] == sine(at as real * emb.invFreq[j])
  }

  /** What `apply_single` at a cached position leaves of a vector of the embedding's own size. */
  ghost predicate Embedded(emb: RotaryEmbedding, at: nat, before: seq<real>, after: seq<real>, start: nat)
    requires emb.Valid()
    reads emb, emb.cosCached, emb.sinCached
  {
    && at < emb.maxSeqLenCached && emb.HasRow(at, emb.dim / 2) && start + emb.dim <= |before| == |after|
    && Turned(emb.cosCached[..], emb.sinCached[..], RowStart(emb.dim, at), before, after, start, emb.dim)
  }

  lemma RowsAreCached(emb: RotaryEmbedding, cosine: real -> real, sine: real -> real, at: nat)
    requires emb.Valid() && Cached(emb, cosine, sine) && at < emb.maxSeqLenCached
    ensures emb.CosRow(at) == Row(cosine, emb.invFreq, at) && emb.SinRow(at) == Row(sine, emb.invFreq, at)
  {
    forall j | 0 <= j < emb.dim / 2
      ensures emb.CosRow(at)[j] == Row(cosine, emb.invFreq, at)[j]
      ensures emb.SinRow(at)[j] == Row(sine, emb.invFreq, at)[j]
    {
      assert Phase(at, emb.invFreq[j]) == at as real * emb.invFreq[j];
    }
  }

  lemma EmbeddedIsRotated(emb: RotaryEmbedding, cosine: real -> real, sine: real -> real, at: nat, before: seq<real>,
                          after: seq<real>, start: nat)
    requires emb.Valid() && Cached(emb, cosine, sine) && Embedded(emb, at, before, after, start)
    ensures Window(after, start, emb.dim) ==
            Rotate(Window(before, start, emb.dim), Row(cosine, emb.invFreq, at), Row(sine, emb.invFreq, at))
  {
    hide Rotate, Row;
    RowsAreCached(emb, cosine, sine, at);
    assert emb.CosRow(at) == Window(emb.cosCached[..], RowStart(emb.dim, at), emb.dim / 2);
    assert emb.SinRow(at) == Window(emb.sinCached[..], RowStart(emb.dim, at), emb.dim / 2);
  }

  /** The inner product of a query embedded at `p` and a key embedded at `q` is their score at those positions. */
  lemma EmbeddedScore(emb: RotaryEmbedding, cosine: real -> real, sine: real -> real, x: seq<real>, x': seq<real>,
                      y: seq<real>, y': seq<real>, p: nat, q: nat)
    requires emb.Valid() && Cached(emb, cosine, sine) && |x| == |y| == emb.dim
    requires Embedded(emb, p, x, x', 0) && Embedded(emb, q, y, y', 0)
    ensures Dot(x', y', 0, emb.dim) == Score(x, y, TableAngles(cosine, sine, emb.invFreq), p, q)
  {
    hide Rotate, Row, Turned, Cached, Dot;
    EmbeddedIsRotated(emb, cosine, sine, p, x, x', 0);
    EmbeddedIsRotated(emb, cosine, sine, q, y, y', 0);
    WholeWindow(x);
    WholeWindow(x');
    WholeWindow(y);
    WholeWindow(y');
  }

  lemma WholeWindow(v: seq<real>)
    ensures Window(v, 0, |v|) == v
  {
  }

  /**
   End to end: with the tables `set_cos_sin_cache` fills from a cosine and a sine, the inner product of two vectors
   turned by `apply_single` depends on the distance between their positions and on nothing else about them.
   */
  lemma EmbeddedScoresSeeOnlyDistance(emb: RotaryEmbedding, cosine: real -> real, sine: real -> real,
                                      x: seq<real>, y: seq<real>, xp: seq<real>, yq: seq<real>, p: nat, q: nat,
                                      xp': seq<real>, yq': seq<real>, p': nat, q': nat)
    requires emb.Valid() && Cached(emb, cosine, sine) && Trigonometric(cosine, sine)
    requires |x| == |y| == emb.dim && p - q == p' - q'
    requires Embedded(emb, p, x, xp, 0) && Embedded(emb, q, y, yq, 0)
    requires Embedded(emb, p', x, xp', 0) && Embedded(emb, q', y, yq', 0)
    ensures Dot(xp, yq, 0, emb.dim) == Dot(xp', yq', 0, emb.dim)
  {
    hide Cached, Trigonometric, Rotate, Row, Score, Turned;
    EmbeddedScore(emb, cosine, sine, x, xp, y, yq, p, q);
    EmbeddedScore(emb, cosine, sine, x, xp', y, yq', p', q');
    TablesAreLawful(cosine, sine, emb.invFreq);
    OnlyDistanceCounts(x, y, TableAngles(cosine, sine, emb.invFreq), p, q, p', q');
  }

  lemma RowFits(emb: RotaryEmbedding, at: nat)
    requires emb.Valid() && at < emb.maxSeqLenCached
    ensures emb.HasRow(at, emb.dim / 2)
  {
    FlatFits(at, 0, emb.maxSeqLenCached, emb.dim / 2);
    HalfOfRow(at, emb.dim);
  }

  lemma NothingToTurn(cos: seq<real>, sin: seq<real>, row: nat, before: seq<real>, after: seq<real>)
    requires row <= |cos| == |sin| && |before| == |after|
    ensures Turned(cos, sin, row, before, after, 0, 0)
  {
  }

  /** Fill the tables, then embed a query and a key: what the attention score then is. */
  method EmbedQueryAndKey(emb: RotaryEmbedding, scratch: Scratch, query: array<real>, key: array<real>, p: nat, q: nat,
                          seqLen: nat, cosine: real -> real, sine: real -> real) returns (ok: bool)
    requires emb.Valid() && query.Length == key.Length == emb.dim && p < seqLen && q < seqLen && query != key
    requires scratch.v2 != query && scratch.v2 != key
    modifies emb, scratch, scratch.v2, query, key
    ensures ok && emb.Valid()
    ensures Dot(query[..], key[..], 0, emb.dim) ==
            Score(old(query[..]), old(key[..]), TableAngles(cosine, sine, emb.invFreq), p, q)
  {
    hide Turned, Score, Dot, TableAngles, RotaryEmbedding.CosRow, RotaryEmbedding.SinRow, RowStart;
    emb.SetCosSinCache(seqLen, cosine, sine);
    RowFits(emb, p);
    RowFits(emb, q);
    ghost var x, y := query[..], key[..];
    ok := ApplySingle(emb, scratch, query, 0, emb.dim, p);
    ghost var x' := query[..];
    ok := ApplySingle(emb, scratch, key, 0, emb.dim, q);
    assert query[..] == x';
    if emb.dim == 0 {
      NothingToTurn(emb.cosCached[..], emb.sinCached[..], RowStart(emb.dim, p), x, x');
      NothingToTurn(emb.cosCached[..], emb.sinCached[..], RowStart(emb.dim, q), y, key[..]);
    }
    EmbeddedScore(emb, cosine, sine, x, x', y, key[..], p, q);
  }
}
