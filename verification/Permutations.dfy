/** Index tensors: gathering by an index vector, what `argsort` promises, and run-length expansion of counts. */
module Permutations {

  function Iota(n: nat): (r: seq<nat>)
    ensures |r| == n
    ensures forall i | 0 <= i < n :: r[i] == i
  {
    seq(n, i => i)
  }

  /** `p` lists each index below `n` exactly once. */
  predicate IsPermutation(p: seq<nat>, n: nat) {
    |p| == n && multiset(p) == multiset(Iota(n))
  }

  lemma PermutationLength(p: seq<nat>, n: nat)
    requires IsPermutation(p, n)
    ensures |p| == n
  {
  }

  predicate InRange(idxs: seq<nat>, n: nat) {
    forall i | 0 <= i < |idxs| :: idxs[i] < n
  }

  /** `s[idxs]` on the first dimension. */
  function Gather<T>(s: seq<T>, idxs: seq<nat>): (r: seq<T>)
    requires InRange(idxs, |s|)
    ensures |r| == |idxs|
    ensures forall i | 0 <= i < |idxs| :: r[i] == s[idxs[i]]
  {
    seq(|idxs|, i requires 0 <= i < |idxs| => s[idxs[i]])
  }

  predicate Sorted(s: seq<nat>) {
    forall i, j | 0 <= i < j < |s| :: s[i] <= s[j]
  }

  /** All that `argsort` promises: a permutation that sorts the keys. Ties may come in any order. */
  predicate IsArgsort(keys: seq<nat>, idxs: seq<nat>) {
    && IsPermutation(idxs, |keys|)
    && InRange(idxs, |keys|)
    && Sorted(Gather(keys, idxs))
  }

  lemma IotaStep(n: nat)
    ensures Iota(n + 1) == Iota(n) + [n]
    ensures multiset(Iota(n + 1)) == multiset(Iota(n)) + multiset{n}
  {
    assert Iota(n + 1) == Iota(n) + [n];
  }

  lemma {:induction false} IotaMultiplicity(n: nat)
    ensures forall q: nat :: multiset(Iota(n))[q] == if q < n then 1 else 0
  {
    if n > 0 {
      IotaMultiplicity(n - 1);
      IotaStep(n - 1);
    }
  }

  lemma MultisetCons<T>(s: seq<T>)
    requires s != []
    ensures multiset(s) == multiset{s[0]} + multiset(s[1..])
  {
    assert s == [s[0]] + s[1..];
  }

  lemma TwoOccurrences<T>(s: seq<T>, i: nat, j: nat)
    requires i < j < |s| && s[i] == s[j]
    ensures multiset(s)[s[i]] >= 2
  {
    assert s == s[..j] + s[j..];
    assert s[i] in s[..j] && s[j] in s[j..];
  }

  /** A permutation is in range, injective and onto. */
  lemma PermutationFacts(p: seq<nat>, n: nat)
    requires IsPermutation(p, n)
    ensures InRange(p, n)
    ensures forall i, j | 0 <= i < j < n :: p[i] != p[j]
    ensures forall q: nat | q < n :: q in p
  {
    IotaMultiplicity(n);
    forall i | 0 <= i < n ensures p[i] < n {
      assert p[i] in multiset(p);
    }
    forall i, j | 0 <= i < j < n ensures p[i] != p[j] {
      if p[i] == p[j] { TwoOccurrences(p, i, j); }
    }
    forall q: nat | q < n ensures q in p {
      assert q in multiset(p);
    }
  }

  function Without<T>(s: seq<T>, j: nat): (r: seq<T>)
    requires j < |s|
    ensures |r| == |s| - 1
    ensures forall i | 0 <= i < |r| :: r[i] == s[if i < j then i else i + 1]
  {
    s[..j] + s[j + 1..]
  }

  lemma WithoutMultiset<T>(s: seq<T>, j: nat)
    requires j < |s|
    ensures multiset(Without(s, j)) == multiset(s) - multiset{s[j]}
    ensures multiset(s) == multiset(Without(s, j)) + multiset{s[j]}
  {
    assert s == s[..j] + [s[j]] + s[j + 1..];
  }

  lemma GatherWithout<T>(s: seq<T>, q: seq<nat>, j: nat)
    requires InRange(q, |s|) && j < |q|
    ensures InRange(Without(q, j), |s|)
    ensures Gather(s, Without(q, j)) == Without(Gather(s, q), j)
  {
  }

  lemma {:induction false} GatherMultiset<T>(s: seq<T>, p: seq<nat>, q: seq<nat>)
    requires multiset(p) == multiset(q)
    requires InRange(p, |s|) && InRange(q, |s|)
    ensures multiset(Gather(s, p)) == multiset(Gather(s, q))
    decreases |p|
  {
    assert |p| == |multiset(p)| == |multiset(q)| == |q|;
    if p != [] {
      assert p[0] in multiset(q);
      var j :| 0 <= j < |q| && q[j] == p[0];
      WithoutMultiset(p, 0);
      WithoutMultiset(q, j);
      GatherWithout(s, p, 0);
      GatherWithout(s, q, j);
      GatherMultiset(s, Without(p, 0), Without(q, j));
      WithoutMultiset(Gather(s, p), 0);
      WithoutMultiset(Gather(s, q), j);
    }
  }

  lemma GatherPermutation<T>(s: seq<T>, p: seq<nat>)
    requires IsPermutation(p, |s|) && InRange(p, |s|)
    ensures multiset(Gather(s, p)) == multiset(s)
  {
    GatherMultiset(s, p, Iota(|s|));
    assert Gather(s, Iota(|s|)) == s;
  }

  lemma {:induction false} SortedUnique(a: seq<nat>, b: seq<nat>)
    requires Sorted(a) && Sorted(b) && multiset(a) == multiset(b)
    ensures a == b
  {
    assert |a| == |multiset(a)| == |multiset(b)| == |b|;
    if a != [] {
      MultisetCons(a);
      MultisetCons(b);
      assert a[0] in multiset(b) && b[0] in multiset(a);
      assert a[0] == b[0];
      assert multiset(a[1..]) == multiset(a) - multiset{a[0]};
      assert multiset(b[1..]) == multiset(b) - multiset{b[0]};
      assert a == [a[0]] + a[1..] && b == [b[0]] + b[1..];
      SortedUnique(a[1..], b[1..]);
    }
  }

  function Inserted<T>(s: seq<T>, j: nat, v: T): (r: seq<T>)
    requires j <= |s|
    ensures |r| == |s| + 1
    ensures forall i | 0 <= i < |r| :: r[i] == if i < j then s[i] else if i == j then v else s[i - 1]
  {
    s[..j] + [v] + s[j..]
  }

  lemma InsertedMultiset<T>(s: seq<T>, j: nat, v: T)
    requires j <= |s|
    ensures multiset(Inserted(s, j, v)) == multiset(s) + multiset{v}
  {
    assert s == s[..j] + s[j..];
  }

  lemma InsertedSorted(s: seq<nat>, j: nat, v: nat)
    requires Sorted(s) && j <= |s|
    requires forall i | j <= i < |s| :: v <= s[i]
    requires j > 0 ==> s[j - 1] <= v
    ensures Sorted(Inserted(s, j, v))
  {
  }

  lemma GatherInserted(keys: seq<nat>, idxs: seq<nat>, n: nat, j: nat)
    requires n < |keys| && j <= |idxs| && InRange(idxs, |keys|)
    ensures InRange(Inserted(idxs, j, n), |keys|)
    ensures Gather(keys, Inserted(idxs, j, n)) == Inserted(Gather(keys, idxs), j, keys[n])
  {
  }

  lemma InsertPermutation(idxs: seq<nat>, n: nat, j: nat)
    requires IsPermutation(idxs, n) && j <= n
    ensures IsPermutation(Inserted(idxs, j, n), n + 1)
  {
    IotaStep(n);
    InsertedMultiset(idxs, j, n);
  }

  /** Inserting index `n` where its key belongs extends an argsort of the first `n` keys. */
  lemma InsertKeepsSorted(keys: seq<nat>, idxs: seq<nat>, n: nat, j: nat)
    requires n < |keys| && j <= n && IsPermutation(idxs, n) && InRange(idxs, |keys|)
    requires Sorted(Gather(keys, idxs))
    requires forall i | j <= i < n :: keys[n] <= Gather(keys, idxs)[i]
    requires j > 0 ==> Gather(keys, idxs)[j - 1] <= keys[n]
    ensures IsPermutation(Inserted(idxs, j, n), n + 1)
    ensures InRange(Inserted(idxs, j, n), |keys|)
    ensures Sorted(Gather(keys, Inserted(idxs, j, n)))
  {
    hide IsPermutation;
    InsertPermutation(idxs, n, j);
    GatherInserted(keys, idxs, n, j);
    InsertedSorted(Gather(keys, idxs), j, keys[n]);
  }

  method InsertionPoint(sorted: seq<nat>, key: nat) returns (j: nat)
    ensures j <= |sorted|
    ensures forall i | j <= i < |sorted| :: key <= sorted[i]
    ensures j > 0 ==> sorted[j - 1] <= key
  {
    j := |sorted|;
    while j > 0 && sorted[j - 1] > key
      invariant j <= |sorted|
      invariant forall i | j <= i < |sorted| :: key <= sorted[i]
    {
      j := j - 1;
    }
  }

  /** Any argsort will do; callers see only `IsArgsort`. */
  method Argsort(keys: seq<nat>) returns (idxs: seq<nat>)
    ensures IsArgsort(keys, idxs)
  {
    idxs := [];
    for n := 0 to |keys|
      invariant IsPermutation(idxs, n) && InRange(idxs, |keys|)
      invariant Sorted(Gather(keys, idxs))
    {
      hide IsPermutation, Sorted;
      assert |idxs| == n by { PermutationLength(idxs, n); }
      var j := InsertionPoint(Gather(keys, idxs), keys[n]);
      InsertKeepsSorted(keys, idxs, n, j);
      idxs := Inserted(idxs, j, n);
    }
  }

  // ---------- run-length expansion ----------

  function Sum(s: seq<nat>): nat {
    if s == [] then 0 else s[0] + Sum(s[1..])
  }

  function Repeat<T>(v: T, n: nat): (r: seq<T>)
    ensures |r| == n
    ensures forall i | 0 <= i < n :: r[i] == v
  {
    seq(n, _ => v)
  }

  /** `counts[0]` copies of `start`, then `counts[1]` copies of `start + 1`, and so on. */
  function Expand(counts: seq<nat>, start: nat): (r: seq<nat>)
    ensures |r| == Sum(counts)
    ensures forall i | 0 <= i < |r| :: start <= r[i] < start + |counts|
  {
    if counts == [] then [] else Repeat<nat>(start, counts[0]) + Expand(counts[1..], start + 1)
  }

  lemma {:induction false} SumAppend(a: seq<nat>, b: seq<nat>)
    ensures Sum(a + b) == Sum(a) + Sum(b)
  {
    if a == [] {
      assert a + b == b;
    } else {
      assert (a + b)[1..] == a[1..] + b;
      SumAppend(a[1..], b);
    }
  }

  lemma {:induction false} SumPointwise(a: seq<nat>, b: seq<nat>)
    requires |a| == |b| && forall i | 0 <= i < |a| :: a[i] <= b[i]
    ensures Sum(a) <= Sum(b)
    ensures a != b ==> Sum(a) < Sum(b)
  {
    if a != [] {
      SumPointwise(a[1..], b[1..]);
      assert a == [a[0]] + a[1..] && b == [b[0]] + b[1..];
    }
  }

  lemma {:induction false} ExpandAppend(a: seq<nat>, b: seq<nat>, start: nat)
    ensures Expand(a + b, start) == Expand(a, start) + Expand(b, start + |a|)
  {
    if a == [] {
      assert a + b == b;
    } else {
      assert (a + b)[1..] == a[1..] + b;
      ExpandAppend(a[1..], b, start + 1);
    }
  }

  lemma {:induction false} ExpandShift(counts: seq<nat>, start: nat)
    ensures Expand(counts, start) == seq(Sum(counts), i requires 0 <= i < Sum(counts) => start + Expand(counts, 0)[i])
  {
    ExpandShiftBy(counts, 0, start);
  }

  lemma {:induction false} ExpandShiftBy(counts: seq<nat>, start: nat, d: nat)
    ensures forall i | 0 <= i < Sum(counts) :: Expand(counts, start + d)[i] == d + Expand(counts, start)[i]
  {
    if counts != [] {
      ExpandShiftBy(counts[1..], start + 1, d);
    }
  }

  lemma {:induction false} ExpandSorted(counts: seq<nat>, start: nat)
    ensures Sorted(Expand(counts, start))
  {
    if counts != [] {
      ExpandSorted(counts[1..], start + 1);
    }
  }

  lemma {:induction false} RepeatMultiplicity(v: nat, n: nat, e: nat)
    ensures multiset(Repeat<nat>(v, n))[e] == if e == v then n else 0
  {
    if n > 0 {
      RepeatMultiplicity(v, n - 1, e);
      assert Repeat<nat>(v, n) == Repeat<nat>(v, n - 1) + [v];
    }
  }

  lemma {:induction false} ExpandMultiplicity(counts: seq<nat>, start: nat, e: nat)
    ensures multiset(Expand(counts, start))[e] == if start <= e < start + |counts| then counts[e - start] else 0
  {
    if counts != [] {
      RepeatMultiplicity(start, counts[0], e);
      ExpandMultiplicity(counts[1..], start + 1, e);
    }
  }

  /** How often each key below `n` occurs. */
  function Histogram(keys: seq<nat>, n: nat): (r: seq<nat>)
    ensures |r| == n
    ensures forall e | 0 <= e < n :: r[e] == multiset(keys)[e]
  {
    seq(n, e => multiset(keys)[e])
  }

  /** Sorting the keys, by any argsort, yields exactly the runs the histogram predicts. */
  lemma SortedRunsMatchCounts(keys: seq<nat>, idxs: seq<nat>, n: nat)
    requires IsArgsort(keys, idxs) && InRange(keys, n)
    ensures Gather(keys, idxs) == Expand(Histogram(keys, n), 0)
  {
    var runs := Expand(Histogram(keys, n), 0);
    GatherPermutation(keys, idxs);
    ExpandSorted(Histogram(keys, n), 0);
    var wanted: multiset<nat> := multiset(keys);
    var got: multiset<nat> := multiset(runs);
    forall e: nat ensures wanted[e] == got[e] {
      ExpandMultiplicity(Histogram(keys, n), 0, e);
      if e >= n { assert e !in keys; }
    }
    assert wanted == got;
    SortedUnique(Gather(keys, idxs), runs);
  }

  lemma {:induction false} SumBump(s: seq<nat>, i: nat)
    requires i < |s|
    ensures Sum(s[i := s[i] + 1]) == Sum(s) + 1
  {
    if i > 0 {
      SumBump(s[1..], i - 1);
      assert s[i := s[i] + 1][1..] == s[1..][i - 1 := s[i] + 1];
    } else {
      assert s[i := s[i] + 1][1..] == s[1..];
    }
  }

  lemma {:induction false} SumZeros(n: nat)
    ensures Sum(Repeat<nat>(0, n)) == 0
  {
    if n > 0 {
      SumZeros(n - 1);
      assert Repeat<nat>(0, n)[1..] == Repeat<nat>(0, n - 1);
    }
  }

  lemma {:induction false} HistogramSum(keys: seq<nat>, n: nat)
    requires InRange(keys, n)
    ensures Sum(Histogram(keys, n)) == |keys|
  {
    if keys == [] {
      SumZeros(n);
      assert Histogram(keys, n) == Repeat<nat>(0, n);
    } else {
      var h := Histogram(keys[1..], n);
      HistogramSum(keys[1..], n);
      SumBump(h, keys[0]);
      MultisetCons(keys);
      assert Histogram(keys, n) == h[keys[0] := h[keys[0]] + 1];
    }
  }
}
