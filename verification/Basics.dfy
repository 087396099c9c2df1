/** What several of the models share. */
module Options {
  datatype Option<+T> = None | Some(value: T)
}

/** Division facts that stay out of the larger proofs. */
module Arithmetic {

  lemma NoMultipleBetween(d: int, q: int)
    requires q > 0 && -q < d * q < q
    ensures d == 0
  {
  }

  /** Quotient and remainder are determined by what they stand for. */
  lemma DivModUnique(x: nat, q: nat, a: nat, b: nat)
    requires q > 0 && b < q && x == a * q + b
    ensures x / q == a && x % q == b
  {
    var a', b' := x / q, x % q;
    assert x == a' * q + b';
    assert (a - a') * q == a * q - a' * q;
    NoMultipleBetween(a - a', q);
  }

  lemma MulGrows(c: nat, d: nat, q: nat)
    ensures c <= d ==> c * q <= d * q
  {
  }

  lemma QuotientBelow(x: nat, c: nat, q: nat)
    requires q > 0 && x < c * q
    ensures x / q < c
  {
    MulGrows(c, x / q, q);
  }
}

module PrefixSums {

  /** The sum of the first `n` sizes. */
  function Offset(sizes: seq<nat>, n: nat): nat
    requires n <= |sizes|
  {
    if n == 0 then 0 else Offset(sizes, n - 1) + sizes[n - 1]
  }

  lemma {:induction false} OffsetOfPrefix(sizes: seq<nat>, more: seq<nat>, n: nat)
    requires n <= |sizes|
    ensures Offset(sizes + more, n) == Offset(sizes, n)
  {
    if n > 0 {
      OffsetOfPrefix(sizes, more, n - 1);
    }
  }

  lemma {:induction false} OffsetGrows(sizes: seq<nat>, i: nat, k: nat)
    requires i < k <= |sizes|
    ensures Offset(sizes, i) + sizes[i] <= Offset(sizes, k)
    decreases k
  {
    if i + 1 < k {
      OffsetGrows(sizes, i, k - 1);
    }
  }
}

/** Sizes of sets of small numbers. */
module FiniteSets {

  lemma {:induction false} SmallSet(s: set<nat>, n: nat)
    requires forall t | t in s :: t < n
    ensures |s| <= n
    decreases n
  {
    if n == 0 {
      assert s == {};
    } else {
      SmallSet(s - {n - 1}, n - 1);
      assert s <= (s - {n - 1}) + {n - 1};
      assert |s| <= |s - {n - 1}| + 1;
    }
  }

  lemma {:induction false} LargeSet(s: set<nat>, n: nat)
    requires forall t: nat | t < n :: t in s
    ensures |s| >= n
    decreases n
  {
    if n > 0 {
      LargeSet(s - {n - 1}, n - 1);
      assert |s - {n - 1}| == |s| - 1;
    }
  }

  lemma {:induction false} FullSet(s: set<nat>, n: nat)
    requires (forall t | t in s :: t < n) && |s| == n
    ensures forall t: nat | t < n :: t in s
    decreases n
  {
    if n > 0 {
      if n - 1 in s {
        FullSet(s - {n - 1}, n - 1);
        forall t: nat | t < n ensures t in s {
          assert t < n - 1 ==> t in s - {n - 1};
        }
      } else {
        SmallSet(s, n - 1);
        assert false;
      }
    }
  }
}

/** Finite sums of reals, written out term by term. */
module Sums {

  function SumOf(n: nat, term: nat -> real): real {
    if n == 0 then 0.0 else SumOf(n - 1, term) + term(n - 1)
  }

  lemma SumOfNone(f: nat -> real)
    ensures SumOf(0, f) == 0.0
  {
  }

  lemma {:induction false} SumSame(n: nat, f: nat -> real, g: nat -> real)
    requires forall i: nat | i < n :: f(i) == g(i)
    ensures SumOf(n, f) == SumOf(n, g)
  {
    if n > 0 {
      SumSame(n - 1, f, g);
    }
  }

  /** The first term can be taken out as well as the last. */
  lemma {:induction false} SumFront(n: nat, f: nat -> real, g: nat -> real)
    requires n > 0 && forall i: nat | i + 1 < n :: g(i) == f(i + 1)
    ensures SumOf(n, f) == f(0) + SumOf(n - 1, g)
  {
    if n == 1 {
      assert SumOf(0, f) == SumOf(0, g) == 0.0;
    } else {
      SumFront(n - 1, f, g);
      assert g(n - 2) == f(n - 2 + 1);
    }
  }
}
