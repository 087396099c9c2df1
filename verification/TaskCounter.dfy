/**
 The task counter: loop bounds are pushed one after the other, and a flat task id is taken apart into one index per
 loop.
 */
module TaskCounter {
  import opened Arithmetic
  import opened Options

  // ---------- mixed radix, outermost digit first ----------

  function Product(radices: seq<nat>): nat {
    if radices == [] then 1 else radices[0] * Product(radices[1..])
  }

  predicate Digits(digits: seq<nat>, radices: seq<nat>) {
    |digits| == |radices| && forall k | 0 <= k < |digits| :: digits[k] < radices[k]
  }

  function Encode(digits: seq<nat>, radices: seq<nat>): nat
    requires |digits| == |radices|
  {
    if digits == [] then 0 else digits[0] * Product(radices[1..]) + Encode(digits[1..], radices[1..])
  }

  lemma {:induction false} ProductSnoc(radices: seq<nat>, r: nat)
    ensures Product(radices + [r]) == Product(radices) * r
  {
    if radices == [] {
      assert ([r])[1..] == [] && [] + [r] == [r];
    } else {
      ProductSnoc(radices[1..], r);
      assert (radices + [r])[1..] == radices[1..] + [r];
      assert radices[0] * (Product(radices[1..]) * r) == radices[0] * Product(radices[1..]) * r;
    }
  }

  lemma {:induction false} ProductPositive(radices: seq<nat>)
    requires forall k | 0 <= k < |radices| :: radices[k] > 0
    ensures Product(radices) > 0
  {
    if radices != [] {
      ProductPositive(radices[1..]);
    }
  }

  lemma {:induction false} EncodeInRange(digits: seq<nat>, radices: seq<nat>)
    requires Digits(digits, radices)
    ensures Encode(digits, radices) < Product(radices)
  {
    if digits != [] {
      EncodeInRange(digits[1..], radices[1..]);
      assert (digits[0] + 1) * Product(radices[1..]) <= radices[0] * Product(radices[1..]);
    }
  }

  predicate Positive(radices: seq<nat>) {
    forall k | 0 <= k < |radices| :: radices[k] > 0
  }

  function Quotient(x: nat, q: nat): nat
    requires q > 0
  {
    x / q
  }

  /** Digit `k` of an id. */
  function Digit(radices: seq<nat>, id: nat, k: nat): nat
    requires k < |radices| && forall j | k <= j < |radices| :: radices[j] > 0
  {
    ProductPositive(radices[k..]);
    ProductPositive(radices[k + 1..]);
    Quotient(id % Product(radices[k..]), Product(radices[k + 1..]))
  }

  function DigitsOf(radices: seq<nat>, id: nat): (digits: seq<nat>)
    requires Positive(radices)
    ensures |digits| == |radices| && forall k | 0 <= k < |digits| :: digits[k] == Digit(radices, id, k)
  {
    seq(|radices|, k requires 0 <= k < |radices| => Digit(radices, id, k))
  }

  // ---------- arithmetic ----------

  lemma ModMod(x: nat, c: nat, q: nat)
    requires c > 0 && q > 0
    ensures c * q > 0 && (x % (c * q)) % q == x % q
  {
    var m, t := x / (c * q), x % (c * q);
    var u, v := t / q, t % q;
    assert x == m * (c * q) + (u * q + v);
    assert m * (c * q) + u * q == (m * c + u) * q;
    DivModUnique(x, q, m * c + u, v);
  }

  /** The product of the later bounds divides that of more of them. */
  lemma {:induction false} ProductDivides(radices: seq<nat>, k: nat) returns (c: nat)
    requires Positive(radices) && k <= |radices|
    ensures c > 0 && Product(radices) == c * Product(radices[k..])
  {
    if k == 0 {
      c := 1;
      assert radices[0..] == radices;
    } else {
      var c' := ProductDivides(radices[1..], k - 1);
      assert radices[1..][k - 1..] == radices[k..];
      c := radices[0] * c';
      assert radices[0] * (c' * Product(radices[k..])) == radices[0] * c' * Product(radices[k..]);
    }
  }

  // ---------- ids and digit tuples correspond ----------

  lemma FirstDigit(radices: seq<nat>, id: nat)
    requires Positive(radices) && radices != [] && id < Product(radices)
    ensures Product(radices[1..]) > 0 && Digit(radices, id, 0) == id / Product(radices[1..]) < radices[0]
  {
    ProductPositive(radices[1..]);
    assert radices[0..] == radices;
    DivModUnique(id, Product(radices), 0, id);
    QuotientBelow(id, radices[0], Product(radices[1..]));
  }

  /** The later digits do not see the first one. */
  lemma LaterDigit(radices: seq<nat>, id: nat, k: nat)
    requires Positive(radices) && k + 1 < |radices|
    ensures Product(radices[1..]) > 0
    ensures Digit(radices, id, k + 1) == Digit(radices[1..], id % Product(radices[1..]), k)
  {
    ProductPositive(radices[1..]);
    var rest := radices[1..];
    assert rest[k..] == radices[k + 1..] && rest[k + 1..] == radices[k + 2..];
    ProductPositive(rest[k..]);
    var c := ProductDivides(rest, k);
    ModMod(id, c, Product(rest[k..]));
  }

  lemma DigitsSplit(radices: seq<nat>, id: nat)
    requires Positive(radices) && radices != [] && id < Product(radices)
    ensures Product(radices[1..]) > 0
    ensures DigitsOf(radices, id) ==
            [id / Product(radices[1..])] + DigitsOf(radices[1..], id % Product(radices[1..]))
  {
    FirstDigit(radices, id);
    var rest := DigitsOf(radices[1..], id % Product(radices[1..]));
    forall k | 0 <= k < |radices|
      ensures DigitsOf(radices, id)[k] == ([id / Product(radices[1..])] + rest)[k]
    {
      if k > 0 { LaterDigit(radices, id, k - 1); }
    }
  }

  /** Every digit is below its bound, even for ids past the count. */
  lemma DigitsInRange(radices: seq<nat>, id: nat)
    requires Positive(radices)
    ensures Digits(DigitsOf(radices, id), radices)
  {
    forall k | 0 <= k < |radices| ensures Digit(radices, id, k) < radices[k] {
      ProductPositive(radices[k..]);
      ProductPositive(radices[k + 1..]);
      assert radices[k..][1..] == radices[k + 1..];
      QuotientBelow(id % Product(radices[k..]), radices[k], Product(radices[k + 1..]));
    }
  }

  // ---------- the last loop runs fastest ----------

  lemma Regroup(a: nat, b: nat, v: nat, p: nat, r: nat)
    requires b < p && v < r
    ensures (a * p + b) * r + v == a * (p * r) + (b * r + v)
    ensures b * r + v < p * r
  {
    assert (b + 1) * r <= p * r;
  }

  /** Quotient and remainder of a number written in two steps. */
  lemma TwoSteps(x: nat, a: nat, b: nat, v: nat, p: nat, r: nat)
    requires b < p && v < r && x == (a * p + b) * r + v
    ensures p * r > 0 && x / (p * r) == a && x % (p * r) == b * r + v
    ensures x / r == a * p + b && (b * r + v) / r == b
  {
    Regroup(a, b, v, p, r);
    DivModUnique(x, p * r, a, b * r + v);
    DivModUnique(x, r, a * p + b, v);
    DivModUnique(b * r + v, r, b, v);
  }

  lemma Steps(x: nat, p: nat, r: nat) returns (a: nat, b: nat, v: nat)
    requires p > 0 && r > 0
    ensures b < p && v < r && x == (a * p + b) * r + v
    ensures a == x / r / p && b == x / r % p
  {
    DivMod(x, r);
    DivMod(x / r, p);
    a, b, v := x / r / p, x / r % p, x % r;
  }

  lemma DivDiv(x: nat, p: nat, r: nat)
    requires p > 0 && r > 0
    ensures p * r > 0 && x / (p * r) == x / r / p
  {
    var a, b, v := Steps(x, p, r);
    TwoSteps(x, a, b, v, p, r);
  }

  lemma ModDiv(x: nat, q: nat, r: nat)
    requires q > 0 && r > 0
    ensures r * q > 0 && x % (r * q) / q == x / q % r
  {
    var a, b, v := Steps(x, r, q);
    TwoSteps(x, a, b, v, r, q);
  }

  /** A digit counts up once for every run through the loops after it, and starts over at its bound. */
  lemma DigitWrittenOut(radices: seq<nat>, id: nat, k: nat)
    requires Positive(radices) && k < |radices|
    ensures Product(radices[k + 1..]) > 0
    ensures Digit(radices, id, k) == id / Product(radices[k + 1..]) % radices[k]
  {
    ProductPositive(radices[k + 1..]);
    assert radices[k..][1..] == radices[k + 1..];
    ModDiv(id, Product(radices[k + 1..]), radices[k]);
  }

  lemma DigitBeforeLast(radices: seq<nat>, r: nat, id: nat, k: nat)
    requires Positive(radices) && r > 0 && k < |radices|
    ensures Digit(radices + [r], id, k) == Digit(radices, id / r, k)
  {
    var all := radices + [r];
    assert all[k + 1..] == radices[k + 1..] + [r];
    DigitWrittenOut(all, id, k);
    DigitWrittenOut(radices, id / r, k);
    ProductSnoc(radices[k + 1..], r);
    DivDiv(id, Product(radices[k + 1..]), r);
  }

  lemma LastDigit(radices: seq<nat>, r: nat, id: nat)
    requires Positive(radices) && r > 0
    ensures Digit(radices + [r], id, |radices|) == id % r
  {
    var n, all := |radices|, radices + [r];
    DigitWrittenOut(all, id, n);
    assert all[n + 1..] == [] && Product([]) == 1;
    hide Digit, Product;
    assert id / 1 == id;
  }

  /** The innermost index is the id modulo its bound; the others are those of the quotient. */
  lemma LastIndexRunsFastest(radices: seq<nat>, r: nat, id: nat)
    requires Positive(radices) && r > 0
    ensures DigitsOf(radices + [r], id) == DigitsOf(radices, id / r) + [id % r]
  {
    hide Digit, Product;
    forall k | 0 <= k < |radices| ensures Digit(radices + [r], id, k) == Digit(radices, id / r, k) {
      DigitBeforeLast(radices, r, id, k);
    }
    LastDigit(radices, r, id);
  }

  lemma EncodeHead(digits: seq<nat>, radices: seq<nat>)
    requires |digits| == |radices| > 0
    ensures Encode(digits, radices) == digits[0] * Product(radices[1..]) + Encode(digits[1..], radices[1..])
  {
  }

  lemma DivMod(id: nat, q: nat)
    requires q > 0
    ensures id / q * q + id % q == id
  {
  }

  lemma HeadAndRest(id: nat, q: nat, first: nat, rest: nat)
    requires q > 0 && first == id / q && rest == id % q
    ensures first * q + rest == id
  {
    DivMod(id, q);
  }

  /** Putting the digits of an id together again gives the id. */
  lemma {:induction false} Reencode(radices: seq<nat>, id: nat)
    requires Positive(radices) && id < Product(radices)
    ensures Encode(DigitsOf(radices, id), radices) == id
  {
    if radices != [] {
      DigitsSplit(radices, id);
      var q := Product(radices[1..]);
      var digits := DigitsOf(radices, id);
      hide DigitsOf, Digit, Encode;
      Reencode(radices[1..], id % q);
      assert digits[1..] == DigitsOf(radices[1..], id % q);
      EncodeHead(digits, radices);
      HeadAndRest(id, q, digits[0], Encode(digits[1..], radices[1..]));
    }
  }

  /** And every tuple of digits is the one of the id it encodes. */
  lemma {:induction false} DigitsOfEncode(digits: seq<nat>, radices: seq<nat>)
    requires Digits(digits, radices)
    ensures Positive(radices) && DigitsOf(radices, Encode(digits, radices)) == digits
  {
    assert Positive(radices) by {
      assert forall k | 0 <= k < |radices| :: digits[k] < radices[k];
    }
    if digits != [] {
      EncodeInRange(digits, radices);
      EncodeInRange(digits[1..], radices[1..]);
      DigitsOfEncode(digits[1..], radices[1..]);
      DigitsSplit(radices, Encode(digits, radices));
      DivModUnique(Encode(digits, radices), Product(radices[1..]), digits[0], Encode(digits[1..], radices[1..]));
    }
  }

  /** Each tuple of in-range digits belongs to exactly one id below the count. */
  lemma ExactlyOneId(digits: seq<nat>, radices: seq<nat>, id: nat)
    requires Digits(digits, radices) && id < Product(radices)
    ensures Positive(radices) && (DigitsOf(radices, id) == digits <==> id == Encode(digits, radices))
    ensures Encode(digits, radices) < Product(radices)
  {
    DigitsOfEncode(digits, radices);
    EncodeInRange(digits, radices);
    Reencode(radices, id);
  }

  // ---------- the counter ----------

  class Counter {
    var fold: seq<nat>
    var card: seq<nat>

    /** Entry `k` of `card` is the number of ids under one value of the loops before `k`. */
    ghost predicate Valid()
      reads this
    {
      |card| == |fold| + 1 && forall k | 0 <= k <= |fold| :: card[k] == Product(fold[k..])
    }

    constructor (radices: seq<nat>)
      ensures Valid() && fold == radices
    {
      fold, card := [], [1];
      new;
      PushAll(radices);
    }

    method PushBack(i: nat)
      requires Valid()
      modifies this
      ensures Valid() && fold == old(fold) + [i]
    {
      var before := fold;
      fold := fold + [i];
      for k := 0 to |card|
        invariant fold == before + [i] && |card| == |before| + 1
        invariant forall j | 0 <= j < k :: card[j] == Product(before[j..] + [i])
        invariant forall j | k <= j < |card| :: card[j] == Product(before[j..])
      {
        ProductSnoc(before[k..], i);
        card := card[k := card[k] * i];
      }
      card := card + [1];
      assert forall j | 0 <= j <= |before| :: fold[j..] == before[j..] + [i];
    }

    method PushAll(radices: seq<nat>)
      requires Valid()
      modifies this
      ensures Valid() && fold == old(fold) + radices
    {
      for k := 0 to |radices|
        invariant Valid() && fold == old(fold) + radices[..k]
      {
        PushBack(radices[k]);
      }
    }

    function Count(): (n: nat)
      requires Valid()
      reads this
      ensures n == Product(fold)
    {
      assert fold[0..] == fold;
      card[0]
    }

    /** Fails where the bounds-checked accesses throw; the divisions need positive bounds. */
    function At(id: nat, which: nat): (digit: Option<nat>)
      requires Valid() && forall k | which <= k < |fold| :: fold[k] > 0
      reads this
      ensures digit == if which < |fold| then Some(Digit(fold, id, which)) else None
    {
      if which + 1 < |card| then
        ProductPositive(fold[which..]);
        ProductPositive(fold[which + 1..]);
        Some(id % card[which] / card[which + 1])
      else None
    }
  }
}
