/**
 Sorted dispatch of tokens to experts: count the tokens per expert, argsort the flattened expert ids,
 hand each expert its slice of the sorted rows, scatter the results back and take the weighted sum per token.
 An expert is any function of a row; rows are vectors of reals.
 */
module MoeDispatch {
  import opened Arithmetic
  import opened Options
  import opened Permutations
  import opened Sums

  type Row = seq<real>
  type Expert = (nat, Row) -> Row

  // ---------- shapes ----------

  /** `topk_ids`: one row of `k` expert ids, all below `n`, for each token. */
  predicate ValidIds(ids: seq<seq<nat>>, k: nat, n: nat) {
    forall t | 0 <= t < |ids| :: |ids[t]| == k && InRange(ids[t], n)
  }

  predicate ValidWeights(weights: seq<seq<real>>, tokens: nat, k: nat) {
    |weights| == tokens && forall t | 0 <= t < tokens :: |weights[t]| == k
  }

  predicate Distinct(row: seq<nat>) {
    forall i, j | 0 <= i < j < |row| :: row[i] != row[j]
  }

  predicate AllDistinct(ids: seq<seq<nat>>) {
    forall t | 0 <= t < |ids| :: Distinct(ids[t])
  }

  /** `view(-1)` of a two-dimensional tensor. */
  function Flat(ids: seq<seq<nat>>): seq<nat> {
    if ids == [] then [] else ids[0] + Flat(ids[1..])
  }

  lemma {:induction false} FlatShape(ids: seq<seq<nat>>, k: nat, n: nat)
    requires ValidIds(ids, k, n)
    ensures |Flat(ids)| == |ids| * k
    ensures InRange(Flat(ids), n)
  {
    if ids != [] {
      FlatShape(ids[1..], k, n);
    }
  }

  lemma {:induction false} FlatAt(ids: seq<seq<nat>>, k: nat, n: nat, t: nat, j: nat)
    requires ValidIds(ids, k, n) && t < |ids| && j < k
    ensures t * k + j < |Flat(ids)| && Flat(ids)[t * k + j] == ids[t][j]
  {
    FlatShape(ids, k, n);
    if t > 0 {
      FlatAt(ids[1..], k, n, t - 1, j);
      assert (t - 1) * k + j == t * k + j - k;
    }
  }

  // ---------- token counts ----------

  function Hits(row: seq<nat>, e: nat): nat {
    if e in row then 1 else 0
  }

  function TokensChoosing(ids: seq<seq<nat>>, e: nat): nat {
    if ids == [] then 0 else Hits(ids[0], e) + TokensChoosing(ids[1..], e)
  }

  /** `cnts.scatter_(1, topk_ids, 1)` then `cnts.sum(0)`: a token that names an expert twice is counted once. */
  function TokensPerExpert(ids: seq<seq<nat>>, n: nat): (r: seq<nat>)
    ensures |r| == n
  {
    seq(n, e requires 0 <= e < n => TokensChoosing(ids, e))
  }

  lemma {:induction false} DistinctMultiplicity(row: seq<nat>, e: nat)
    requires Distinct(row)
    ensures multiset(row)[e] == Hits(row, e)
  {
    if row != [] {
      MultisetCons(row);
      DistinctMultiplicity(row[1..], e);
    }
  }

  lemma {:induction false} CountAtMostOccurrences(ids: seq<seq<nat>>, e: nat)
    ensures TokensChoosing(ids, e) <= multiset(Flat(ids))[e]
    ensures AllDistinct(ids) ==> TokensChoosing(ids, e) == multiset(Flat(ids))[e]
  {
    if ids != [] {
      CountAtMostOccurrences(ids[1..], e);
      assert multiset(Flat(ids)) == multiset(ids[0]) + multiset(Flat(ids[1..]));
      if AllDistinct(ids) {
        DistinctMultiplicity(ids[0], e);
      } else if e in ids[0] {
        assert multiset(ids[0])[e] >= 1;
      }
    }
  }

  lemma {:induction false} RepeatIsUndercounted(ids: seq<seq<nat>>, t: nat, i: nat, j: nat)
    requires t < |ids| && i < j < |ids[t]| && ids[t][i] == ids[t][j]
    ensures TokensChoosing(ids, ids[t][i]) < multiset(Flat(ids))[ids[t][i]]
  {
    var e := ids[t][i];
    assert multiset(Flat(ids)) == multiset(ids[0]) + multiset(Flat(ids[1..]));
    CountAtMostOccurrences(ids[1..], e);
    if t == 0 {
      TwoOccurrences(ids[0], i, j);
    } else {
      RepeatIsUndercounted(ids[1..], t - 1, i, j);
      if e in ids[0] { assert multiset(ids[0])[e] >= 1; }
    }
  }

  lemma CountsBelowHistogram(ids: seq<seq<nat>>, n: nat)
    ensures forall e | 0 <= e < n :: TokensPerExpert(ids, n)[e] <= Histogram(Flat(ids), n)[e]
    ensures AllDistinct(ids) ==> TokensPerExpert(ids, n) == Histogram(Flat(ids), n)
  {
    forall e: nat | e < n
      ensures TokensPerExpert(ids, n)[e] <= Histogram(Flat(ids), n)[e]
      ensures AllDistinct(ids) ==> TokensPerExpert(ids, n)[e] == Histogram(Flat(ids), n)[e]
    {
      CountAtMostOccurrences(ids, e);
    }
  }

  lemma SomeRepeat(ids: seq<seq<nat>>) returns (t: nat, i: nat, j: nat)
    requires !AllDistinct(ids)
    ensures t < |ids| && i < j < |ids[t]| && ids[t][i] == ids[t][j]
  {
    t :| t < |ids| && !Distinct(ids[t]);
    i, j :| i < j < |ids[t]| && ids[t][i] == ids[t][j];
  }

  /** The counts add up to the number of routed rows exactly when no token names an expert twice. */
  lemma CountsAddUpIffDistinct(ids: seq<seq<nat>>, k: nat, n: nat)
    requires ValidIds(ids, k, n)
    ensures Sum(TokensPerExpert(ids, n)) <= |ids| * k
    ensures Sum(TokensPerExpert(ids, n)) == |ids| * k <==> AllDistinct(ids)
    ensures AllDistinct(ids) ==> TokensPerExpert(ids, n) == Histogram(Flat(ids), n)
  {
    var counts, full := TokensPerExpert(ids, n), Histogram(Flat(ids), n);
    FlatShape(ids, k, n);
    HistogramSum(Flat(ids), n);
    CountsBelowHistogram(ids, n);
    SumPointwise(counts, full);
    if !AllDistinct(ids) {
      var t, i, j := SomeRepeat(ids);
      RepeatIsUndercounted(ids, t, i, j);
      assert counts[ids[t][i]] < full[ids[t][i]];
    }
  }

  // ---------- running the experts ----------

  /** Every row is where it started, sent through the expert its key names. */
  ghost predicate InPlace(f: Expert, first: nat, keys: seq<nat>, rows: seq<Row>, newX: seq<Row>) {
    && |newX| == |keys| == |rows|
    && forall q | 0 <= q < |keys| :: newX[q] == f(first + keys[q], rows[q])
  }

  /** Row `i` through expert `keys[i]`. */
  function MapExperts(f: Expert, keys: seq<nat>, rows: seq<Row>): (r: seq<Row>)
    requires |keys| == |rows|
    ensures |r| == |keys|
    ensures forall i | 0 <= i < |keys| :: r[i] == f(keys[i], rows[i])
  {
    seq(|keys|, i requires 0 <= i < |keys| => f(keys[i], rows[i]))
  }

  lemma MapExpertsAppend(f: Expert, k1: seq<nat>, k2: seq<nat>, r1: seq<Row>, r2: seq<Row>)
    requires |k1| == |r1| && |k2| == |r2|
    ensures MapExperts(f, k1 + k2, r1 + r2) == MapExperts(f, k1, r1) + MapExperts(f, k2, r2)
  {
  }

  /** One expert applied to a block of rows; an MLP treats the rows of a block independently. */
  function RunBlock(f: Expert, expert: nat, block: seq<Row>): (r: seq<Row>)
    ensures r == MapExperts(f, Repeat<nat>(expert, |block|), block)
  {
    seq(|block|, i requires 0 <= i < |block| => f(expert, block[i]))
  }

  lemma SumPrefix(s: seq<nat>, i: nat)
    requires i < |s|
    ensures Sum(s[..i + 1]) == Sum(s[..i]) + s[i]
    ensures Sum(s[..i + 1]) <= Sum(s)
  {
    assert s[..i + 1] == s[..i] + [s[i]];
    SumAppend(s[..i], [s[i]]);
    assert s == s[..i + 1] + s[i + 1..];
    SumAppend(s[..i + 1], s[i + 1..]);
  }

  lemma ExpandPrefix(counts: seq<nat>, i: nat, start: nat)
    requires i < |counts|
    ensures Expand(counts[..i + 1], start) == Expand(counts[..i], start) + Repeat<nat>(start + i, counts[i])
  {
    assert counts[..i + 1] == counts[..i] + [counts[i]];
    ExpandAppend(counts[..i], [counts[i]], start);
    assert Expand([counts[i]], start + i) == Repeat<nat>(start + i, counts[i]);
  }

  /** The expert loop: a cursor walks the sorted rows; experts with no tokens leave it where it is. */
  method RunExperts(f: Expert, firstExpert: nat, sortedTokens: seq<Row>, tokensPerExpert: seq<nat>)
    returns (outs: seq<Row>)
    requires Sum(tokensPerExpert) <= |sortedTokens|
    ensures outs == MapExperts(f, Expand(tokensPerExpert, firstExpert), sortedTokens[..Sum(tokensPerExpert)])
  {
    outs := [];
    var startIdx := 0;
    for i := 0 to |tokensPerExpert|
      invariant startIdx == Sum(tokensPerExpert[..i]) <= |sortedTokens|
      invariant outs == MapExperts(f, Expand(tokensPerExpert[..i], firstExpert), sortedTokens[..startIdx])
    {
      var numTokens := tokensPerExpert[i];
      var endIdx := startIdx + numTokens;
      SumPrefix(tokensPerExpert, i);
      ExpandPrefix(tokensPerExpert, i, firstExpert);
      assert sortedTokens[..endIdx] == sortedTokens[..startIdx] + sortedTokens[startIdx..endIdx];
      if numTokens == 0 {
        continue;
      }
      var expertOut := RunBlock(f, i + firstExpert, sortedTokens[startIdx..endIdx]);
      MapExpertsAppend(f, Expand(tokensPerExpert[..i], firstExpert), Repeat<nat>(firstExpert + i, numTokens),
                       sortedTokens[..startIdx], sortedTokens[startIdx..endIdx]);
      outs := outs + expertOut;
      startIdx := endIdx;
    }
    assert tokensPerExpert[..|tokensPerExpert|] == tokensPerExpert;
  }

  lemma ShortOutputIsOverrun(idxs: seq<nat>, rows: nat)
    requires IsPermutation(idxs, |idxs|) && rows < |idxs|
    ensures exists p :: 0 <= p < |idxs| && idxs[p] >= rows
  {
    PermutationFacts(idxs, |idxs|);
    assert rows in idxs;
  }

  /** `new_x = empty_like(outs); new_x[idxs] = outs`: raises on an index past the end of `outs`. */
  method ScatterRows(idxs: seq<nat>, outs: seq<Row>) returns (newX: Option<seq<Row>>)
    requires IsPermutation(idxs, |idxs|) && |outs| <= |idxs|
    ensures newX.Some? <==> |outs| == |idxs|
    ensures newX.Some? ==> |newX.value| == |idxs| && InRange(idxs, |idxs|)
    ensures newX.Some? ==> forall p | 0 <= p < |idxs| :: newX.value[idxs[p]] == outs[p]
  {
    PermutationFacts(idxs, |idxs|);
    if |outs| < |idxs| {
      ShortOutputIsOverrun(idxs, |outs|);
    }
    if p :| 0 <= p < |idxs| && idxs[p] >= |outs| {
      return None;
    }
    var cells := new Row[|outs|];
    for p := 0 to |idxs|
      invariant forall q | 0 <= q < p :: cells[idxs[q]] == outs[q]
    {
      cells[idxs[p]] := outs[p];
    }
    newX := Some(cells[..]);
  }

  /**
   Slicing the sorted rows by the counts hands each row to the expert its key names, whatever the argsort did with
   ties. Both the single-rank path and the owner's side of the expert-parallel path rest on this.
   */
  lemma SortedRowsMeetTheirExperts(f: Expert, firstExpert: nat, keys: seq<nat>, idxs: seq<nat>, counts: seq<nat>,
                                   rows: seq<Row>, outs: seq<Row>)
    requires |rows| == |keys| && IsArgsort(keys, idxs) && InRange(keys, |counts|)
    requires counts == Histogram(keys, |counts|) && Sum(counts) == |keys|
    requires outs == MapExperts(f, Expand(counts, firstExpert), Gather(rows, idxs))
    ensures |outs| == |keys|
    ensures forall p | 0 <= p < |idxs| :: outs[p] == f(firstExpert + keys[idxs[p]], rows[idxs[p]])
  {
    SortedRunsMatchCounts(keys, idxs, |counts|);
    ExpandShift(counts, firstExpert);
  }

  /** Scattering through the argsort undoes the gather. */
  lemma ScatterUndoesSort(f: Expert, firstExpert: nat, keys: seq<nat>, idxs: seq<nat>, rows: seq<Row>,
                          outs: seq<Row>, newX: seq<Row>)
    requires |rows| == |keys| == |outs| == |newX| && IsArgsort(keys, idxs)
    requires forall p | 0 <= p < |idxs| :: outs[p] == f(firstExpert + keys[idxs[p]], rows[idxs[p]])
    requires forall p | 0 <= p < |idxs| :: newX[idxs[p]] == outs[p]
    ensures InPlace(f, firstExpert, keys, rows, newX)
  {
    PermutationFacts(idxs, |keys|);
    forall q: nat | q < |newX| ensures newX[q] == f(firstExpert + keys[q], rows[q]) {
      assert q in idxs;
    }
  }

  /**
   Argsort the keys, gather the rows, run the experts over the slices the counts give, and scatter back. Raises when
   the counts fall short of the rows; with the true counts every row comes back in place, through its own expert.
   */
  method DispatchByKey(f: Expert, first: nat, keys: seq<nat>, rows: seq<Row>, counts: seq<nat>)
    returns (newX: Option<seq<Row>>)
    requires |rows| == |keys| && InRange(keys, |counts|) && Sum(counts) <= |keys|
    ensures newX.Some? <==> Sum(counts) == |keys|
    ensures newX.Some? ==> |newX.value| == |keys|
    ensures newX.Some? && counts == Histogram(keys, |counts|) ==> InPlace(f, first, keys, rows, newX.value)
  {
    var idxs := Argsort(keys);
    var sortedTokens := Gather(rows, idxs);
    var outs := RunExperts(f, first, sortedTokens, counts);
    newX := ScatterRows(idxs, outs);
    if newX.Some? && counts == Histogram(keys, |counts|) {
      assert sortedTokens[..|sortedTokens|] == sortedTokens;
      SortedRowsMeetTheirExperts(f, first, keys, idxs, counts, rows, outs);
      ScatterUndoesSort(f, first, keys, idxs, rows, outs, newX.value);
    }
  }

  // ---------- weighted sum ----------

  function Scale(w: real, row: Row): Row {
    seq(|row|, i requires 0 <= i < |row| => w * row[i])
  }

  function Add(a: Row, b: Row): Row {
    var n := if |a| <= |b| then |a| else |b|;
    seq(n, i requires 0 <= i < n => a[i] + b[i])
  }

  /** `mul_(weights.unsqueeze(-1)).sum(dim=1)` for one token. */
  function WeightedSum(weights: seq<real>, rows: seq<Row>): Row
    requires |weights| == |rows|
  {
    if |rows| == 0 then []
    else if |rows| == 1 then Scale(weights[0], rows[0])
    else Add(Scale(weights[0], rows[0]), WeightedSum(weights[1..], rows[1..]))
  }

  /** One term of an entry of the weighted sum, written out. */
  function WeightedTerm(weights: seq<real>, rows: seq<Row>, c: nat): nat -> real {
    (j: nat) => if j < |weights| && j < |rows| && c < |rows[j]| then weights[j] * rows[j][c] else 0.0
  }

  lemma EntryOfSum(weights: seq<real>, rows: seq<Row>, c: nat, entry: real, rest: real)
    requires |weights| == |rows| > 0 && c < |rows[0]|
    requires rest == SumOf(|rows| - 1, WeightedTerm(weights[1..], rows[1..], c))
    requires entry == Scale(weights[0], rows[0])[c] + rest
    ensures entry == SumOf(|rows|, WeightedTerm(weights, rows, c))
  {
    var all, later := WeightedTerm(weights, rows, c), WeightedTerm(weights[1..], rows[1..], c);
    assert all(0) == Scale(weights[0], rows[0])[c];
    assert forall j: nat | j + 1 < |rows| :: later(j) == all(j + 1);
    hide *;
    SumFront(|rows|, all, later);
  }

  /** Entry by entry, the weighted sum is what it says: each row's entry times its weight, added up. */
  lemma {:induction false} WeightedSumEntry(weights: seq<real>, rows: seq<Row>, d: nat)
    requires |weights| == |rows| > 0 && forall j | 0 <= j < |rows| :: |rows[j]| == d
    ensures |WeightedSum(weights, rows)| == d
    ensures forall c | 0 <= c < d ::
              WeightedSum(weights, rows)[c] == SumOf(|rows|, WeightedTerm(weights, rows, c))
  {
    hide WeightedTerm, SumOf;
    if |rows| > 1 {
      WeightedSumEntry(weights[1..], rows[1..], d);
    }
    forall c: nat | c < d
      ensures WeightedSum(weights, rows)[c] == SumOf(|rows|, WeightedTerm(weights, rows, c))
    {
      var rest := SumOf(|rows| - 1, WeightedTerm(weights[1..], rows[1..], c));
      if |rows| == 1 { SumOfNone(WeightedTerm(weights[1..], rows[1..], c)); }
      EntryOfSum(weights, rows, c, WeightedSum(weights, rows)[c], rest);
    }
  }

  /** The reference: for each token, the weighted sum over its own experts applied to its own row. */
  function Naive(f: Expert, x: seq<Row>, ids: seq<seq<nat>>, weights: seq<seq<real>>): (r: seq<Row>)
    requires |x| == |ids| == |weights|
    requires forall t | 0 <= t < |ids| :: |weights[t]| == |ids[t]|
    ensures |r| == |ids|
  {
    seq(|ids|, t requires 0 <= t < |ids| =>
      WeightedSum(weights[t], seq(|ids[t]|, j requires 0 <= j < |ids[t]| => f(ids[t][j], x[t]))))
  }

  /** Every row has width `d`, and the `n` experts keep that width. */
  ghost predicate KeepsWidth(f: Expert, n: nat, x: seq<Row>, d: nat) {
    (forall t | 0 <= t < |x| :: |x[t]| == d) && forall e: nat, row: Row | e < n && |row| == d :: |f(e, row)| == d
  }

  /** One term of entry `c` of a token's result: the weight of a choice times what its expert makes of the row. */
  function RoutedTerm(f: Expert, row: Row, ids: seq<nat>, weights: seq<real>, c: nat): nat -> real {
    (j: nat) => if j < |ids| && j < |weights| && c < |f(ids[j], row)| then weights[j] * f(ids[j], row)[c] else 0.0
  }

  /** One token's result, and all tokens', written out in numbers. */
  ghost predicate RoutedRow(f: Expert, row: Row, ids: seq<nat>, weights: seq<real>, k: nat, d: nat, out: Row) {
    |out| == d && forall c: nat | c < d :: out[c] == SumOf(k, RoutedTerm(f, row, ids, weights, c))
  }

  ghost predicate RoutedSums(f: Expert, x: seq<Row>, ids: seq<seq<nat>>, weights: seq<seq<real>>, k: nat, d: nat,
                             out: seq<Row>)
    requires |x| == |ids| == |weights|
  {
    |out| == |x| && forall t | 0 <= t < |x| :: RoutedRow(f, x[t], ids[t], weights[t], k, d, out[t])
  }

  lemma NaiveIsRoutedSums(f: Expert, x: seq<Row>, ids: seq<seq<nat>>, weights: seq<seq<real>>, k: nat, n: nat, d: nat)
    requires |x| == |ids| && ValidIds(ids, k, n) && ValidWeights(weights, |ids|, k) && k > 0 && KeepsWidth(f, n, x, d)
    ensures RoutedSums(f, x, ids, weights, k, d, Naive(f, x, ids, weights))
  {
    var out := Naive(f, x, ids, weights);
    forall t | 0 <= t < |x| ensures RoutedRow(f, x[t], ids[t], weights[t], k, d, out[t]) {
      var rows := seq(k, j requires 0 <= j < k => f(ids[t][j], x[t]));
      assert out[t] == WeightedSum(weights[t], rows);
      WeightedSumEntry(weights[t], rows, d);
      forall c: nat | c < d ensures out[t][c] == SumOf(k, RoutedTerm(f, x[t], ids[t], weights[t], c)) {
        SumSame(k, WeightedTerm(weights[t], rows, c), RoutedTerm(f, x[t], ids[t], weights[t], c));
      }
    }
  }

  lemma SlotIndex(t: nat, j: nat, k: nat, tokens: nat)
    requires j < k && t < tokens
    ensures t * k + j < tokens * k
    ensures (t * k + j) / k == t
  {
    assert tokens * k == t * k + k + (tokens - t - 1) * k;
    DivModUnique(t * k + j, k, t, j);
  }

  lemma SlotToken(q: nat, k: nat, tokens: nat)
    requires q < tokens * k
    ensures k > 0 && q / k < tokens
  {
    assert k > 0;
    QuotientBelow(q, tokens, k);
  }

  /** `x[idxs // k]`: the token row behind every routed slot. */
  function SlotRows(x: seq<Row>, k: nat): (r: seq<Row>)
    ensures |r| == |x| * k
  {
    seq(|x| * k, q requires 0 <= q < |x| * k => SlotToken(q, k, |x|); x[q / k])
  }

  /** The `k` rows of token `t` in `new_x.view(T, k, -1)`. */
  function Block(newX: seq<Row>, t: nat, k: nat, tokens: nat): (r: seq<Row>)
    requires |newX| == tokens * k && t < tokens
    ensures |r| == k
    ensures forall j | 0 <= j < k :: 0 <= t * k + j < |newX| && r[j] == newX[t * k + j]
  {
    assert tokens * k == t * k + k + (tokens - t - 1) * k;
    newX[t * k..t * k + k]
  }

  /** `new_x.view(T, k, -1)` weighted and summed; the view raises when there are no rows to infer `-1` from. */
  method Combine(newX: seq<Row>, tokens: nat, k: nat, weights: seq<seq<real>>) returns (out: Option<seq<Row>>)
    requires |newX| == tokens * k && ValidWeights(weights, tokens, k)
    ensures out.Some? <==> tokens * k > 0
    ensures out.Some? ==> |out.value| == tokens
    ensures out.Some? ==>
      forall t | 0 <= t < tokens :: out.value[t] == WeightedSum(weights[t], Block(newX, t, k, tokens))
  {
    if |newX| == 0 {
      return None;
    }
    var sums: seq<Row> := [];
    for t := 0 to tokens
      invariant |sums| == t
      invariant forall u | 0 <= u < t :: sums[u] == WeightedSum(weights[u], Block(newX, u, k, tokens))
    {
      sums := sums + [WeightedSum(weights[t], Block(newX, t, k, tokens))];
    }
    out := Some(sums);
  }

  lemma SlotIsExpertRow(f: Expert, x: seq<Row>, ids: seq<seq<nat>>, k: nat, n: nat, t: nat, j: nat)
    requires |x| == |ids| && ValidIds(ids, k, n) && t < |ids| && j < k
    ensures t * k + j < |ids| * k == |Flat(ids)|
    ensures f(Flat(ids)[t * k + j], SlotRows(x, k)[t * k + j]) == f(ids[t][j], x[t])
  {
    FlatShape(ids, k, n);
    SlotIndex(t, j, k, |ids|);
    FlatAt(ids, k, n, t, j);
  }

  lemma BlockIsExpertRows(f: Expert, x: seq<Row>, ids: seq<seq<nat>>, k: nat, n: nat, newX: seq<Row>, t: nat)
    requires |x| == |ids| && ValidIds(ids, k, n) && t < |ids|
    requires |newX| == |ids| * k && InPlace(f, 0, Flat(ids), SlotRows(x, k), newX)
    ensures Block(newX, t, k, |ids|) == seq(k, j requires 0 <= j < k => f(ids[t][j], x[t]))
  {
    var block := Block(newX, t, k, |ids|);
    forall j: nat | j < k ensures block[j] == f(ids[t][j], x[t]) {
      SlotIsExpertRow(f, x, ids, k, n, t, j);
      assert block[j] == newX[t * k + j];
    }
  }

  /** Rows put back in slot order combine to the reference. */
  lemma CombinedIsNaive(f: Expert, x: seq<Row>, ids: seq<seq<nat>>, weights: seq<seq<real>>, k: nat, n: nat,
                        newX: seq<Row>, out: seq<Row>)
    requires |x| == |ids| == |out| && ValidIds(ids, k, n) && ValidWeights(weights, |ids|, k)
    requires |newX| == |ids| * k && InPlace(f, 0, Flat(ids), SlotRows(x, k), newX)
    requires forall t | 0 <= t < |ids| :: out[t] == WeightedSum(weights[t], Block(newX, t, k, |ids|))
    ensures out == Naive(f, x, ids, weights)
  {
    forall t: nat | t < |ids| ensures out[t] == Naive(f, x, ids, weights)[t] {
      BlockIsExpertRows(f, x, ids, k, n, newX, t);
    }
  }

  // ---------- the single-rank path ----------

  /**
   `moe_infer` with one rank. It returns rows exactly when there is something to route and no token names an expert
   twice, and the rows are then the reference's.
   */
  method MoeInfer(f: Expert, n: nat, x: seq<Row>, ids: seq<seq<nat>>, weights: seq<seq<real>>, k: nat)
    returns (out: Option<seq<Row>>)
    requires |x| == |ids| && ValidIds(ids, k, n) && ValidWeights(weights, |ids|, k)
    ensures out.Some? <==> |ids| * k > 0 && AllDistinct(ids)
    ensures out.Some? ==> out.value == Naive(f, x, ids, weights)
    ensures out.Some? ==>
              forall d: nat | KeepsWidth(f, n, x, d) :: RoutedSums(f, x, ids, weights, k, d, out.value)
  {
    var tokensPerExpert := TokensPerExpert(ids, n);
    FlatShape(ids, k, n);
    CountsAddUpIffDistinct(ids, k, n);
    var newX := DispatchByKey(f, 0, Flat(ids), SlotRows(x, k), tokensPerExpert);
    if newX.None? {
      return None;
    }
    out := Combine(newX.value, |ids|, k, weights);
    if out.Some? {
      CombinedIsNaive(f, x, ids, weights, k, n, newX.value, out.value);
      forall d: nat | KeepsWidth(f, n, x, d) ensures RoutedSums(f, x, ids, weights, k, d, out.value) {
        NaiveIsRoutedSums(f, x, ids, weights, k, n, d);
      }
    }
  }
}
