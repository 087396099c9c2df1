/**
 Expert-parallel dispatch: every rank owns a contiguous range of experts. Ranks exchange their counts, send each
 owner the rows for its experts, the owner sorts what it received by local expert, computes, restores the order of
 arrival and sends the results back, and each rank combines its own tokens.
 */
module ExpertParallel {
  import opened Arithmetic
  import opened Options
  import opened Permutations
  import opened MoeDispatch

  datatype RankInput = RankInput(x: seq<Row>, ids: seq<seq<nat>>, weights: seq<seq<real>>)

  // ---------- split and concatenate ----------

  function Concat<T>(pieces: seq<seq<T>>): seq<T> {
    if pieces == [] then [] else pieces[0] + Concat(pieces[1..])
  }

  function Lengths<T>(pieces: seq<seq<T>>): (r: seq<nat>)
    ensures |r| == |pieces|
    ensures forall i | 0 <= i < |pieces| :: r[i] == |pieces[i]|
  {
    seq(|pieces|, i requires 0 <= i < |pieces| => |pieces[i]|)
  }

  /** `tensor.split(sizes)`; the sizes have to add up. */
  function SplitBy<T>(s: seq<T>, sizes: seq<nat>): (r: seq<seq<T>>)
    requires Sum(sizes) == |s|
    ensures |r| == |sizes|
    decreases |sizes|
  {
    if sizes == [] then [] else [s[..sizes[0]]] + SplitBy(s[sizes[0]..], sizes[1..])
  }

  lemma {:induction false} SplitRoundTrip<T>(s: seq<T>, sizes: seq<nat>)
    requires Sum(sizes) == |s|
    ensures Concat(SplitBy(s, sizes)) == s
    ensures Lengths(SplitBy(s, sizes)) == sizes
    decreases |sizes|
  {
    if sizes != [] {
      SplitRoundTrip(s[sizes[0]..], sizes[1..]);
      assert SplitBy(s, sizes)[1..] == SplitBy(s[sizes[0]..], sizes[1..]);
      assert Lengths(SplitBy(s, sizes)) == [sizes[0]] + Lengths(SplitBy(s[sizes[0]..], sizes[1..]));
    }
  }

  lemma {:induction false} ConcatRoundTrip<T>(pieces: seq<seq<T>>)
    ensures Sum(Lengths(pieces)) == |Concat(pieces)|
    ensures SplitBy(Concat(pieces), Lengths(pieces)) == pieces
  {
    if pieces != [] {
      ConcatRoundTrip(pieces[1..]);
      assert Lengths(pieces)[1..] == Lengths(pieces[1..]);
      assert Concat(pieces)[|pieces[0]|..] == Concat(pieces[1..]);
    }
  }

  /** What rank `r` receives from an all-to-all: piece `r` of every sender, in sender order. */
  function Received<T>(sent: seq<seq<seq<T>>>, r: nat): (got: seq<seq<T>>)
    requires forall s | 0 <= s < |sent| :: r < |sent[s]|
    ensures |got| == |sent|
    ensures forall s | 0 <= s < |sent| :: got[s] == sent[s][r]
  {
    seq(|sent|, s requires 0 <= s < |sent| => sent[s][r])
  }

  lemma {:induction false} SumRepeat(n: nat, times: nat)
    ensures Sum(Repeat<nat>(n, times)) == n * times
  {
    if times > 0 {
      SumRepeat(n, times - 1);
      assert Repeat<nat>(n, times)[1..] == Repeat<nat>(n, times - 1);
    }
  }

  /** `counts.view(ranks, -1)`: the counts for each owner's experts. */
  function OwnerCounts(counts: seq<nat>, perRank: nat, ranks: nat): (r: seq<seq<nat>>)
    requires |counts| == perRank * ranks
    ensures |r| == ranks && Concat(r) == counts
    ensures forall o | 0 <= o < ranks :: |r[o]| == perRank
  {
    SumRepeat(perRank, ranks);
    SplitRoundTrip(counts, Repeat<nat>(perRank, ranks));
    var r := SplitBy(counts, Repeat<nat>(perRank, ranks));
    assert forall o | 0 <= o < ranks :: |r[o]| == Lengths(r)[o];
    r
  }

  function Totals(groups: seq<seq<nat>>): (r: seq<nat>)
    ensures |r| == |groups|
    ensures forall i | 0 <= i < |groups| :: r[i] == Sum(groups[i])
  {
    seq(|groups|, i requires 0 <= i < |groups| => Sum(groups[i]))
  }

  lemma {:induction false} TotalsSum(groups: seq<seq<nat>>)
    ensures Sum(Totals(groups)) == Sum(Concat(groups))
  {
    if groups != [] {
      TotalsSum(groups[1..]);
      assert Totals(groups)[1..] == Totals(groups[1..]);
      SumAppend(groups[0], Concat(groups[1..]));
    }
  }

  // ---------- the owner's second sort ----------

  /** The labels the fill loop writes from group position `i` on: run `i` is labelled `i % perRank`. */
  function Labels(counts: seq<nat>, i: nat, perRank: nat): (r: seq<nat>)
    requires perRank > 0
    ensures |r| == Sum(counts)
  {
    if counts == [] then [] else Repeat<nat>(i % perRank, counts[0]) + Labels(counts[1..], i + 1, perRank)
  }

  lemma {:induction false} LabelsAppend(a: seq<nat>, b: seq<nat>, i: nat, perRank: nat)
    requires perRank > 0
    ensures Labels(a + b, i, perRank) == Labels(a, i, perRank) + Labels(b, i + |a|, perRank)
  {
    if a == [] {
      assert a + b == b;
    } else {
      assert (a + b)[1..] == a[1..] + b;
      LabelsAppend(a[1..], b, i + 1, perRank);
    }
  }

  lemma ModNext(i: nat, m: nat)
    requires m > 0
    ensures (i + 1) % m == if i % m + 1 == m then 0 else i % m + 1
  {
    var q, r := i / m, i % m;
    assert i == q * m + r;
    if r + 1 == m {
      assert (q + 1) * m == q * m + m;
      DivModUnique(i + 1, m, q + 1, 0);
    } else {
      DivModUnique(i + 1, m, q, r + 1);
    }
  }

  /** Inside one sender's group the labels run through the owner's local experts in order. */
  lemma {:induction false} LabelsOfGroup(counts: seq<nat>, i: nat, perRank: nat)
    requires perRank > 0 && i % perRank + |counts| <= perRank
    ensures Labels(counts, i, perRank) == Expand(counts, i % perRank)
    ensures |counts| > 0 && i % perRank + |counts| == perRank ==> (i + |counts|) % perRank == 0
  {
    if counts != [] {
      ModNext(i, perRank);
      if |counts| > 1 {
        LabelsOfGroup(counts[1..], i + 1, perRank);
      }
    }
  }

  /** Run-length expansion group by group; the first expert of a group moves on by `step` each time. */
  function Keys(groups: seq<seq<nat>>, start: nat, step: nat): seq<nat> {
    if groups == [] then [] else Expand(groups[0], start) + Keys(groups[1..], start + step, step)
  }

  /** The local expert of every row received, sender by sender. */
  function LocalKeys(groups: seq<seq<nat>>): seq<nat> {
    Keys(groups, 0, 0)
  }

  lemma {:induction false} LabelsAreLocalKeys(groups: seq<seq<nat>>, i: nat, perRank: nat)
    requires perRank > 0 && i % perRank == 0
    requires forall s | 0 <= s < |groups| :: |groups[s]| == perRank
    ensures Labels(Concat(groups), i, perRank) == LocalKeys(groups)
  {
    if groups != [] {
      LabelsAppend(groups[0], Concat(groups[1..]), i, perRank);
      LabelsOfGroup(groups[0], i, perRank);
      LabelsAreLocalKeys(groups[1..], i + perRank, perRank);
    }
  }

  /** The owner's expert ids are its local keys moved up by its first expert. */
  lemma {:induction false} KeysShift(groups: seq<seq<nat>>, first: nat)
    ensures |Keys(groups, first, 0)| == |LocalKeys(groups)|
    ensures forall p | 0 <= p < |LocalKeys(groups)| :: Keys(groups, first, 0)[p] == first + LocalKeys(groups)[p]
  {
    if groups != [] {
      KeysShift(groups[1..], first);
      ExpandShift(groups[0], first);
    }
  }

  /** A sender's expert ids, owner by owner, are its sorted runs. */
  lemma {:induction false} KeysOfAllOwners(groups: seq<seq<nat>>, start: nat, perRank: nat)
    requires forall s | 0 <= s < |groups| :: |groups[s]| == perRank
    ensures Keys(groups, start, perRank) == Expand(Concat(groups), start)
  {
    if groups != [] {
      KeysOfAllOwners(groups[1..], start + perRank, perRank);
      ExpandAppend(groups[0], Concat(groups[1..]), start);
    }
  }

  function ColumnSum(groups: seq<seq<nat>>, e: nat): nat
    requires forall s | 0 <= s < |groups| :: e < |groups[s]|
  {
    if groups == [] then 0 else groups[0][e] + ColumnSum(groups[1..], e)
  }

  lemma {:induction false} LocalKeysCount(groups: seq<seq<nat>>, e: nat, perRank: nat)
    requires e < perRank && forall s | 0 <= s < |groups| :: |groups[s]| == perRank
    ensures multiset(LocalKeys(groups))[e] == ColumnSum(groups, e)
  {
    if groups != [] {
      LocalKeysCount(groups[1..], e, perRank);
      ExpandMultiplicity(groups[0], 0, e);
    }
  }

  lemma {:induction false} LocalKeysRange(groups: seq<seq<nat>>, perRank: nat)
    requires forall s | 0 <= s < |groups| :: |groups[s]| == perRank
    ensures InRange(LocalKeys(groups), perRank)
  {
    if groups != [] {
      LocalKeysRange(groups[1..], perRank);
    }
  }

  /** `tokens_per_expert_group.view(ranks, perRank).sum(0)`. */
  function PostGatherCounts(groups: seq<seq<nat>>, perRank: nat): (r: seq<nat>)
    requires forall s | 0 <= s < |groups| :: |groups[s]| == perRank
    ensures |r| == perRank && r == Histogram(LocalKeys(groups), perRank)
  {
    var r := seq(perRank, e requires 0 <= e < perRank => ColumnSum(groups, e));
    assert r == Histogram(LocalKeys(groups), perRank) by {
      forall e: nat | e < perRank ensures r[e] == Histogram(LocalKeys(groups), perRank)[e] {
        LocalKeysCount(groups, e, perRank);
      }
    }
    r
  }

  /** The loop filling `gatherd_idxs[s : s + k] = i % experts_per_rank`. */
  method LabelGathered(group: seq<nat>, perRank: nat) returns (labels: seq<nat>)
    requires perRank > 0
    ensures labels == Labels(group, 0, perRank)
  {
    var cells := new nat[Sum(group)];
    var s := 0;
    for i := 0 to |group|
      invariant s == Sum(group[..i]) <= cells.Length
      invariant cells[..s] == Labels(group[..i], 0, perRank)
    {
      var count := group[i];
      SumPrefix(group, i);
      assert group[..i + 1] == group[..i] + [group[i]];
      LabelsAppend(group[..i], [group[i]], 0, perRank);
      ghost var before := cells[..s];
      for j := s to s + count
        invariant cells[..s] == before
        invariant forall p | s <= p < j :: cells[p] == i % perRank
      {
        cells[j] := i % perRank;
      }
      assert Labels([group[i]], i, perRank) == Repeat<nat>(i % perRank, count);
      assert cells[..s + count] == before + Repeat<nat>(i % perRank, count);
      s := s + count;
    }
    assert group[..|group|] == group;
    labels := cells[..];
    assert labels == cells[..s];
  }

  // ---------- computing piece by piece ----------

  /** Piece `s` has one row for every count in group `s`. */
  predicate Sized(groups: seq<seq<nat>>, pieces: seq<seq<Row>>) {
    |groups| == |pieces| && forall s | 0 <= s < |groups| :: |pieces[s]| == Sum(groups[s])
  }

  lemma SizedTail(groups: seq<seq<nat>>, pieces: seq<seq<Row>>)
    requires Sized(groups, pieces) && groups != []
    ensures |groups| == |pieces| && |pieces[0]| == Sum(groups[0])
    ensures Sized(groups[1..], pieces[1..])
  {
  }

  lemma SizedLengths(groups: seq<seq<nat>>, pieces: seq<seq<Row>>)
    requires |groups| == |pieces|
    ensures Sized(groups, pieces) <==> Lengths(pieces) == Totals(groups)
  {
    if Lengths(pieces) == Totals(groups) {
      forall s | 0 <= s < |groups| ensures |pieces[s]| == Sum(groups[s]) {
        assert |pieces[s]| == Lengths(pieces)[s] == Totals(groups)[s];
      }
    }
  }

  /** Piece `r` through the experts its group counts, the first of which is `start + step * r`. */
  function Computed(f: Expert, start: nat, step: nat, groups: seq<seq<nat>>, pieces: seq<seq<Row>>): (r: seq<seq<Row>>)
    requires Sized(groups, pieces)
    ensures |r| == |groups|
    decreases |groups|
  {
    if groups == [] then [] else
      SizedTail(groups, pieces);
      [MapExperts(f, Expand(groups[0], start), pieces[0])] + Computed(f, start + step, step, groups[1..], pieces[1..])
  }

  lemma {:induction false} ComputedAt(f: Expert, start: nat, step: nat, groups: seq<seq<nat>>, pieces: seq<seq<Row>>,
                                      r: nat)
    requires Sized(groups, pieces) && r < |groups|
    ensures |pieces[r]| == Sum(groups[r])
    ensures Computed(f, start, step, groups, pieces)[r] ==
            MapExperts(f, Expand(groups[r], start + step * r), pieces[r])
    decreases |groups|
  {
    if r == 0 {
      assert start + step * r == start;
    } else {
      SizedTail(groups, pieces);
      ComputedAt(f, start + step, step, groups[1..], pieces[1..], r - 1);
      assert start + step * r == start + step + step * (r - 1);
    }
  }

  lemma ComputedSized(f: Expert, start: nat, step: nat, groups: seq<seq<nat>>, pieces: seq<seq<Row>>)
    requires Sized(groups, pieces)
    ensures Sized(groups, Computed(f, start, step, groups, pieces))
  {
    forall s: nat | s < |groups| ensures |Computed(f, start, step, groups, pieces)[s]| == Sum(groups[s]) {
      ComputedAt(f, start, step, groups, pieces, s);
    }
  }

  /** Computing piecewise is computing on the whole. */
  lemma {:induction false} PiecewiseIsWhole(f: Expert, start: nat, step: nat, groups: seq<seq<nat>>,
                                            pieces: seq<seq<Row>>)
    requires Sized(groups, pieces)
    ensures |Keys(groups, start, step)| == |Concat(pieces)|
    ensures Concat(Computed(f, start, step, groups, pieces)) ==
            MapExperts(f, Keys(groups, start, step), Concat(pieces))
    decreases |groups|
  {
    if groups != [] {
      SizedTail(groups, pieces);
      PiecewiseIsWhole(f, start + step, step, groups[1..], pieces[1..]);
      MapExpertsAppend(f, Expand(groups[0], start), Keys(groups[1..], start + step, step),
                       pieces[0], Concat(pieces[1..]));
    }
  }

  lemma KeysShiftInPlace(f: Expert, first: nat, groups: seq<seq<nat>>, rows: seq<Row>, newX: seq<Row>)
    requires InPlace(f, first, LocalKeys(groups), rows, newX)
    ensures |Keys(groups, first, 0)| == |rows| && newX == MapExperts(f, Keys(groups, first, 0), rows)
  {
    hide Keys, LocalKeys;
    KeysShift(groups, first);
  }

  /** The results in order of arrival are what the owner owes each sender, one after the other. */
  lemma ArrivalOrder(f: Expert, first: nat, groups: seq<seq<nat>>, pieces: seq<seq<Row>>, newX: seq<Row>)
    requires Sized(groups, pieces)
    requires InPlace(f, first, LocalKeys(groups), Concat(pieces), newX)
    ensures Sum(Totals(groups)) == |newX|
    ensures SplitBy(newX, Totals(groups)) == Computed(f, first, 0, groups, pieces)
  {
    var want := Computed(f, first, 0, groups, pieces);
    PiecewiseIsWhole(f, first, 0, groups, pieces);
    KeysShiftInPlace(f, first, groups, Concat(pieces), newX);
    ConcatRoundTrip(want);
    ComputedSized(f, first, 0, groups, pieces);
    SizedLengths(groups, want);
  }

  lemma OwnerShapes(groups: seq<seq<nat>>, pieces: seq<seq<Row>>, perRank: nat)
    requires perRank > 0 && Sized(groups, pieces)
    requires forall s | 0 <= s < |groups| :: |groups[s]| == perRank
    ensures Labels(Concat(groups), 0, perRank) == LocalKeys(groups)
    ensures |LocalKeys(groups)| == |Concat(pieces)| && InRange(LocalKeys(groups), perRank)
    ensures Sum(PostGatherCounts(groups, perRank)) == |LocalKeys(groups)|
  {
    LabelsAreLocalKeys(groups, 0, perRank);
    LocalKeysRange(groups, perRank);
    PiecewiseIsWhole((e, row) => row, 0, 0, groups, pieces);
    HistogramSum(LocalKeys(groups), perRank);
  }

  /**
   The owner's part between the two exchanges: label the rows received, sort by local expert, compute, and put the
   results back in order of arrival so that each sender can be given its own piece.
   */
  method OwnerSide(f: Expert, first: nat, perRank: nat, groups: seq<seq<nat>>, pieces: seq<seq<Row>>)
    returns (back: seq<seq<Row>>)
    requires perRank > 0 && Sized(groups, pieces)
    requires forall s | 0 <= s < |groups| :: |groups[s]| == perRank
    ensures back == Computed(f, first, 0, groups, pieces)
  {
    OwnerShapes(groups, pieces, perRank);
    hide *;
    var postGather := PostGatherCounts(groups, perRank);
    var labels := LabelGathered(Concat(groups), perRank);
    var newX := DispatchByKey(f, first, labels, Concat(pieces), postGather);
    ArrivalOrder(f, first, groups, pieces, newX.value);
    back := SplitBy(newX.value, Totals(groups));
  }

  // ---------- the sender's two halves ----------

  predicate ValidRank(rank: RankInput, k: nat, n: nat) {
    && |rank.x| == |rank.ids|
    && ValidIds(rank.ids, k, n)
    && ValidWeights(rank.weights, |rank.ids|, k)
  }

  /** What a rank has in hand when the exchanges start. */
  datatype Prepared = Prepared(idxs: seq<nat>, groups: seq<seq<nat>>, sends: seq<seq<Row>>)

  ghost predicate PreparedFor(p: Prepared, rank: RankInput, k: nat, n: nat, perRank: nat, ranks: nat) {
    && |p.groups| == |p.sends| == ranks
    && (forall r | 0 <= r < ranks :: |p.groups[r]| == perRank)
    && Sized(p.groups, p.sends)
    && AllDistinct(rank.ids)
    && |Flat(rank.ids)| == |rank.x| * k
    && IsArgsort(Flat(rank.ids), p.idxs)
    && Concat(p.groups) == TokensPerExpert(rank.ids, n)
    && Concat(p.sends) == Gather(SlotRows(rank.x, k), p.idxs)
  }

  /** Count, sort and split by owner; the split sizes add up if and only if no token of the rank repeats an expert. */
  method Prepare(rank: RankInput, k: nat, n: nat, perRank: nat, ranks: nat) returns (p: Option<Prepared>)
    requires n == perRank * ranks && ValidRank(rank, k, n)
    ensures p.Some? <==> AllDistinct(rank.ids)
    ensures p.Some? ==> PreparedFor(p.value, rank, k, n, perRank, ranks)
  {
    var tokensPerExpert := TokensPerExpert(rank.ids, n);
    FlatShape(rank.ids, k, n);
    CountsAddUpIffDistinct(rank.ids, k, n);
    var idxs := Argsort(Flat(rank.ids));
    var sortedTokens := Gather(SlotRows(rank.x, k), idxs);
    var groups := OwnerCounts(tokensPerExpert, perRank, ranks);
    TotalsSum(groups);
    if Sum(Totals(groups)) != |sortedTokens| {
      return None;
    }
    SplitRoundTrip(sortedTokens, Totals(groups));
    SizedLengths(groups, SplitBy(sortedTokens, Totals(groups)));
    p := Some(Prepared(idxs, groups, SplitBy(sortedTokens, Totals(groups))));
  }

  /**
   The reference for one rank's own tokens, written out in numbers where the experts keep the width, or nothing when it
   has nothing to route.
   */
  ghost predicate RankServed(f: Expert, rank: RankInput, k: nat, n: nat, out: Option<seq<Row>>)
    requires ValidRank(rank, k, n)
  {
    && (out.Some? <==> |rank.ids| * k > 0)
    && (out.Some? ==> out.value == Naive(f, rank.x, rank.ids, rank.weights))
    && (out.Some? ==> forall d: nat | KeepsWidth(f, n, rank.x, d) ::
          RoutedSums(f, rank.x, rank.ids, rank.weights, k, d, out.value))
  }

  /** After the reverse exchange: put the rows back in slot order and combine. */
  method Finish(f: Expert, rank: RankInput, p: Prepared, k: nat, n: nat, perRank: nat, returned: seq<seq<Row>>)
    returns (out: Option<seq<Row>>)
    requires ValidRank(rank, k, n) && PreparedFor(p, rank, k, n, perRank, |returned|)
    requires returned == Computed(f, 0, perRank, p.groups, p.sends)
    ensures RankServed(f, rank, k, n, out)
  {
    var keys, rows := Flat(rank.ids), SlotRows(rank.x, k);
    ghost var counts := TokensPerExpert(rank.ids, n);
    FlatShape(rank.ids, k, n);
    CountsAddUpIffDistinct(rank.ids, k, n);
    KeysOfAllOwners(p.groups, 0, perRank);
    PiecewiseIsWhole(f, 0, perRank, p.groups, p.sends);
    var outs := Concat(returned);
    SortedRowsMeetTheirExperts(f, 0, keys, p.idxs, counts, rows, outs);
    var newX := ScatterRows(p.idxs, outs);
    ScatterUndoesSort(f, 0, keys, p.idxs, rows, outs, newX.value);
    out := Combine(newX.value, |rank.ids|, k, rank.weights);
    if out.Some? {
      CombinedIsNaive(f, rank.x, rank.ids, rank.weights, k, n, newX.value, out.value);
      forall d: nat | KeepsWidth(f, n, rank.x, d)
        ensures RoutedSums(f, rank.x, rank.ids, rank.weights, k, d, out.value)
      {
        NaiveIsRoutedSums(f, rank.x, rank.ids, rank.weights, k, n, d);
      }
    }
  }

  // ---------- all ranks together ----------

  ghost predicate AllPrepared(prepared: seq<Prepared>, inputs: seq<RankInput>, k: nat, n: nat, perRank: nat) {
    && |prepared| <= |inputs|
    && forall s | 0 <= s < |prepared| :: PreparedFor(prepared[s], inputs[s], k, n, perRank, |inputs|)
  }

  /** What rank `o` sends back in the reverse exchange. */
  ghost predicate OwnerAnswered(f: Expert, prepared: seq<Prepared>, o: nat, perRank: nat, back: seq<seq<Row>>) {
    && |back| == |prepared|
    && forall s | 0 <= s < |prepared| ::
         o < |prepared[s].groups| == |prepared[s].sends| && |prepared[s].sends[o]| == Sum(prepared[s].groups[o]) &&
         back[s] == MapExperts(f, Expand(prepared[s].groups[o], perRank * o), prepared[s].sends[o])
  }

  lemma ExchangedSizesAgree(prepared: seq<Prepared>, inputs: seq<RankInput>, k: nat, n: nat, perRank: nat, o: nat)
    requires AllPrepared(prepared, inputs, k, n, perRank) && o < |inputs|
    ensures forall s | 0 <= s < |prepared| ::
      o < |prepared[s].groups| == |prepared[s].sends| && |prepared[s].groups[o]| == perRank &&
      |prepared[s].sends[o]| == Sum(prepared[s].groups[o])
  {
    forall s | 0 <= s < |prepared|
      ensures o < |prepared[s].groups| == |prepared[s].sends|
      ensures |prepared[s].groups[o]| == perRank
      ensures |prepared[s].sends[o]| == Sum(prepared[s].groups[o])
    {
      assert PreparedFor(prepared[s], inputs[s], k, n, perRank, |inputs|);
    }
  }

  /** Owner `o` between the exchanges: the counts it was sent predict the rows it was sent. */
  method AnswerAll(f: Expert, prepared: seq<Prepared>, inputs: seq<RankInput>, k: nat, n: nat, perRank: nat, o: nat)
    returns (back: seq<seq<Row>>)
    requires perRank > 0 && AllPrepared(prepared, inputs, k, n, perRank) && o < |inputs|
    ensures OwnerAnswered(f, prepared, o, perRank, back)
  {
    ExchangedSizesAgree(prepared, inputs, k, n, perRank, o);
    var groups := Received(seq(|prepared|, s requires 0 <= s < |prepared| => prepared[s].groups), o);
    var pieces := Received(seq(|prepared|, s requires 0 <= s < |prepared| => prepared[s].sends), o);
    assert forall s | 0 <= s < |prepared| :: groups[s] == prepared[s].groups[o] && pieces[s] == prepared[s].sends[o];
    assert Sized(groups, pieces);
    back := OwnerSide(f, perRank * o, perRank, groups, pieces);
    forall s: nat | s < |prepared|
      ensures back[s] == MapExperts(f, Expand(prepared[s].groups[o], perRank * o), prepared[s].sends[o])
    {
      ComputedAt(f, perRank * o, 0, groups, pieces, s);
    }
  }

  ghost predicate AllAnswered(f: Expert, prepared: seq<Prepared>, perRank: nat, backSent: seq<seq<seq<Row>>>) {
    && (forall o | 0 <= o < |backSent| :: |backSent[o]| == |prepared|)
    && forall o: nat | o < |backSent| :: OwnerAnswered(f, prepared, o, perRank, backSent[o])
  }

  lemma ReturnedIsComputed(f: Expert, prepared: seq<Prepared>, inputs: seq<RankInput>, k: nat, n: nat, perRank: nat,
                           backSent: seq<seq<seq<Row>>>, s: nat)
    requires AllPrepared(prepared, inputs, k, n, perRank) && |prepared| == |inputs| == |backSent| && s < |inputs|
    requires AllAnswered(f, prepared, perRank, backSent)
    ensures Received(backSent, s) == Computed(f, 0, perRank, prepared[s].groups, prepared[s].sends)
  {
    var p := prepared[s];
    assert PreparedFor(p, inputs[s], k, n, perRank, |inputs|);
    forall o: nat | o < |inputs|
      ensures Received(backSent, s)[o] == Computed(f, 0, perRank, p.groups, p.sends)[o]
    {
      assert OwnerAnswered(f, prepared, o, perRank, backSent[o]);
      ComputedAt(f, 0, perRank, p.groups, p.sends, o);
    }
  }

  /** The reverse exchange as rank `s` sees it, and what it makes of it. */
  method FinishRank(f: Expert, inputs: seq<RankInput>, prepared: seq<Prepared>, k: nat, n: nat, perRank: nat,
                    backSent: seq<seq<seq<Row>>>, s: nat) returns (out: Option<seq<Row>>)
    requires AllPrepared(prepared, inputs, k, n, perRank) && |prepared| == |inputs| == |backSent| && s < |inputs|
    requires AllAnswered(f, prepared, perRank, backSent)
    requires ValidRank(inputs[s], k, n)
    ensures RankServed(f, inputs[s], k, n, out)
  {
    ReturnedIsComputed(f, prepared, inputs, k, n, perRank, backSent, s);
    assert PreparedFor(prepared[s], inputs[s], k, n, perRank, |inputs|);
    out := Finish(f, inputs[s], prepared[s], k, n, perRank, Received(backSent, s));
  }

  /** Every rank up to the exchange of rows, which completes only if no rank raises at its split. */
  method PrepareAll(n: nat, perRank: nat, inputs: seq<RankInput>, k: nat) returns (prepared: Option<seq<Prepared>>)
    requires n == perRank * |inputs|
    requires forall s | 0 <= s < |inputs| :: ValidRank(inputs[s], k, n)
    ensures prepared.Some? <==> forall s | 0 <= s < |inputs| :: AllDistinct(inputs[s].ids)
    ensures prepared.Some? ==> |prepared.value| == |inputs| && AllPrepared(prepared.value, inputs, k, n, perRank)
  {
    var ready: seq<Prepared> := [];
    for s := 0 to |inputs|
      invariant |ready| == s && AllPrepared(ready, inputs, k, n, perRank)
      invariant forall u | 0 <= u < s :: AllDistinct(inputs[u].ids)
    {
      var p := Prepare(inputs[s], k, n, perRank, |inputs|);
      if p.None? {
        return None;
      }
      ready := ready + [p.value];
    }
    prepared := Some(ready);
  }

  method AnswerFromAllOwners(f: Expert, prepared: seq<Prepared>, inputs: seq<RankInput>, k: nat, n: nat, perRank: nat)
    returns (backSent: seq<seq<seq<Row>>>)
    requires perRank > 0 && AllPrepared(prepared, inputs, k, n, perRank)
    ensures |backSent| == |inputs| && AllAnswered(f, prepared, perRank, backSent)
  {
    backSent := [];
    for o := 0 to |inputs|
      invariant |backSent| == o && AllAnswered(f, prepared, perRank, backSent)
    {
      var back := AnswerAll(f, prepared, inputs, k, n, perRank, o);
      backSent := backSent + [back];
    }
  }

  /**
   `moe_infer` run by every rank of an expert-parallel group: the ranks advance phase by phase, meeting at the
   exchanges. The rows are exchanged if and only if no rank has a token that repeats an expert; then each rank
   with something to route gets exactly the reference for its own tokens.
   */
  method MoeInferAllRanks(f: Expert, n: nat, perRank: nat, inputs: seq<RankInput>, k: nat)
    returns (outs: Option<seq<Option<seq<Row>>>>)
    requires perRank > 0 && n == perRank * |inputs|
    requires forall s | 0 <= s < |inputs| :: ValidRank(inputs[s], k, n)
    ensures outs.Some? <==> forall s | 0 <= s < |inputs| :: AllDistinct(inputs[s].ids)
    ensures outs.Some? ==> |outs.value| == |inputs|
    ensures outs.Some? ==> forall s | 0 <= s < |inputs| :: RankServed(f, inputs[s], k, n, outs.value[s])
  {
    var prepared := PrepareAll(n, perRank, inputs, k);
    if prepared.None? {
      return None;
    }
    var backSent := AnswerFromAllOwners(f, prepared.value, inputs, k, n, perRank);
    hide *;
    var served: seq<Option<seq<Row>>> := [];
    for s := 0 to |inputs|
      invariant |served| == s
      invariant forall u | 0 <= u < s :: RankServed(f, inputs[u], k, n, served[u])
    {
      var out := FinishRank(f, inputs, prepared.value, k, n, perRank, backSent, s);
      served := served + [out];
    }
    outs := Some(served);
  }
}
