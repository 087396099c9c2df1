/**
 Three ways the MoE benchmark computes one layer: per-expert blocks after sorting, batched matrix-vector products on
 index-selected weights, and Einstein sums. Weights are matrices of reals; the activation is any function on reals.
 */
module BatchedMoe {
  import opened Options
  import opened Permutations
  import opened MoeDispatch
  import opened Sums

  type Matrix = seq<Row>
  type Activation = real -> real

  datatype Projections = Projections(gate: seq<Matrix>, up: seq<Matrix>, down: seq<Matrix>)

  predicate ValidProjections(p: Projections, n: nat) {
    |p.gate| == |p.up| == |p.down| == n
  }

  function Dot(a: Row, b: Row): real {
    if a == [] || b == [] then 0.0 else a[0] * b[0] + Dot(a[1..], b[1..])
  }

  lemma {:induction false} DotCommutes(a: Row, b: Row)
    ensures Dot(a, b) == Dot(b, a)
  {
    if a != [] && b != [] {
      DotCommutes(a[1..], b[1..]);
      assert a[0] * b[0] == b[0] * a[0];
    }
  }

  /** `act_fn(gate) * up`. */
  function Gated(act: Activation, gate: Row, up: Row): Row {
    var n := if |gate| <= |up| then |gate| else |up|;
    seq(n, i requires 0 <= i < n => act(gate[i]) * up[i])
  }

  // ---------- sorted blocks ----------

  /** `torch.mm(block, w.t())`: row by row, the block's row against every row of `w`. */
  function MmTransposed(block: Matrix, w: Matrix): (r: Matrix)
    ensures |r| == |block|
  {
    seq(|block|, i requires 0 <= i < |block| => seq(|w|, c requires 0 <= c < |w| => Dot(block[i], w[c])))
  }

  /** The body of the expert loop for one block of tokens. */
  function ExpertBlock(act: Activation, p: Projections, e: nat, block: Matrix): (r: Matrix)
    requires e < |p.gate| == |p.up| == |p.down|
    ensures |r| == |block|
  {
    var gateBuf := MmTransposed(block, p.gate[e]);
    var upBuf := MmTransposed(block, p.up[e]);
    var inter := seq(|block|, i requires 0 <= i < |block| => Gated(act, gateBuf[i], upBuf[i]));
    MmTransposed(inter, p.down[e])
  }

  /** One row through one expert, as the block code computes it. */
  function RowExpert(act: Activation, p: Projections): Expert {
    (e: nat, row: Row) => if e < |p.gate| == |p.up| == |p.down| then ExpertBlock(act, p, e, [row])[0] else []
  }

  /** A block is processed row by row, so the dispatch theorem for row experts applies to it. */
  lemma BlocksAreRowwise(act: Activation, p: Projections, e: nat, block: Matrix)
    requires e < |p.gate| == |p.up| == |p.down|
    ensures ExpertBlock(act, p, e, block) == RunBlock(RowExpert(act, p), e, block)
  {
  }

  // ---------- batched products ----------

  /** One slice of `torch.bmm`: a matrix applied to a column. */
  function MatVec(w: Matrix, v: Row): Row {
    seq(|w|, c requires 0 <= c < |w| => Dot(w[c], v))
  }

  /** One routed row through the matrices selected for it. */
  function BmmRow(act: Activation, p: Projections, e: nat, row: Row): Row
    requires e < |p.gate| == |p.up| == |p.down|
  {
    MatVec(p.down[e], Gated(act, MatVec(p.gate[e], row), MatVec(p.up[e], row)))
  }

  /** Select each slot's matrices, repeat each token row `k` times, and multiply slot by slot. */
  function BmmOutput(act: Activation, p: Projections, n: nat, x: seq<Row>, ids: seq<seq<nat>>, k: nat): (r: seq<Row>)
    requires ValidProjections(p, n) && |x| == |ids| && ValidIds(ids, k, n)
    ensures |r| == |ids| * k == |Flat(ids)| && InRange(Flat(ids), n)
    ensures forall q | 0 <= q < |r| :: r[q] == BmmRow(act, p, Flat(ids)[q], SlotRows(x, k)[q])
  {
    FlatShape(ids, k, n);
    var flatIds := Flat(ids);
    var gateSel, upSel, downSel := Gather(p.gate, flatIds), Gather(p.up, flatIds), Gather(p.down, flatIds);
    var xRep := SlotRows(x, k);
    var gateBuf := seq(|flatIds|, q requires 0 <= q < |flatIds| => MatVec(gateSel[q], xRep[q]));
    var upBuf := seq(|flatIds|, q requires 0 <= q < |flatIds| => MatVec(upSel[q], xRep[q]));
    var inter := seq(|flatIds|, q requires 0 <= q < |flatIds| => Gated(act, gateBuf[q], upBuf[q]));
    seq(|flatIds|, q requires 0 <= q < |flatIds| => MatVec(downSel[q], inter[q]))
  }

  /** `moe_batched_bmm`. */
  function BatchedBmm(act: Activation, p: Projections, n: nat, x: seq<Row>, ids: seq<seq<nat>>,
                      weights: seq<seq<real>>, k: nat): (r: seq<Row>)
    requires ValidProjections(p, n) && |x| == |ids| && ValidIds(ids, k, n) && ValidWeights(weights, |ids|, k)
    ensures |r| == |ids|
  {
    var out := BmmOutput(act, p, n, x, ids, k);
    seq(|ids|, t requires 0 <= t < |ids| => WeightedSum(weights[t], Block(out, t, k, |ids|)))
  }

  /** Contracting the hidden index of `x` with that of a selected matrix. */
  function Contract(v: Row, w: Matrix): Row {
    seq(|w|, c requires 0 <= c < |w| => Dot(v, w[c]))
  }

  /** `moe_batched_einsum`: the same selection viewed per token and choice, contracted without repeating rows. */
  function BatchedEinsum(act: Activation, p: Projections, n: nat, x: seq<Row>, ids: seq<seq<nat>>,
                         weights: seq<seq<real>>, k: nat): (r: seq<Row>)
    requires ValidProjections(p, n) && |x| == |ids| && ValidIds(ids, k, n) && ValidWeights(weights, |ids|, k)
    ensures |r| == |ids|
  {
    seq(|ids|, t requires 0 <= t < |ids| =>
      var inter := seq(k, j requires 0 <= j < k =>
        Gated(act, Contract(x[t], p.gate[ids[t][j]]), Contract(x[t], p.up[ids[t][j]])));
      WeightedSum(weights[t], seq(k, j requires 0 <= j < k => Contract(inter[j], p.down[ids[t][j]]))))
  }

  lemma MatVecIsContract(w: Matrix, v: Row)
    ensures MatVec(w, v) == Contract(v, w)
  {
    forall c | 0 <= c < |w| ensures Dot(w[c], v) == Dot(v, w[c]) {
      DotCommutes(w[c], v);
    }
  }

  /** The row expert in closed form. */
  lemma RowExpertIsMlp(act: Activation, p: Projections, e: nat, row: Row)
    requires e < |p.gate| == |p.up| == |p.down|
    ensures RowExpert(act, p)(e, row) ==
            Contract(Gated(act, Contract(row, p.gate[e]), Contract(row, p.up[e])), p.down[e])
  {
    assert MmTransposed([row], p.gate[e])[0] == Contract(row, p.gate[e]);
    assert MmTransposed([row], p.up[e])[0] == Contract(row, p.up[e]);
  }

  // ---------- the expert in numbers ----------

  /** Every expert has `m` gate and up rows of width `d`, and `d` down rows of width `m`. */
  ghost predicate ShapedProjections(p: Projections, n: nat, d: nat, m: nat) {
    && ValidProjections(p, n)
    && forall e | 0 <= e < n ::
         && |p.gate[e]| == |p.up[e]| == m && |p.down[e]| == d
         && (forall i | 0 <= i < m :: |p.gate[e][i]| == |p.up[e][i]| == d)
         && (forall c | 0 <= c < d :: |p.down[e][c]| == m)
  }

  function ProductTerm(a: Row, b: Row): nat -> real {
    (i: nat) => if i < |a| && i < |b| then a[i] * b[i] else 0.0
  }

  lemma {:induction false} DotIsSum(a: Row, b: Row)
    requires |a| == |b|
    ensures Dot(a, b) == SumOf(|a|, ProductTerm(a, b))
  {
    if a != [] {
      DotIsSum(a[1..], b[1..]);
      SumFront(|a|, ProductTerm(a, b), ProductTerm(a[1..], b[1..]));
    }
  }

  /** One hidden unit of a row: its gate product, activated, times its up product. */
  function Unit(act: Activation, gate: Row, up: Row, row: Row): real {
    act(SumOf(|row|, ProductTerm(row, gate))) * SumOf(|row|, ProductTerm(row, up))
  }

  /** The hidden unit's share of an output: times its down weight. */
  function UnitTerm(act: Activation, gate: Matrix, up: Matrix, down: Row, row: Row): nat -> real {
    (i: nat) => if i < |gate| && i < |up| && i < |down| then Unit(act, gate[i], up[i], row) * down[i] else 0.0
  }

  lemma ContractEntry(row: Row, w: Matrix)
    requires forall c | 0 <= c < |w| :: |w[c]| == |row|
    ensures |Contract(row, w)| == |w|
    ensures forall c | 0 <= c < |w| :: Contract(row, w)[c] == SumOf(|row|, ProductTerm(row, w[c]))
  {
    forall c | 0 <= c < |w| ensures Dot(row, w[c]) == SumOf(|row|, ProductTerm(row, w[c])) {
      DotIsSum(row, w[c]);
    }
  }

  /** The hidden units of one row. */
  lemma UnitEntry(act: Activation, gate: Matrix, up: Matrix, row: Row)
    requires |gate| == |up| && forall i | 0 <= i < |gate| :: |gate[i]| == |up[i]| == |row|
    ensures var inter := Gated(act, Contract(row, gate), Contract(row, up));
            && |inter| == |gate|
            && forall i | 0 <= i < |gate| :: inter[i] == Unit(act, gate[i], up[i], row)
  {
    ContractEntry(row, gate);
    ContractEntry(row, up);
    hide Contract, SumOf;
  }

  lemma UnitsAddUp(act: Activation, gate: Matrix, up: Matrix, inter: Row, down: Row, row: Row)
    requires |inter| == |down| == |gate| == |up|
    requires forall i | 0 <= i < |gate| :: inter[i] == Unit(act, gate[i], up[i], row)
    ensures SumOf(|gate|, ProductTerm(inter, down)) == SumOf(|gate|, UnitTerm(act, gate, up, down, row))
  {
    hide Unit, SumOf;
    SumSame(|gate|, ProductTerm(inter, down), UnitTerm(act, gate, up, down, row));
  }

  /** One row through gate, up and down matrices. */
  lemma MlpEntry(act: Activation, gate: Matrix, up: Matrix, down: Matrix, row: Row)
    requires |gate| == |up| && forall i | 0 <= i < |gate| :: |gate[i]| == |up[i]| == |row|
    requires forall c | 0 <= c < |down| :: |down[c]| == |gate|
    ensures var out := Contract(Gated(act, Contract(row, gate), Contract(row, up)), down);
            && |out| == |down|
            && forall c | 0 <= c < |down| :: out[c] == SumOf(|gate|, UnitTerm(act, gate, up, down[c], row))
  {
    hide Contract, Gated, SumOf, ProductTerm, UnitTerm;
    var inter := Gated(act, Contract(row, gate), Contract(row, up));
    UnitEntry(act, gate, up, row);
    ContractEntry(inter, down);
    forall c | 0 <= c < |down|
      ensures SumOf(|gate|, ProductTerm(inter, down[c])) == SumOf(|gate|, UnitTerm(act, gate, up, down[c], row))
    {
      UnitsAddUp(act, gate, up, inter, down[c], row);
    }
  }

  /** What an expert makes of a row, entry by entry, in sums and products alone. */
  lemma RowExpertEntry(act: Activation, p: Projections, n: nat, d: nat, m: nat, e: nat, row: Row)
    requires ShapedProjections(p, n, d, m) && e < n && |row| == d
    ensures |RowExpert(act, p)(e, row)| == d
    ensures forall c: nat | c < d ::
              RowExpert(act, p)(e, row)[c] == SumOf(m, UnitTerm(act, p.gate[e], p.up[e], p.down[e][c], row))
  {
    hide Contract, Gated, UnitTerm, RowExpert;
    RowExpertIsMlp(act, p, e, row);
    MlpEntry(act, p.gate[e], p.up[e], p.down[e], row);
  }

  lemma RowExpertKeepsWidth(act: Activation, p: Projections, n: nat, d: nat, m: nat, x: seq<Row>)
    requires ShapedProjections(p, n, d, m) && forall t | 0 <= t < |x| :: |x[t]| == d
    ensures KeepsWidth(RowExpert(act, p), n, x, d)
  {
    forall e: nat, row | e < n && |row| == d ensures |RowExpert(act, p)(e, row)| == d {
      RowExpertEntry(act, p, n, d, m, e, row);
    }
  }

  lemma EinsumIsNaive(act: Activation, p: Projections, n: nat, x: seq<Row>, ids: seq<seq<nat>>,
                      weights: seq<seq<real>>, k: nat)
    requires ValidProjections(p, n) && |x| == |ids| && ValidIds(ids, k, n) && ValidWeights(weights, |ids|, k)
    ensures BatchedEinsum(act, p, n, x, ids, weights, k) == Naive(RowExpert(act, p), x, ids, weights)
  {
    var f := RowExpert(act, p);
    forall t | 0 <= t < |ids|
      ensures BatchedEinsum(act, p, n, x, ids, weights, k)[t] == Naive(f, x, ids, weights)[t]
    {
      var inter := seq(k, j requires 0 <= j < k =>
        Gated(act, Contract(x[t], p.gate[ids[t][j]]), Contract(x[t], p.up[ids[t][j]])));
      var outs := seq(k, j requires 0 <= j < k => Contract(inter[j], p.down[ids[t][j]]));
      var want := seq(k, j requires 0 <= j < k => f(ids[t][j], x[t]));
      forall j: nat | j < k ensures outs[j] == want[j] {
        RowExpertIsMlp(act, p, ids[t][j], x[t]);
      }
      assert outs == want;
    }
  }

  lemma BmmIsNaive(act: Activation, p: Projections, n: nat, x: seq<Row>, ids: seq<seq<nat>>,
                   weights: seq<seq<real>>, k: nat)
    requires ValidProjections(p, n) && |x| == |ids| && ValidIds(ids, k, n) && ValidWeights(weights, |ids|, k)
    ensures BatchedBmm(act, p, n, x, ids, weights, k) == Naive(RowExpert(act, p), x, ids, weights)
  {
    var f, out := RowExpert(act, p), BmmOutput(act, p, n, x, ids, k);
    forall q: nat | q < |out| ensures out[q] == f(Flat(ids)[q], SlotRows(x, k)[q]) {
      var e, row := Flat(ids)[q], SlotRows(x, k)[q];
      RowExpertIsMlp(act, p, e, row);
      MatVecIsContract(p.gate[e], row);
      MatVecIsContract(p.up[e], row);
      MatVecIsContract(p.down[e], Gated(act, MatVec(p.gate[e], row), MatVec(p.up[e], row)));
    }
    assert InPlace(f, 0, Flat(ids), SlotRows(x, k), out);
    CombinedIsNaive(f, x, ids, weights, k, n, out, BatchedBmm(act, p, n, x, ids, weights, k));
  }

  /** The expert loop of `moe_expert_float`: each expert's block of sorted rows through its three products. */
  method RunExpertBlocks(act: Activation, p: Projections, sortedTokens: seq<Row>, tokensPerExpert: seq<nat>)
    returns (outs: seq<Row>)
    requires ValidProjections(p, |tokensPerExpert|) && Sum(tokensPerExpert) <= |sortedTokens|
    ensures outs == MapExperts(RowExpert(act, p), Expand(tokensPerExpert, 0), sortedTokens[..Sum(tokensPerExpert)])
  {
    hide RowExpert, MapExperts, Expand, ExpertBlock;
    ghost var f := RowExpert(act, p);
    outs := [];
    var startIdx := 0;
    for i := 0 to |tokensPerExpert|
      invariant startIdx == Sum(tokensPerExpert[..i]) <= |sortedTokens|
      invariant outs == MapExperts(f, Expand(tokensPerExpert[..i], 0), sortedTokens[..startIdx])
    {
      var numTokens := tokensPerExpert[i];
      var endIdx := startIdx + numTokens;
      SumPrefix(tokensPerExpert, i);
      ExpandPrefix(tokensPerExpert, i, 0);
      assert sortedTokens[..endIdx] == sortedTokens[..startIdx] + sortedTokens[startIdx..endIdx];
      if numTokens == 0 {
        continue;
      }
      var block := sortedTokens[startIdx..endIdx];
      var expertOut := ExpertBlock(act, p, i, block);
      BlocksAreRowwise(act, p, i, block);
      MapExpertsAppend(f, Expand(tokensPerExpert[..i], 0), Repeat<nat>(i, numTokens), sortedTokens[..startIdx], block);
      outs := outs + expertOut;
      startIdx := endIdx;
    }
    assert tokensPerExpert[..|tokensPerExpert|] == tokensPerExpert;
  }

  /**
   The sorted path agrees with both batched paths whenever it returns, and it returns exactly when there is something
   to route and no token repeats an expert; the batched paths do not mind repeats.
   */
  method MoeExpertFloat(act: Activation, p: Projections, n: nat, x: seq<Row>, ids: seq<seq<nat>>,
                        weights: seq<seq<real>>, k: nat) returns (out: Option<seq<Row>>)
    requires ValidProjections(p, n) && |x| == |ids| && ValidIds(ids, k, n) && ValidWeights(weights, |ids|, k)
    ensures out.Some? <==> |ids| * k > 0 && AllDistinct(ids)
    ensures out.Some? ==> out.value == BatchedBmm(act, p, n, x, ids, weights, k)
    ensures out.Some? ==> out.value == BatchedEinsum(act, p, n, x, ids, weights, k)
    ensures out.Some? ==>
              forall d: nat, m: nat | ShapedProjections(p, n, d, m) && (forall t | 0 <= t < |x| :: |x[t]| == d) ::
                RoutedSums(RowExpert(act, p), x, ids, weights, k, d, out.value)
  {
    hide RowExpert, BatchedBmm, BatchedEinsum, BmmOutput, Naive, MapExperts, Expand, SlotRows, Flat;
    ghost var f := RowExpert(act, p);
    var tokensPerExpert := TokensPerExpert(ids, n);
    FlatShape(ids, k, n);
    CountsAddUpIffDistinct(ids, k, n);
    var keys, rows := Flat(ids), SlotRows(x, k);
    var idxs := Argsort(keys);
    var sortedTokens := Gather(rows, idxs);
    var outs := RunExpertBlocks(act, p, sortedTokens, tokensPerExpert);
    var newX := ScatterRows(idxs, outs);
    if newX.None? {
      return None;
    }
    assert sortedTokens[..|sortedTokens|] == sortedTokens;
    SortedRowsMeetTheirExperts(f, 0, keys, idxs, tokensPerExpert, rows, outs);
    ScatterUndoesSort(f, 0, keys, idxs, rows, outs, newX.value);
    out := Combine(newX.value, |ids|, k, weights);
    if out.Some? {
      CombinedIsNaive(f, x, ids, weights, k, n, newX.value, out.value);
      BmmIsNaive(act, p, n, x, ids, weights, k);
      EinsumIsNaive(act, p, n, x, ids, weights, k);
      forall d: nat, m: nat | ShapedProjections(p, n, d, m) && (forall t | 0 <= t < |x| :: |x[t]| == d)
        ensures RoutedSums(f, x, ids, weights, k, d, out.value)
      {
        RowExpertKeepsWidth(act, p, n, d, m, x);
        NaiveIsRoutedSums(f, x, ids, weights, k, n, d);
      }
    }
  }
}
