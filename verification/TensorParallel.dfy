/**
 Splitting the experts' intermediate dimension over the NUMA nodes, and the recursive in-place sum that puts the nodes'
 partial outputs back together.
 */
module TensorParallel {
  import opened Options
  import opened PrefixSums
  import opened Sums

  datatype Error = NoWorkerPool | DivideByZero | NotMultipleOfNodes | NotMultipleOfBlock | TooSmall

  datatype Result = Ok(sizes: seq<nat>) | Err(error: Error)

  const QK_K := 256

  // ---------- the split ----------

  /** One slice per node; together they tile the dimension. */
  predicate Tiles(sizes: seq<nat>, total: nat, nodes: nat) {
    |sizes| == nodes && Offset(sizes, nodes) == total
  }

  /** Whole blocks, at least one, and no two slices more than one block apart, larger ones first. */
  predicate Balanced(sizes: seq<nat>) {
    && (forall i | 0 <= i < |sizes| :: sizes[i] > 0 && sizes[i] % QK_K == 0)
    && (forall i, k | 0 <= i < k < |sizes| :: sizes[k] <= sizes[i] <= sizes[k] + QK_K)
  }

  predicate Equal(sizes: seq<nat>) {
    forall i, k | 0 <= i < k < |sizes| :: sizes[i] == sizes[k]
  }

  /**
   `pool` is the number of subpools, if there is a pool; nothing checks it before the remainder is taken. The first
   divisibility check applies to both back ends.
   */
  method Split(intermediateSize: nat, pool: Option<nat>, isLlamafile: bool) returns (r: Result)
    ensures r == Err(NoWorkerPool) <==> pool.None?
    ensures r == Err(DivideByZero) <==> pool == Some(0)
    ensures r == Err(NotMultipleOfNodes) <==> pool.Some? && pool.value > 0 && intermediateSize % pool.value != 0
    ensures r == Err(NotMultipleOfBlock) <==>
              && pool.Some? && pool.value > 0 && intermediateSize % pool.value == 0 && isLlamafile
              && intermediateSize % QK_K != 0
    ensures r == Err(TooSmall) <==>
              && pool.Some? && pool.value > 0 && intermediateSize % pool.value == 0 && isLlamafile
              && intermediateSize % QK_K == 0 && intermediateSize < QK_K * pool.value
    ensures r.Ok? ==> Tiles(r.sizes, intermediateSize, pool.value)
    ensures r.Ok? ==> if isLlamafile then Balanced(r.sizes) else Equal(r.sizes)
  {
    if pool.None? {
      return Err(NoWorkerPool);
    }
    var tpCount := pool.value;
    if tpCount == 0 {
      return Err(DivideByZero);
    }
    if intermediateSize % tpCount != 0 {
      return Err(NotMultipleOfNodes);
    }
    if isLlamafile {
      if intermediateSize % QK_K != 0 {
        return Err(NotMultipleOfBlock);
      }
      var numBlocks := intermediateSize / QK_K;
      var baseBlocks := numBlocks / tpCount;
      var extraBlocks := numBlocks % tpCount;
      Quotient(numBlocks, tpCount);
      if baseBlocks == 0 {
        return Err(TooSmall);
      }
      var sizes := SplitBlocks(baseBlocks, extraBlocks, tpCount);
      r := Ok(sizes);
    } else {
      var sizes := SplitEqually(intermediateSize / tpCount, tpCount);
      Quotient(intermediateSize, tpCount);
      r := Ok(sizes);
    }
  }

  lemma Quotient(n: nat, d: nat)
    requires d > 0
    ensures n / d == 0 <==> n < d
    ensures n == n / d * d + n % d
  {
  }

  /** The first `extraBlocks` slices get one block more. */
  method SplitBlocks(baseBlocks: nat, extraBlocks: nat, tpCount: nat) returns (sizes: seq<nat>)
    requires baseBlocks > 0 && extraBlocks < tpCount
    ensures Tiles(sizes, (baseBlocks * tpCount + extraBlocks) * QK_K, tpCount) && Balanced(sizes)
  {
    sizes := [];
    ghost var blocksDone := 0;
    for i := 0 to tpCount
      invariant |sizes| == i
      invariant forall k | 0 <= k < i :: sizes[k] == (baseBlocks + if k < extraBlocks then 1 else 0) * QK_K
      invariant blocksDone == baseBlocks * i + if i < extraBlocks then i else extraBlocks
      invariant Offset(sizes, i) == blocksDone * QK_K
    {
      var blocks := baseBlocks + if i < extraBlocks then 1 else 0;
      OffsetOfPrefix(sizes, [blocks * QK_K], i);
      assert baseBlocks * (i + 1) == baseBlocks * i + baseBlocks;
      sizes := sizes + [blocks * QK_K];
      blocksDone := blocksDone + blocks;
    }
  }

  method SplitEqually(size: nat, tpCount: nat) returns (sizes: seq<nat>)
    ensures Tiles(sizes, size * tpCount, tpCount) && forall i | 0 <= i < |sizes| :: sizes[i] == size
  {
    sizes := [];
    for i := 0 to tpCount
      invariant |sizes| == i
      invariant forall k | 0 <= k < i :: sizes[k] == size
      invariant Offset(sizes, i) == size * i
    {
      OffsetOfPrefix(sizes, [size], i);
      assert size * (i + 1) == size * i + size;
      sizes := sizes + [size];
    }
  }

  // ---------- the reduction ----------

  function ColumnSum(rows: seq<seq<real>>, i: nat): real
    requires forall r | 0 <= r < |rows| :: i < |rows[r]|
  {
    if rows == [] then 0.0 else ColumnSum(rows[..|rows| - 1], i) + rows[|rows| - 1][i]
  }

  lemma {:induction false} ColumnSumSplit(front: seq<seq<real>>, back: seq<seq<real>>, i: nat)
    requires forall r | 0 <= r < |front| :: i < |front[r]|
    requires forall r | 0 <= r < |back| :: i < |back[r]|
    ensures ColumnSum(front + back, i) == ColumnSum(front, i) + ColumnSum(back, i)
  {
    if back == [] {
      assert front + back == front;
    } else {
      ColumnSumSplit(front, back[..|back| - 1], i);
      assert (front + back)[..|front + back| - 1] == front + back[..|back| - 1];
    }
  }

  lemma FewRows(rows: seq<seq<real>>, i: nat)
    requires 1 <= |rows| <= 2 && forall r | 0 <= r < |rows| :: i < |rows[r]|
    ensures ColumnSum(rows, i) == if |rows| == 1 then rows[0][i] else rows[0][i] + rows[1][i]
  {
    assert rows[..|rows| - 1] == if |rows| == 1 then [] else [rows[0]];
    assert ColumnSum([rows[0]][..0], i) == 0.0;
  }

  lemma SumOfHalves(rows: seq<seq<real>>, part1: nat, i: nat)
    requires part1 <= |rows| && forall r | 0 <= r < |rows| :: i < |rows[r]|
    ensures ColumnSum(rows, i) == ColumnSum(rows[..part1], i) + ColumnSum(rows[part1..], i)
  {
    ColumnSumSplit(rows[..part1], rows[part1..], i);
    assert rows[..part1] + rows[part1..] == rows;
  }

  predicate DistinctRows(data: seq<array<real>>) {
    forall r, q | 0 <= r < q < |data| :: data[r] != data[q]
  }

  lemma HalvesAreApart(data: seq<array<real>>, part1: nat)
    requires DistinctRows(data) && 0 < part1 < |data|
    ensures DistinctRows(data[..part1]) && DistinctRows(data[part1..])
    ensures forall a | a in data[..part1] :: a !in data[part1..]
    ensures data[0] == data[..part1][0] && data[part1] == data[part1..][0] && data[0] != data[part1]
  {
  }

  function Contents(data: seq<array<real>>): (rows: seq<seq<real>>)
    reads data
    ensures |rows| == |data| && forall r | 0 <= r < |rows| :: rows[r] == data[r][..]
  {
    seq(|data|, r requires 0 <= r < |data| reads data => data[r][..])
  }

  /** Adds row `from` into row `to` over `[begin, end)`. */
  method AddInto(to: array<real>, from: array<real>, begin: nat, end: nat)
    requires to != from && end <= to.Length && end <= from.Length
    modifies to
    ensures forall i | 0 <= i < to.Length ::
              to[i] == if begin <= i < end then old(to[i]) + from[i] else old(to[i])
  {
    var i := begin;
    while i < end
      invariant begin <= i && (i <= end || i == begin)
      invariant forall k | 0 <= k < to.Length :: to[k] == if begin <= k < i then old(to[k]) + from[k] else old(to[k])
    {
      to[i] := to[i] + from[i];
      i := i + 1;
    }
  }

  /** Row 0 ends up with the sum of all rows over `[begin, end)`; outside it nothing changes, in any row. */
  method ReduceSum(data: seq<array<real>>, begin: nat, end: nat)
    requires DistinctRows(data) && forall r | 0 <= r < |data| :: end <= data[r].Length
    modifies data
    ensures |data| > 0 ==> forall i | begin <= i < end :: data[0][i] == ColumnSum(old(Contents(data)), i)
    ensures forall r, i | 0 <= r < |data| && 0 <= i < data[r].Length && !(begin <= i < end) ::
              data[r][i] == old(data[r][i])
    decreases |data|
  {
    hide ColumnSum, Contents;
    ghost var rows := Contents(data);
    if |data| <= 1 {
      forall i | |data| == 1 && begin <= i < end ensures data[0][i] == ColumnSum(rows, i) {
        FewRows(rows, i);
      }
    } else if |data| == 2 {
      AddInto(data[0], data[1], begin, end);
      forall i | begin <= i < end ensures data[0][i] == ColumnSum(rows, i) {
        FewRows(rows, i);
      }
    } else {
      var part1 := |data| / 2;
      HalvesAreApart(data, part1);
      hide DistinctRows;
      assert Contents(data[..part1]) == rows[..part1];
      ReduceSum(data[..part1], begin, end);
      assert Contents(data[part1..]) == rows[part1..];
      ReduceSum(data[part1..], begin, end);
      AddInto(data[0], data[part1], begin, end);
      forall i | begin <= i < end ensures data[0][i] == ColumnSum(rows, i) {
        SumOfHalves(rows, part1, i);
      }
    }
  }

  // ---------- nothing is lost between the two ----------

  /** What columns `[lo, hi)` of the intermediate dimension contribute to output element `h`. */
  function SliceSum(contribution: (nat, nat) -> real, lo: nat, hi: nat, h: nat): real
    decreases hi
  {
    if hi <= lo then 0.0 else SliceSum(contribution, lo, hi - 1, h) + contribution(hi - 1, h)
  }

  lemma {:induction false} SliceSumJoins(contribution: (nat, nat) -> real, lo: nat, mid: nat, hi: nat, h: nat)
    requires lo <= mid <= hi
    ensures SliceSum(contribution, lo, hi, h) == SliceSum(contribution, lo, mid, h) + SliceSum(contribution, mid, hi, h)
    decreases hi
  {
    if mid < hi {
      SliceSumJoins(contribution, lo, mid, hi - 1, h);
    }
  }

  /** What each column of the intermediate dimension contributes to output element `h`. */
  function Contributions(contribution: (nat, nat) -> real, h: nat): nat -> real {
    (c: nat) => contribution(c, h)
  }

  /** A slice of one column is that column's contribution, and from column 0 on a slice is the plain sum. */
  lemma {:induction false} SliceIsSum(contribution: (nat, nat) -> real, n: nat, h: nat)
    ensures SliceSum(contribution, n, n + 1, h) == contribution(n, h)
    ensures SliceSum(contribution, 0, n, h) == SumOf(n, Contributions(contribution, h))
  {
    assert SliceSum(contribution, n, n, h) == 0.0;
    if n > 0 {
      SliceIsSum(contribution, n - 1, h);
    }
  }

  ghost predicate HoldsSlice(row: seq<real>, contribution: (nat, nat) -> real, lo: nat, hi: nat, hidden: nat) {
    hidden <= |row| && forall h | 0 <= h < hidden :: row[h] == SliceSum(contribution, lo, hi, h)
  }

  /** Summing the slices' partial outputs gives the output of the unsplit dimension. */
  lemma {:induction false} SlicesAddUp(rows: seq<seq<real>>, sizes: seq<nat>, contribution: (nat, nat) -> real,
                                       hidden: nat, h: nat, n: nat)
    requires n <= |rows| == |sizes| && h < hidden
    requires forall i | 0 <= i < |rows| ::
               HoldsSlice(rows[i], contribution, Offset(sizes, i), Offset(sizes, i + 1), hidden)
    ensures forall i | 0 <= i < n :: h < |rows[..n][i]|
    ensures ColumnSum(rows[..n], h) == SliceSum(contribution, 0, Offset(sizes, n), h)
  {
    if n > 0 {
      SlicesAddUp(rows, sizes, contribution, hidden, h, n - 1);
      assert rows[..n][..n - 1] == rows[..n - 1];
      assert HoldsSlice(rows[n - 1], contribution, Offset(sizes, n - 1), Offset(sizes, n - 1 + 1), hidden);
      SliceSumJoins(contribution, 0, Offset(sizes, n - 1), Offset(sizes, n), h);
    }
  }

  /** One node's part: its slice's contributions, into its own output buffer. */
  method PartForward(contribution: (nat, nat) -> real, lo: nat, hi: nat, hidden: nat, output: array<real>)
    requires hidden <= output.Length
    modifies output
    ensures HoldsSlice(output[..], contribution, lo, hi, hidden)
  {
    for h := 0 to hidden
      invariant forall k | 0 <= k < h :: output[k] == SliceSum(contribution, lo, hi, k)
    {
      output[h] := SliceSum(contribution, lo, hi, h);
    }
  }

  /**
   The nodes' parts, in whatever `order` they get done, then the reduction: row 0 is the unsplit sum, each element the
   contributions to it of all the columns.
   */
  method Forward(sizes: seq<nat>, total: nat, contribution: (nat, nat) -> real, hidden: nat,
                 localOutput: seq<array<real>>, order: seq<nat>)
    requires forall k | 0 <= k < |order| :: order[k] < |localOutput|
    requires forall i | 0 <= i < |localOutput| :: i in order
    requires Tiles(sizes, total, |localOutput|) && |localOutput| > 0
    requires DistinctRows(localOutput) && forall i | 0 <= i < |localOutput| :: hidden <= localOutput[i].Length
    modifies localOutput
    ensures HoldsSlice(localOutput[0][..], contribution, 0, total, hidden)
    ensures forall h | 0 <= h < hidden :: localOutput[0][h] == SumOf(total, Contributions(contribution, h))
  {
    for k := 0 to |order|
      invariant forall i | 0 <= i < |localOutput| && i in order[..k] ::
                  HoldsSlice(localOutput[i][..], contribution, Offset(sizes, i), Offset(sizes, i + 1), hidden)
    {
      var i := order[k];
      PartForward(contribution, Offset(sizes, i), Offset(sizes, i + 1), hidden, localOutput[i]);
    }
    assert order[..|order|] == order;
    ghost var rows := Contents(localOutput);
    forall h | 0 <= h < hidden
      ensures ColumnSum(rows, h) == SliceSum(contribution, 0, total, h)
    {
      SlicesAddUp(rows, sizes, contribution, hidden, h, |rows|);
      assert rows[..|rows|] == rows;
    }
    ReduceSum(localOutput, 0, hidden);
    forall h | 0 <= h < hidden
      ensures SliceSum(contribution, 0, total, h) == SumOf(total, Contributions(contribution, h))
    {
      SliceIsSum(contribution, total, h);
    }
  }
}
