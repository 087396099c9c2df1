/**
 The paged key-value cache: sequences own pages, a token's position picks page and offset, and an update writes the two
 halves of each token's entry into its cell.
 */
module PagedCache {
  import opened Arithmetic
  import opened Options

  /** Page and offset. */
  type Cell = (nat, nat)

  /** Query `q` has the tokens `qIndptr[q]..qIndptr[q + 1]` and the pages `kvIndices[kvIndptr[q]..kvIndptr[q + 1]]`. */
  datatype Tables = Tables(qIndptr: seq<nat>, kvIndptr: seq<nat>, kvIndices: seq<nat>)

  // ---------- which cell a token gets ----------

  function BlockOf(position: nat, pageSize: nat): nat
    requires pageSize > 0
  {
    position / pageSize
  }

  function OffsetOf(position: nat, pageSize: nat): nat
    requires pageSize > 0
  {
    position % pageSize
  }

  /** The last of the first `n` queries whose token range holds `t`, or query 0 if there is none. */
  function QueryAmong(qIndptr: seq<nat>, t: nat, n: nat): nat
    requires n == 0 || n < |qIndptr|
  {
    if n == 0 then 0 else if qIndptr[n - 1] <= t < qIndptr[n] then n - 1 else QueryAmong(qIndptr, t, n - 1)
  }

  function Query(qIndptr: seq<nat>, t: nat): nat {
    QueryAmong(qIndptr, t, if |qIndptr| == 0 then 0 else |qIndptr| - 1)
  }

  /** Token `t`'s position lies in a block its query has. */
  predicate Covered(tb: Tables, positions: seq<nat>, pageSize: nat, t: nat)
    requires t < |positions| && pageSize > 0 && Query(tb.qIndptr, t) + 1 < |tb.kvIndptr|
  {
    var q := Query(tb.qIndptr, t);
    tb.kvIndptr[q] + BlockOf(positions[t], pageSize) < tb.kvIndptr[q + 1]
  }

  /** No index runs off the tables. */
  predicate Readable(tb: Tables, positions: seq<nat>, pageSize: nat, t: nat)
    requires t < |positions| && pageSize > 0
  {
    var q := Query(tb.qIndptr, t);
    && q + 1 < |tb.kvIndptr|
    && (Covered(tb, positions, pageSize, t) ==> tb.kvIndptr[q] + BlockOf(positions[t], pageSize) < |tb.kvIndices|)
  }

  /** Tokens beyond the batch size, and tokens outside their query's blocks, are sent to page 0. */
  function PageOf(tb: Tables, positions: seq<nat>, pageSize: nat, bsz: nat, t: nat): nat
    requires t < |positions| && pageSize > 0 && (t < bsz ==> Readable(tb, positions, pageSize, t))
  {
    if t < bsz && Covered(tb, positions, pageSize, t)
    then tb.kvIndices[tb.kvIndptr[Query(tb.qIndptr, t)] + BlockOf(positions[t], pageSize)] else 0
  }

  // ---------- the same in the tables' own terms ----------

  /** Token `t` lies in the range of query `s`. */
  predicate Holds(qIndptr: seq<nat>, t: nat, s: nat) {
    s + 1 < |qIndptr| && qIndptr[s] <= t < qIndptr[s + 1]
  }

  /** Ranges are assigned in order, so the last one that holds the token wins; a token in no range keeps query 0. */
  ghost predicate IsQuery(qIndptr: seq<nat>, t: nat, s: nat) {
    && (Holds(qIndptr, t, s) || (s == 0 && forall i :: !Holds(qIndptr, t, i)))
    && (forall i | s < i :: !Holds(qIndptr, t, i))
  }

  lemma {:induction false} AmongFirst(qIndptr: seq<nat>, t: nat, n: nat)
    requires n == 0 || n < |qIndptr|
    ensures var s := QueryAmong(qIndptr, t, n);
            && ((s < n && Holds(qIndptr, t, s)) || (s == 0 && forall i: nat | i < n :: !Holds(qIndptr, t, i)))
            && (forall i | s < i < n :: !Holds(qIndptr, t, i))
  {
    if n > 0 && !Holds(qIndptr, t, n - 1) {
      AmongFirst(qIndptr, t, n - 1);
    }
  }

  lemma QueryIsLastHolding(qIndptr: seq<nat>, t: nat, s: nat)
    ensures IsQuery(qIndptr, t, s) <==> s == Query(qIndptr, t)
  {
    AmongFirst(qIndptr, t, if |qIndptr| == 0 then 0 else |qIndptr| - 1);
  }

  /** With the ranges one after the other, a token belongs to the one query whose range it lies in, and to some. */
  lemma TokenHasItsQuery(qIndptr: seq<nat>, t: nat, n: nat)
    requires 0 < n < |qIndptr| && forall i, j | 0 <= i <= j < |qIndptr| :: qIndptr[i] <= qIndptr[j]
    requires qIndptr[0] <= t < qIndptr[n]
    ensures var s := Query(qIndptr, t);
            s < n && qIndptr[s] <= t < qIndptr[s + 1] && forall i | Holds(qIndptr, t, i) :: i == s
  {
    AmongFirst(qIndptr, t, |qIndptr| - 1);
    var s := 0;
    while qIndptr[s + 1] <= t
      invariant s < n && qIndptr[s] <= t
      decreases n - s
    {
      s := s + 1;
    }
    assert Holds(qIndptr, t, s);
  }

  /** Reading the page of a token at `position` of query `s` stays inside the tables. */
  predicate InTables(tb: Tables, position: nat, pageSize: nat, s: nat)
    requires pageSize > 0
  {
    && s + 1 < |tb.kvIndptr|
    && (tb.kvIndptr[s] + position / pageSize < tb.kvIndptr[s + 1] ==>
          tb.kvIndptr[s] + position / pageSize < |tb.kvIndices|)
  }

  lemma PageWrittenOut(tb: Tables, positions: seq<nat>, pageSize: nat, bsz: nat, t: nat, s: nat)
    requires t < |positions| && pageSize > 0 && IsQuery(tb.qIndptr, t, s)
    ensures Readable(tb, positions, pageSize, t) <==> InTables(tb, positions[t], pageSize, s)
    ensures t < bsz && InTables(tb, positions[t], pageSize, s) ==>
              PageOf(tb, positions, pageSize, bsz, t) ==
              if tb.kvIndptr[s] + positions[t] / pageSize < tb.kvIndptr[s + 1]
              then tb.kvIndices[tb.kvIndptr[s] + positions[t] / pageSize] else 0
    ensures t >= bsz ==> PageOf(tb, positions, pageSize, bsz, t) == 0
  {
    QueryIsLastHolding(tb.qIndptr, t, s);
  }

  lemma PaddingGoesToPageZero(tb: Tables, positions: seq<nat>, pageSize: nat, bsz: nat, t: nat)
    requires bsz <= t < |positions| && pageSize > 0
    ensures PageOf(tb, positions, pageSize, bsz, t) == 0
  {
  }

  lemma AnswerWrittenOut(positions: seq<nat>, tb: Tables, bsz: nat, pageSize: nat, r: Option<(seq<nat>, seq<nat>)>)
    requires pageSize > 0
    requires r.Some? <==> bsz <= |positions| && forall t | 0 <= t < bsz :: Readable(tb, positions, pageSize, t)
    requires r.Some? ==> |r.value.0| == |r.value.1| == |positions|
    requires r.Some? ==> forall t | 0 <= t < |positions| ::
               && r.value.0[t] == PageOf(tb, positions, pageSize, bsz, t)
               && r.value.1[t] == OffsetOf(positions[t], pageSize)
    ensures r.Some? <==>
            && bsz <= |positions|
            && forall t, s: nat | 0 <= t < bsz && IsQuery(tb.qIndptr, t, s) :: InTables(tb, positions[t], pageSize, s)
    ensures r.Some? ==> forall t, s: nat | 0 <= t < bsz && IsQuery(tb.qIndptr, t, s) ::
              r.value.0[t] ==
              if tb.kvIndptr[s] + positions[t] / pageSize < tb.kvIndptr[s + 1]
              then tb.kvIndices[tb.kvIndptr[s] + positions[t] / pageSize] else 0
    ensures r.Some? ==> forall t | 0 <= t < |positions| ::
              r.value.1[t] == positions[t] % pageSize && (t >= bsz ==> r.value.0[t] == 0)
  {
    hide IsQuery, Query, Readable, PageOf;
    if bsz <= |positions| {
      forall t, s: nat | 0 <= t < bsz && IsQuery(tb.qIndptr, t, s)
        ensures Readable(tb, positions, pageSize, t) <==> InTables(tb, positions[t], pageSize, s)
        ensures InTables(tb, positions[t], pageSize, s) && Readable(tb, positions, pageSize, t) ==>
                  PageOf(tb, positions, pageSize, bsz, t) ==
                  if tb.kvIndptr[s] + positions[t] / pageSize < tb.kvIndptr[s + 1]
                  then tb.kvIndices[tb.kvIndptr[s] + positions[t] / pageSize] else 0
      {
        PageWrittenOut(tb, positions, pageSize, bsz, t, s);
      }
      forall t | 0 <= t < bsz
        ensures IsQuery(tb.qIndptr, t, Query(tb.qIndptr, t))
        ensures Readable(tb, positions, pageSize, t) <==>
                InTables(tb, positions[t], pageSize, Query(tb.qIndptr, t))
      {
        QueryIsLastHolding(tb.qIndptr, t, Query(tb.qIndptr, t));
      }
      forall t | bsz <= t < |positions| ensures PageOf(tb, positions, pageSize, bsz, t) == 0 {
        PaddingGoesToPageZero(tb, positions, pageSize, bsz, t);
      }
    }
  }

  /**
   Each token gets its query's page for the block its position is in, and its place in that block; page 0 if it is
   padding or its query has no such block. Fails exactly when an index runs off the tables.
   */
  method GetPageTable(positions: seq<nat>, tb: Tables, bsz: nat, pageSize: nat)
    returns (r: Option<(seq<nat>, seq<nat>)>)
    requires pageSize > 0
    ensures r.Some? <==> bsz <= |positions| && forall t | 0 <= t < bsz :: Readable(tb, positions, pageSize, t)
    ensures r.Some? ==> |r.value.0| == |r.value.1| == |positions|
    ensures r.Some? ==> forall t | 0 <= t < |positions| ::
              && r.value.0[t] == PageOf(tb, positions, pageSize, bsz, t)
              && r.value.1[t] == OffsetOf(positions[t], pageSize)
    ensures r.Some? <==>
            && bsz <= |positions|
            && forall t, s: nat | 0 <= t < bsz && IsQuery(tb.qIndptr, t, s) :: InTables(tb, positions[t], pageSize, s)
    ensures r.Some? ==> forall t, s: nat | 0 <= t < bsz && IsQuery(tb.qIndptr, t, s) ::
              r.value.0[t] ==
              if tb.kvIndptr[s] + positions[t] / pageSize < tb.kvIndptr[s + 1]
              then tb.kvIndices[tb.kvIndptr[s] + positions[t] / pageSize] else 0
    ensures r.Some? ==> forall t | 0 <= t < |positions| ::
              r.value.1[t] == positions[t] % pageSize && (t >= bsz ==> r.value.0[t] == 0)
  {
    hide BlockOf, OffsetOf, IsQuery, InTables;
    var queryIds := new nat[|positions|](_ => 0);
    if |tb.qIndptr| > 0 {
      for i := 0 to |tb.qIndptr| - 1
        invariant forall t | 0 <= t < |positions| :: queryIds[t] == QueryAmong(tb.qIndptr, t, i)
      {
        forall t | 0 <= t < |positions| && tb.qIndptr[i] <= t < tb.qIndptr[i + 1] {
          queryIds[t] := i;
        }
      }
    }
    assert forall t | 0 <= t < |positions| :: queryIds[t] == Query(tb.qIndptr, t);
    var pageIdx := new nat[|positions|](_ => 0);
    if |positions| < bsz {
      r := None;
      AnswerWrittenOut(positions, tb, bsz, pageSize, r);
      return;
    }
    for i := 0 to bsz
      invariant forall t | 0 <= t < |positions| :: queryIds[t] == Query(tb.qIndptr, t)
      invariant forall t | 0 <= t < i :: Readable(tb, positions, pageSize, t)
      invariant forall t | 0 <= t < i :: pageIdx[t] == PageOf(tb, positions, pageSize, bsz, t)
      invariant forall t | i <= t < |positions| :: pageIdx[t] == 0
    {
      var queryId := queryIds[i];
      var localBlock: int := BlockOf(positions[i], pageSize);
      if |tb.kvIndptr| <= queryId + 1 {
        assert !Readable(tb, positions, pageSize, i);
        r := None;
        AnswerWrittenOut(positions, tb, bsz, pageSize, r);
        return;
      }
      var startBlock := tb.kvIndptr[queryId];
      if localBlock < tb.kvIndptr[queryId + 1] as int - tb.kvIndptr[queryId] {
        if |tb.kvIndices| <= startBlock + localBlock {
          assert !Readable(tb, positions, pageSize, i);
          r := None;
          AnswerWrittenOut(positions, tb, bsz, pageSize, r);
          return;
        }
        pageIdx[i] := tb.kvIndices[startBlock + localBlock];
      }
    }
    r := Some((pageIdx[..], seq(|positions|, t requires 0 <= t < |positions| => OffsetOf(positions[t], pageSize))));
    AnswerWrittenOut(positions, tb, bsz, pageSize, r);
  }

  // ---------- the cells of a sequence ----------

  ghost predicate WellFormed(tb: Tables) {
    && |tb.kvIndptr| >= 1
    && (forall i, j | 0 <= i <= j < |tb.kvIndptr| :: tb.kvIndptr[i] <= tb.kvIndptr[j])
    && tb.kvIndptr[|tb.kvIndptr| - 1] <= |tb.kvIndices|
  }

  predicate Allocated(tb: Tables, pageSize: nat, s: nat, j: nat)
    requires pageSize > 0
  {
    s + 1 < |tb.kvIndptr| && tb.kvIndptr[s] + BlockOf(j, pageSize) < tb.kvIndptr[s + 1]
  }

  lemma IndexInRange(tb: Tables, pageSize: nat, s: nat, j: nat)
    requires pageSize > 0 && WellFormed(tb) && Allocated(tb, pageSize, s, j)
    ensures tb.kvIndptr[0] <= tb.kvIndptr[s] + BlockOf(j, pageSize) < tb.kvIndptr[|tb.kvIndptr| - 1] <= |tb.kvIndices|
  {
  }

  function CellOf(tb: Tables, pageSize: nat, s: nat, j: nat): Cell
    requires pageSize > 0 && s < |tb.kvIndptr| && tb.kvIndptr[s] + BlockOf(j, pageSize) < |tb.kvIndices|
  {
    (tb.kvIndices[tb.kvIndptr[s] + BlockOf(j, pageSize)], OffsetOf(j, pageSize))
  }

  /** No page is handed out twice. */
  ghost predicate DistinctPages(tb: Tables)
    requires WellFormed(tb)
  {
    forall i, k | tb.kvIndptr[0] <= i < k < tb.kvIndptr[|tb.kvIndptr| - 1] :: tb.kvIndices[i] != tb.kvIndices[k]
  }

  lemma SamePosition(pageSize: nat, j: nat, j': nat)
    requires pageSize > 0
    ensures BlockOf(j, pageSize) == BlockOf(j', pageSize) && OffsetOf(j, pageSize) == OffsetOf(j', pageSize) ==> j == j'
  {
    assert j == j / pageSize * pageSize + j % pageSize && j' == j' / pageSize * pageSize + j' % pageSize;
  }

  /** Distinct blocks are distinct entries of the page list. */
  lemma BlocksAreDistinct(tb: Tables, s: nat, b: nat, s': nat, b': nat)
    requires WellFormed(tb) && s + 1 < |tb.kvIndptr| && s' + 1 < |tb.kvIndptr| && (s, b) != (s', b')
    requires tb.kvIndptr[s] + b < tb.kvIndptr[s + 1] && tb.kvIndptr[s'] + b' < tb.kvIndptr[s' + 1]
    ensures tb.kvIndptr[s] + b != tb.kvIndptr[s'] + b'
  {
    if s < s' {
      assert tb.kvIndptr[s + 1] <= tb.kvIndptr[s'];
    } else if s' < s {
      assert tb.kvIndptr[s' + 1] <= tb.kvIndptr[s];
    }
  }

  /** Distinct positions of allocated blocks, of one sequence or two, have distinct cells. */
  lemma CellsAreDistinct(tb: Tables, pageSize: nat, s: nat, j: nat, s': nat, j': nat)
    requires pageSize > 0 && WellFormed(tb) && DistinctPages(tb)
    requires Allocated(tb, pageSize, s, j) && Allocated(tb, pageSize, s', j') && (s, j) != (s', j')
    ensures tb.kvIndptr[s] + BlockOf(j, pageSize) < |tb.kvIndices|
    ensures tb.kvIndptr[s'] + BlockOf(j', pageSize) < |tb.kvIndices|
    ensures CellOf(tb, pageSize, s, j) != CellOf(tb, pageSize, s', j')
  {
    hide BlockOf, OffsetOf;
    IndexInRange(tb, pageSize, s, j);
    IndexInRange(tb, pageSize, s', j');
    SamePosition(pageSize, j, j');
    var b, b' := BlockOf(j, pageSize), BlockOf(j', pageSize);
    if (s, b) != (s', b') {
      BlocksAreDistinct(tb, s, b, s', b');
      EntriesDiffer(tb, tb.kvIndptr[s] + b, tb.kvIndptr[s'] + b');
    }
  }

  lemma EntriesDiffer(tb: Tables, i: nat, k: nat)
    requires WellFormed(tb) && DistinctPages(tb) && i != k
    requires tb.kvIndptr[0] <= i < tb.kvIndptr[|tb.kvIndptr| - 1]
    requires tb.kvIndptr[0] <= k < tb.kvIndptr[|tb.kvIndptr| - 1]
    ensures tb.kvIndices[i] != tb.kvIndices[k]
  {
  }

  lemma FindSequence(tb: Tables, i: nat) returns (s: nat)
    requires WellFormed(tb) && tb.kvIndptr[0] <= i < tb.kvIndptr[|tb.kvIndptr| - 1]
    ensures s + 1 < |tb.kvIndptr| && tb.kvIndptr[s] <= i < tb.kvIndptr[s + 1]
  {
    s := 0;
    while tb.kvIndptr[s + 1] <= i
      invariant s + 1 < |tb.kvIndptr| && tb.kvIndptr[s] <= i
      decreases |tb.kvIndptr| - s
    {
      s := s + 1;
    }
  }

  /** Distinct pages are needed: a page handed out twice makes two positions share a cell. */
  lemma SharedPageClashes(tb: Tables, pageSize: nat) returns (s: nat, j: nat, s': nat, j': nat)
    requires pageSize > 0 && WellFormed(tb) && !DistinctPages(tb)
    ensures Allocated(tb, pageSize, s, j) && Allocated(tb, pageSize, s', j') && (s, j) != (s', j')
    ensures tb.kvIndptr[s] + BlockOf(j, pageSize) < |tb.kvIndices|
    ensures tb.kvIndptr[s'] + BlockOf(j', pageSize) < |tb.kvIndices|
    ensures CellOf(tb, pageSize, s, j) == CellOf(tb, pageSize, s', j')
  {
    var i, k :| tb.kvIndptr[0] <= i < k < tb.kvIndptr[|tb.kvIndptr| - 1] && tb.kvIndices[i] == tb.kvIndices[k];
    s := FindSequence(tb, i);
    s' := FindSequence(tb, k);
    hide BlockOf, OffsetOf;
    j := BlockStart(i - tb.kvIndptr[s], pageSize);
    j' := BlockStart(k - tb.kvIndptr[s'], pageSize);
    IndexInRange(tb, pageSize, s, j);
    IndexInRange(tb, pageSize, s', j');
  }

  lemma BlockStart(b: nat, pageSize: nat) returns (j: nat)
    requires pageSize > 0
    ensures BlockOf(j, pageSize) == b && OffsetOf(j, pageSize) == 0
  {
    j := b * pageSize;
    DivModUnique(j, pageSize, b, 0);
  }

  // ---------- the cache ----------

  /** The cells named in `cells` hold a key and a value written to them, and the others are as they were. */
  ghost predicate Wrote<T>(m: map<Cell, seq<T>>, m': map<Cell, seq<T>>, cells: seq<Cell>, keys: seq<seq<T>>,
                           values: seq<seq<T>>)
    requires |cells| == |keys| == |values|
  {
    && m'.Keys == m.Keys
    && (forall c | c in m && c !in cells :: m'[c] == m[c])
    && (forall c | c in m && c in cells :: HoldsSome(m'[c], c, cells, keys, values))
  }

  /** Where several tokens share a cell, the order of the writes is open, separately for keys and for values. */
  ghost predicate HoldsSome<T>(x: seq<T>, c: Cell, cells: seq<Cell>, keys: seq<seq<T>>, values: seq<seq<T>>)
    requires |cells| == |keys| == |values|
  {
    exists i, k :: 0 <= i < |cells| && 0 <= k < |cells| && cells[i] == c == cells[k] && x == keys[i] + values[k]
  }

  function Zip(pages: seq<nat>, offsets: seq<nat>): (r: seq<Cell>)
    requires |pages| == |offsets|
    ensures |r| == |pages| && forall t | 0 <= t < |r| :: r[t] == (pages[t], offsets[t])
  {
    seq(|pages|, t requires 0 <= t < |pages| => (pages[t], offsets[t]))
  }

  function LastWriter(cells: seq<Cell>, c: Cell, n: nat): (r: Option<nat>)
    requires n <= |cells|
    ensures r.Some? ==> r.value < n && cells[r.value] == c
    ensures r.None? ==> forall t | 0 <= t < n :: cells[t] != c
  {
    if n == 0 then None else if cells[n - 1] == c then Some(n - 1) else LastWriter(cells, c, n - 1)
  }

  /** A cell with a new key, and with a new value. */
  function WithKey<T>(x: seq<T>, key: seq<T>, rank: nat): (r: seq<T>)
    requires rank <= |x|
    ensures |r| == |key| + |x| - rank
  {
    key + x[rank..]
  }

  function WithValue<T>(x: seq<T>, value: seq<T>, rank: nat): (r: seq<T>)
    requires rank <= |x|
    ensures |r| == rank + |value|
  {
    x[..rank] + value
  }

  lemma LastWriteWins<T>(x: seq<T>, before: seq<T>, after: seq<T>, rank: nat)
    requires rank <= |x|
    ensures |before| == rank ==> WithKey(WithKey(x, before, rank), after, rank) == WithKey(x, after, rank)
    ensures WithValue(WithValue(x, before, rank), after, rank) == WithValue(x, after, rank)
    ensures |before| == rank ==> WithValue(WithKey(x, before, rank), after, rank) == before + after
  {
  }

  function KeyWritten<T>(x: seq<T>, keys: seq<seq<T>>, w: Option<nat>, rank: nat): (r: seq<T>)
    requires rank <= |x| && (w.Some? ==> w.value < |keys| && |keys[w.value]| == rank)
    ensures |r| == |x|
  {
    if w.None? then x else WithKey(x, keys[w.value], rank)
  }

  function ValueWritten<T>(x: seq<T>, values: seq<seq<T>>, w: Option<nat>, rank: nat): (r: seq<T>)
    requires rank <= |x| && (w.Some? ==> w.value < |values|)
    ensures rank <= |r|
  {
    if w.None? then x else WithValue(x, values[w.value], rank)
  }

  /** The slice assignment of the keys: the front of each named cell. */
  method PutKeys<T>(kOut: array2<seq<T>>, rank: nat, keys: seq<seq<T>>, pageIdx: seq<nat>, pageOffset: seq<nat>)
    requires |keys| == |pageIdx| == |pageOffset|
    requires forall t | 0 <= t < |keys| ::
               |keys[t]| == rank && pageIdx[t] < kOut.Length0 && pageOffset[t] < kOut.Length1
    requires forall p, o | 0 <= p < kOut.Length0 && 0 <= o < kOut.Length1 :: rank <= |kOut[p, o]|
    modifies kOut
    ensures forall p: nat, o: nat | p < kOut.Length0 && o < kOut.Length1 ::
              kOut[p, o] ==
              KeyWritten(old(kOut[p, o]), keys, LastWriter(Zip(pageIdx, pageOffset), (p, o), |keys|), rank)
  {
    hide WithKey;
    ghost var cells := Zip(pageIdx, pageOffset);
    for t := 0 to |keys|
      invariant forall p: nat, o: nat | p < kOut.Length0 && o < kOut.Length1 ::
                  kOut[p, o] == KeyWritten(old(kOut[p, o]), keys, LastWriter(cells, (p, o), t), rank)
    {
      ghost var w := LastWriter(cells, cells[t], t);
      if w.Some? { LastWriteWins(old(kOut[pageIdx[t], pageOffset[t]]), keys[w.value], keys[t], rank); }
      kOut[pageIdx[t], pageOffset[t]] := WithKey(kOut[pageIdx[t], pageOffset[t]], keys[t], rank);
    }
  }

  /** And of the values: the rest of each cell. */
  method PutValues<T>(kOut: array2<seq<T>>, rank: nat, values: seq<seq<T>>, pageIdx: seq<nat>, pageOffset: seq<nat>)
    requires |values| == |pageIdx| == |pageOffset|
    requires forall t | 0 <= t < |values| :: pageIdx[t] < kOut.Length0 && pageOffset[t] < kOut.Length1
    requires forall p, o | 0 <= p < kOut.Length0 && 0 <= o < kOut.Length1 :: rank <= |kOut[p, o]|
    modifies kOut
    ensures forall p: nat, o: nat | p < kOut.Length0 && o < kOut.Length1 ::
              kOut[p, o] ==
              ValueWritten(old(kOut[p, o]), values, LastWriter(Zip(pageIdx, pageOffset), (p, o), |values|), rank)
  {
    hide WithValue;
    ghost var cells := Zip(pageIdx, pageOffset);
    for t := 0 to |values|
      invariant forall p: nat, o: nat | p < kOut.Length0 && o < kOut.Length1 ::
                  kOut[p, o] == ValueWritten(old(kOut[p, o]), values, LastWriter(cells, (p, o), t), rank)
    {
      ghost var w := LastWriter(cells, cells[t], t);
      if w.Some? { LastWriteWins(old(kOut[pageIdx[t], pageOffset[t]]), values[w.value], values[t], rank); }
      kOut[pageIdx[t], pageOffset[t]] := WithValue(kOut[pageIdx[t], pageOffset[t]], values[t], rank);
    }
  }

  ghost function CellsOf<T>(kOut: array2<seq<T>>): map<Cell, seq<T>>
    reads kOut
  {
    map p: nat, o: nat | p < kOut.Length0 && o < kOut.Length1 :: (p, o) := kOut[p, o]
  }

  /** Keys go to the front of the cells, values to the rest. */
  method PutBoth<T>(kOut: array2<seq<T>>, rank: nat, keys: seq<seq<T>>, values: seq<seq<T>>, pageIdx: seq<nat>,
                    pageOffset: seq<nat>)
    requires |keys| == |values| == |pageIdx| == |pageOffset|
    requires forall t | 0 <= t < |keys| ::
               |keys[t]| == rank && pageIdx[t] < kOut.Length0 && pageOffset[t] < kOut.Length1
    requires forall p, o | 0 <= p < kOut.Length0 && 0 <= o < kOut.Length1 :: rank <= |kOut[p, o]|
    modifies kOut
    ensures Wrote(old(CellsOf(kOut)), CellsOf(kOut), Zip(pageIdx, pageOffset), keys, values)
  {
    hide WithKey, WithValue;
    ghost var cells := Zip(pageIdx, pageOffset);
    PutKeys(kOut, rank, keys, pageIdx, pageOffset);
    PutValues(kOut, rank, values, pageIdx, pageOffset);
    forall c | c in CellsOf(kOut) && c in cells ensures HoldsSome(CellsOf(kOut)[c], c, cells, keys, values) {
      assert c == (c.0, c.1);
      var w := LastWriter(cells, c, |cells|).value;
      LastWriteWins(old(CellsOf(kOut))[c], keys[w], values[w], rank);
      assert cells[w] == c && CellsOf(kOut)[c] == keys[w] + values[w];
    }
  }

  /** One `rank + rope`-wide cell per page and offset, for each layer. */
  class KvCache<T> {
    const pageSize: nat
    const rank: nat
    const width: nat
    const kCaches: seq<array2<seq<T>>>

    ghost predicate Valid()
      reads kCaches
    {
      && pageSize > 0 && rank <= width
      && (forall l | 0 <= l < |kCaches| :: kCaches[l].Length1 == pageSize)
      && (forall l, k | 0 <= l < k < |kCaches| :: kCaches[l] != kCaches[k])
      && (forall l, p, o | 0 <= l < |kCaches| && 0 <= p < kCaches[l].Length0 && 0 <= o < pageSize ::
            |kCaches[l][p, o]| == width)
    }

    ghost function Cells(layer: nat): map<Cell, seq<T>>
      requires layer < |kCaches|
      reads kCaches[layer]
    {
      CellsOf(kCaches[layer])
    }

    method Update(keys: seq<seq<T>>, values: seq<seq<T>>, layer: nat, pageIdx: seq<nat>, pageOffset: seq<nat>)
      requires Valid() && layer < |kCaches|
      requires |keys| == |values| == |pageIdx| == |pageOffset|
      requires forall t | 0 <= t < |keys| :: |keys[t]| == rank && |values[t]| == width - rank
      requires forall t | 0 <= t < |keys| :: pageIdx[t] < kCaches[layer].Length0 && pageOffset[t] < pageSize
      modifies kCaches[layer]
      ensures Valid()
      ensures Wrote(old(Cells(layer)), Cells(layer), Zip(pageIdx, pageOffset), keys, values)
    {
      PutBoth(kCaches[layer], rank, keys, values, pageIdx, pageOffset);
      WidthsKept(old(Cells(layer)), Cells(layer), Zip(pageIdx, pageOffset), keys, values, width);
      forall p: nat, o: nat | p < kCaches[layer].Length0 && o < pageSize ensures |kCaches[layer][p, o]| == width {
        assert |Cells(layer)[(p, o)]| == width;
      }
    }
  }

  lemma WidthsKept<T>(m: map<Cell, seq<T>>, m': map<Cell, seq<T>>, cells: seq<Cell>, keys: seq<seq<T>>,
                      values: seq<seq<T>>, width: nat)
    requires |cells| == |keys| == |values| && Wrote(m, m', cells, keys, values)
    requires forall c | c in m :: |m[c]| == width
    requires forall i, k | 0 <= i < |keys| && 0 <= k < |keys| :: |keys[i]| + |values[k]| == width
    ensures forall c | c in m' :: |m'[c]| == width
  {
  }
}
