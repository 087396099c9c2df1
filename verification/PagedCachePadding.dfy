/**
 Padding tokens are sent to page 0. Nothing reserves that page, so padding can overwrite an entry; whether it can is a
 matter of where tokens are sent, and exactly when no padding token shares the cell of an entry it cannot.
 */
module PagedCachePadding {
  import opened PagedCache
  import opened PagedCacheRefinement

  /** No padding token is sent to the cell of an entry, the entries of this very batch included. */
  predicate SparesEntry<T>(pg: Pages, b: Batch<T>, s: nat, j: nat)
    requires Shaped(pg, b)
  {
    Allocated(AnyTables(pg), pg.size, s, j) && pg.kvIndptr[s] + BlockOf(j, pg.size) < |pg.kvIndices| ==>
      forall t | b.bsz <= t < |b.positions| :: Target(pg, b, t) != CellOf(AnyTables(pg), pg.size, s, j)
  }

  ghost predicate PaddingSpares<T>(pg: Pages, b: Batch<T>, lists: seq<seq<seq<T>>>)
    requires Shaped(pg, b)
  {
    forall s, j | 0 <= s < |lists| && 0 <= j < |lists[s]| :: SparesEntry(pg, b, s, j)
  }

  /** Tokens that write the cell of `(s, j)`: only the one whose place that is. */
  lemma OnlyOwnerWrites<T>(pg: Pages, b: Batch<T>, s: nat, j: nat, t: nat)
    requires Shaped(pg, b) && PagesOk(pg) && SparesEntry(pg, b, s, j) && t < |b.positions|
    requires Allocated(AnyTables(pg), pg.size, s, j) && pg.kvIndptr[s] + BlockOf(j, pg.size) < |pg.kvIndices|
    requires Target(pg, b, t) == CellOf(AnyTables(pg), pg.size, s, j)
    ensures t < b.bsz && TokenAt(b, t).query == s && TokenAt(b, t).position == j
  {
    if t < b.bsz {
      TargetIsOwnCell(pg, b, t);
      var k := TokenAt(b, t);
      if (k.query, k.position) != (s, j) {
        CellsAreDistinct(AnyTables(pg), pg.size, k.query, k.position, s, j);
      }
    }
  }

  /** Where padding spares the entries, each entry's cell is written by its own token only. */
  lemma SparingMeansAgreeing<T>(pg: Pages, b: Batch<T>, lists: seq<seq<seq<T>>>)
    requires Shaped(pg, b) && PagesOk(pg) && Fits(lists, Tokens(b)) && PaddingSpares(pg, b, AppendAll(lists, Tokens(b)))
    ensures WritesAgree(pg, b, AppendAll(lists, Tokens(b)))
  {
    var lists' := AppendAll(lists, Tokens(b));
    Appended(lists, Tokens(b));
    hide AppendAll, Fits, PagesOk;
    forall s: nat, j: nat, i: nat, k: nat
      | s < |lists'| && j < |lists'[s]| && i < |b.positions| && k < |b.positions|
      ensures AgreeAt(pg, b, lists', s, j, i, k)
    {
      assert SparesEntry(pg, b, s, j);
      if Allocated(AnyTables(pg), pg.size, s, j) && pg.kvIndptr[s] + BlockOf(j, pg.size) < |pg.kvIndices|
         && Target(pg, b, i) == CellOf(AnyTables(pg), pg.size, s, j) == Target(pg, b, k) {
        OnlyOwnerWrites(pg, b, s, j, i);
        OnlyOwnerWrites(pg, b, s, j, k);
        assert Tokens(b)[i] == TokenAt(b, i) && Tokens(b)[k] == TokenAt(b, k);
        assert i == k;
      }
    }
  }

  // ---------- for all contents ----------

  predicate Widths<T>(keys: seq<seq<T>>, values: seq<seq<T>>, n: nat, rank: nat, rest: nat) {
    |keys| == |values| == n && forall t | 0 <= t < n :: |keys[t]| == rank && |values[t]| == rest
  }

  /** The same tokens with other contents. */
  function With<T>(b: Batch<T>, keys: seq<seq<T>>, values: seq<seq<T>>): Batch<T> {
    b.(keys := keys, values := values)
  }

  /** Where tokens go, and whether they fit, does not depend on what they carry. */
  lemma {:induction false} SamePlaces<T>(lists: seq<seq<seq<T>>>, tokens: seq<Token<T>>, tokens': seq<Token<T>>)
    requires |tokens| == |tokens'| && Fits(lists, tokens)
    requires forall t | 0 <= t < |tokens| ::
               tokens[t].query == tokens'[t].query && tokens[t].position == tokens'[t].position
    ensures Fits(lists, tokens')
    ensures forall s | 0 <= s < |lists| :: |AppendAll(lists, tokens')[s]| == |AppendAll(lists, tokens)[s]|
  {
    if tokens != [] {
      SamePlaces(lists, tokens[..|tokens| - 1], tokens'[..|tokens| - 1]);
    }
  }

  lemma OtherContents<T>(pg: Pages, b: Batch<T>, lists: seq<seq<seq<T>>>, keys: seq<seq<T>>, values: seq<seq<T>>)
    requires Shaped(pg, b) && Fits(lists, Tokens(b)) && |keys| == |values| == |b.positions|
    ensures var b' := With(b, keys, values);
            && Shaped(pg, b') && Fits(lists, Tokens(b'))
            && (forall t | 0 <= t < |b.positions| :: Target(pg, b', t) == Target(pg, b, t))
            && (forall s | 0 <= s < |lists| :: |AppendAll(lists, Tokens(b'))[s]| == |AppendAll(lists, Tokens(b))[s]|)
  {
    var b' := With(b, keys, values);
    forall t | 0 <= t < b.bsz ensures InBlocks(pg, b', t) {
      assert InBlocks(pg, b, t);
    }
    SamePlaces(lists, Tokens(b), Tokens(b'));
  }

  lemma StaysReady<T>(m: map<Cell, seq<T>>, pg: Pages, b: Batch<T>, lists: seq<seq<seq<T>>>, keys: seq<seq<T>>,
                      values: seq<seq<T>>)
    requires Ready(m, pg, b, lists) && |keys| == |values| == |b.positions|
    ensures Ready(m, pg, With(b, keys, values), lists)
  {
    hide Refines, PagesOk, Fits, AppendAll;
    OtherContents(pg, b, lists, keys, values);
  }

  lemma EntryIs<T>(b: Batch<T>, lists: seq<seq<seq<T>>>, s: nat, j: nat, entry: seq<T>)
    requires b.bsz <= |b.positions| == |b.keys| == |b.values| && Fits(lists, Tokens(b)) && s < |lists|
    requires j < |AppendAll(lists, Tokens(b))[s]|
    requires forall k | 0 <= k < b.bsz :: b.keys[k] + b.values[k] == entry
    ensures AppendAll(lists, Tokens(b))[s][j] == if j < |lists[s]| then lists[s][j] else entry
  {
    Appended(lists, Tokens(b));
    if j < |lists[s]| {
      assert IsPrefix(lists, AppendAll(lists, Tokens(b)), s);
    } else {
      assert HasToken(Tokens(b), s, j);
    }
  }

  /** Token `t` carries one key, all others another. */
  function AllBut<T>(n: nat, t: nat, key: seq<T>, others: seq<T>): (keys: seq<seq<T>>)
    ensures |keys| == n && forall i | 0 <= i < n :: keys[i] == if i == t then key else others
  {
    seq(n, i => if i == t then key else others)
  }

  /** Of two keys one does not make the old entry. */
  lemma Choose<T>(key0: seq<T>, key1: seq<T>, value: seq<T>, entry: seq<T>) returns (clash: seq<T>, other: seq<T>)
    requires key0 != key1 && |key0| == |key1|
    ensures |clash| == |other| == |key0| && clash + value != entry && clash + value != other + value
  {
    assert (key0 + value)[..|key0|] == key0 && (key1 + value)[..|key0|] == key1;
    clash, other := key0, key1;
    if key0 + value == entry {
      clash, other := key1, key0;
    }
  }

  /** Contents under which padding token `t` disagrees with the entry `(s, j)` it is sent to. */
  lemma ClashingContents<T>(pg: Pages, b: Batch<T>, lists: seq<seq<seq<T>>>, s: nat, j: nat, t: nat,
                            key0: seq<T>, key1: seq<T>, value: seq<T>)
    returns (keys: seq<seq<T>>, values: seq<seq<T>>)
    requires Shaped(pg, b) && Fits(lists, Tokens(b)) && key0 != key1 && |key0| == |key1|
    requires s < |lists| && j < |AppendAll(lists, Tokens(b))[s]| && b.bsz <= t < |b.positions|
    requires Allocated(AnyTables(pg), pg.size, s, j) && pg.kvIndptr[s] + BlockOf(j, pg.size) < |pg.kvIndices|
    requires Target(pg, b, t) == CellOf(AnyTables(pg), pg.size, s, j)
    ensures Widths(keys, values, |b.positions|, |key0|, |value|) && Shaped(pg, With(b, keys, values))
    ensures !WritesAgree(pg, With(b, keys, values), AppendAll(lists, Tokens(With(b, keys, values))))
  {
    hide AppendAll, Fits, Target, CellOf, InBlocks;
    var clash, other := Choose(key0, key1, value, if j < |lists[s]| then lists[s][j] else []);
    keys := AllBut(|b.positions|, t, clash, other);
    values := AllBut(|b.positions|, t, value, value);
    OtherContents(pg, b, lists, keys, values);
    var b' := With(b, keys, values);
    EntryIs(b', lists, s, j, other + value);
    assert !AgreeAt(pg, b', AppendAll(lists, Tokens(b')), s, j, t, t);
  }

  ghost predicate AlwaysRefinesWith<T(!new)>(m: map<Cell, seq<T>>, pg: Pages, b: Batch<T>, lists: seq<seq<seq<T>>>,
                                             keys: seq<seq<T>>, values: seq<seq<T>>)
  {
    Shaped(pg, With(b, keys, values)) && AlwaysRefines(m, pg, With(b, keys, values), lists)
  }

  /**
   The condition a caller can check before the call: an update of these tokens refines appending for all contents, and
   all orders of the writes, if and only if no padding token is sent to the cell of an entry. `key0` and `key1` only say
   that keys of that width are not all equal.
   */
  lemma SafeForAllContentsIff<T(!new)>(m: map<Cell, seq<T>>, pg: Pages, b: Batch<T>, lists: seq<seq<seq<T>>>,
                                       key0: seq<T>, key1: seq<T>, value: seq<T>)
    requires Ready(m, pg, b, lists) && key0 != key1 && |key0| == |key1|
    ensures PaddingSpares(pg, b, AppendAll(lists, Tokens(b))) <==>
            forall keys, values | Widths(keys, values, |b.positions|, |key0|, |value|) ::
              AlwaysRefinesWith(m, pg, b, lists, keys, values)
  {
    hide Refines, AppendAll, Fits, PagesOk, SparesEntry, WritesAgree, AlwaysRefines;
    var lists' := AppendAll(lists, Tokens(b));
    if PaddingSpares(pg, b, lists') {
      forall keys, values | Widths(keys, values, |b.positions|, |key0|, |value|)
        ensures AlwaysRefinesWith(m, pg, b, lists, keys, values)
      {
        StaysReady(m, pg, b, lists, keys, values);
        SparesOther(pg, b, lists, keys, values);
        SparingMeansAgreeing(pg, With(b, keys, values), lists);
        UpdateRefinesIff(m, pg, With(b, keys, values), lists);
      }
    } else {
      var s: nat, j: nat :| s < |lists'| && j < |lists'[s]| && !SparesEntry(pg, b, s, j);
      var t := Intruder(pg, b, s, j);
      var keys, values := ClashingContents(pg, b, lists, s, j, t, key0, key1, value);
      StaysReady(m, pg, b, lists, keys, values);
      UpdateRefinesIff(m, pg, With(b, keys, values), lists);
      assert !AlwaysRefinesWith(m, pg, b, lists, keys, values);
    }
  }

  lemma Intruder<T>(pg: Pages, b: Batch<T>, s: nat, j: nat) returns (t: nat)
    requires Shaped(pg, b) && !SparesEntry(pg, b, s, j)
    ensures Allocated(AnyTables(pg), pg.size, s, j) && pg.kvIndptr[s] + BlockOf(j, pg.size) < |pg.kvIndices|
    ensures b.bsz <= t < |b.positions| && Target(pg, b, t) == CellOf(AnyTables(pg), pg.size, s, j)
  {
    t :| b.bsz <= t < |b.positions| && Target(pg, b, t) == CellOf(AnyTables(pg), pg.size, s, j);
  }

  lemma SparesOther<T>(pg: Pages, b: Batch<T>, lists: seq<seq<seq<T>>>, keys: seq<seq<T>>, values: seq<seq<T>>)
    requires Shaped(pg, b) && Fits(lists, Tokens(b)) && |keys| == |values| == |b.positions|
    requires Shaped(pg, With(b, keys, values)) && PaddingSpares(pg, b, AppendAll(lists, Tokens(b)))
    ensures PaddingSpares(pg, With(b, keys, values), AppendAll(lists, Tokens(With(b, keys, values))))
  {
    OtherContents(pg, b, lists, keys, values);
    hide AppendAll, Fits;
    var b' := With(b, keys, values);
    forall s, j | 0 <= s < |lists| && 0 <= j < |AppendAll(lists, Tokens(b'))[s]| ensures SparesEntry(pg, b', s, j) {
      assert SparesEntry(pg, b, s, j);
    }
  }

  // ---------- it happens ----------

  /** One sequence of one page, page 0; one token to append and one of padding, both at position 0. */
  const ONE_PAGE := Pages([0, 1], [0], 1)

  function PaddedBatch(): Batch<int> {
    Batch([0, 0], [0, 1], 1, [[1], [2]], [[], []])
  }

  lemma PaddedBatchIsReady(m: map<Cell, seq<int>>)
    requires (0, 0) in m
    ensures Ready(m, ONE_PAGE, PaddedBatch(), [[]])
    ensures AppendAll([[]], Tokens(PaddedBatch())) == [[[1]]]
    ensures Targets(ONE_PAGE, PaddedBatch()) == [(0, 0), (0, 0)]
  {
    var b, pg := PaddedBatch(), ONE_PAGE;
    assert Query(b.qIndptr, 0) == 0 && BlockOf(0, 1) == 0 && OffsetOf(0, 1) == 0;
    assert InBlocks(pg, b, 0);
    assert b.keys[0] + b.values[0] == [1];
    assert Tokens(b)[0] == TokenAt(b, 0) == Token(0, 0, [1]);
    assert Tokens(b) == [Token(0, 0, [1])];
    var lists: seq<seq<seq<int>>> := [[]];
    assert Tokens(b)[..0] == [] && AppendAll(lists, []) == lists;
    assert lists[0] + [[1]] == [[1]];
    assert lists[0 := [[1]]] == [[[1]]];
  }

  /** The padding's entry can win, and the token just appended is lost. */
  lemma PaddingOverwrites(m: map<Cell, seq<int>>) returns (m': map<Cell, seq<int>>)
    requires (0, 0) in m
    ensures Ready(m, ONE_PAGE, PaddedBatch(), [[]])
    ensures Wrote(m, m', Targets(ONE_PAGE, PaddedBatch()), PaddedBatch().keys, PaddedBatch().values)
    ensures m'[(0, 0)] == [2] && !Refines(m', ONE_PAGE, AppendAll([[]], Tokens(PaddedBatch())))
  {
    PaddedBatchIsReady(m);
    var b, pg := PaddedBatch(), ONE_PAGE;
    m' := Outcome(m, Targets(pg, b), b.keys, b.values, 1, 1);
    OutcomeIsPossible(m, Targets(pg, b), b.keys, b.values, 1, 1);
    assert b.keys[1] + b.values[1] == [2];
    assert !Entry(m', pg, [[[1]]], 0, 0);
  }
}
