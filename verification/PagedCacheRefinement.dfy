/**
 The paged cache is a list of entries per sequence: after any run of updates, reading a sequence back through its pages
 gives what was appended to it and nothing else.
 */
module PagedCacheRefinement {
  import opened Options
  import opened PagedCache

  datatype Token<T> = Token(query: nat, position: nat, entry: seq<T>)

  /** What one call is given: token `t` appends `keys[t] + values[t]`; tokens from `bsz` on are padding. */
  datatype Batch<T> = Batch(
    positions: seq<nat>, qIndptr: seq<nat>, bsz: nat, keys: seq<seq<T>>, values: seq<seq<T>>)

  /** The pages of all sequences, as one call is given them; the next call may be given others. */
  datatype Pages = Pages(kvIndptr: seq<nat>, kvIndices: seq<nat>, size: nat)

  function TablesOf<T>(pg: Pages, b: Batch<T>): Tables {
    Tables(b.qIndptr, pg.kvIndptr, pg.kvIndices)
  }

  function AnyTables(pg: Pages): Tables {
    Tables([], pg.kvIndptr, pg.kvIndices)
  }

  // ---------- lists ----------

  function AppendAll<T>(lists: seq<seq<seq<T>>>, tokens: seq<Token<T>>): (r: seq<seq<seq<T>>>)
    ensures |r| == |lists|
  {
    if tokens == [] then lists
    else
      var l := AppendAll(lists, tokens[..|tokens| - 1]);
      var t := tokens[|tokens| - 1];
      if t.query < |l| then l[t.query := l[t.query] + [t.entry]] else l
  }

  /** Each token comes next in its sequence. */
  predicate Fits<T>(lists: seq<seq<seq<T>>>, tokens: seq<Token<T>>) {
    tokens == [] ||
    var t := tokens[|tokens| - 1];
    && Fits(lists, tokens[..|tokens| - 1])
    && t.query < |lists|
    && t.position == |AppendAll(lists, tokens[..|tokens| - 1])[t.query]|
  }

  ghost predicate IsPrefix<T>(lists: seq<seq<seq<T>>>, lists': seq<seq<seq<T>>>, s: nat)
    requires s < |lists| == |lists'|
  {
    lists[s] <= lists'[s]
  }

  predicate Landed<T>(lists: seq<seq<seq<T>>>, lists': seq<seq<seq<T>>>, t: Token<T>)
    requires |lists| == |lists'|
  {
    t.query < |lists| && |lists[t.query]| <= t.position < |lists'[t.query]|
  }

  ghost predicate HasToken<T>(tokens: seq<Token<T>>, s: nat, j: nat) {
    exists k :: 0 <= k < |tokens| && tokens[k].query == s && tokens[k].position == j
  }

  /** Appending keeps what was there, puts every token at its own place, and adds nothing else. */
  lemma {:induction false} Appended<T>(lists: seq<seq<seq<T>>>, tokens: seq<Token<T>>)
    requires Fits(lists, tokens)
    ensures var lists' := AppendAll(lists, tokens);
            && (forall s | 0 <= s < |lists| :: IsPrefix(lists, lists', s))
            && (forall k | 0 <= k < |tokens| ::
                  Landed(lists, lists', tokens[k]) && lists'[tokens[k].query][tokens[k].position] == tokens[k].entry)
            && (forall k, k' | 0 <= k < k' < |tokens| ::
                  (tokens[k].query, tokens[k].position) != (tokens[k'].query, tokens[k'].position))
            && (forall s, j | 0 <= s < |lists| && |lists[s]| <= j < |lists'[s]| :: HasToken(tokens, s, j))
  {
    if tokens != [] {
      var n := |tokens| - 1;
      var front, t := tokens[..n], tokens[n];
      Appended(lists, front);
      var l, lists' := AppendAll(lists, front), AppendAll(lists, tokens);
      forall s | 0 <= s < |lists| ensures IsPrefix(lists, lists', s) {
        assert IsPrefix(lists, l, s);
      }
      forall k | 0 <= k < |tokens|
        ensures Landed(lists, lists', tokens[k]) && lists'[tokens[k].query][tokens[k].position] == tokens[k].entry
      {
        assert IsPrefix(lists, l, t.query);
        if k < n { assert front[k] == tokens[k] && Landed(lists, l, front[k]); }
      }
      forall k, k' | 0 <= k < k' < |tokens|
        ensures (tokens[k].query, tokens[k].position) != (tokens[k'].query, tokens[k'].position)
      {
        assert front[k] == tokens[k] && Landed(lists, l, front[k]);
        if k' < n { assert front[k'] == tokens[k']; }
      }
      forall s, j | 0 <= s < |lists| && |lists[s]| <= j < |lists'[s]| ensures HasToken(tokens, s, j) {
        if j < |l[s]| {
          assert HasToken(front, s, j);
          var k :| 0 <= k < |front| && front[k].query == s && front[k].position == j;
          assert tokens[k] == front[k];
        } else {
          assert tokens[n].query == s && tokens[n].position == j;
        }
      }
    }
  }

  // ---------- the refinement relation ----------

  ghost predicate Entry<T>(m: map<Cell, seq<T>>, pg: Pages, lists: seq<seq<seq<T>>>, s: nat, j: nat)
    requires pg.size > 0 && s < |lists| && j < |lists[s]|
  {
    && Allocated(AnyTables(pg), pg.size, s, j)
    && pg.kvIndptr[s] + BlockOf(j, pg.size) < |pg.kvIndices|
    && CellOf(AnyTables(pg), pg.size, s, j) in m
    && m[CellOf(AnyTables(pg), pg.size, s, j)] == lists[s][j]
  }

  /** Reading every sequence back through its pages gives its list. */
  ghost predicate Refines<T>(m: map<Cell, seq<T>>, pg: Pages, lists: seq<seq<seq<T>>>)
    requires pg.size > 0
  {
    forall s, j | 0 <= s < |lists| && 0 <= j < |lists[s]| :: Entry(m, pg, lists, s, j)
  }

  ghost predicate PagesOk(pg: Pages) {
    pg.size > 0 && WellFormed(AnyTables(pg)) && DistinctPages(AnyTables(pg))
  }

  predicate Shaped<T>(pg: Pages, b: Batch<T>) {
    && pg.size > 0 && b.bsz <= |b.positions| == |b.keys| == |b.values|
    && forall t | 0 <= t < b.bsz :: InBlocks(pg, b, t)
  }

  /** The token's position lies inside its sequence's allocation. */
  predicate InBlocks<T>(pg: Pages, b: Batch<T>, t: nat)
    requires pg.size > 0 && t < |b.positions|
  {
    Readable(TablesOf(pg, b), b.positions, pg.size, t) && Covered(TablesOf(pg, b), b.positions, pg.size, t)
  }

  function TokenAt<T>(b: Batch<T>, t: nat): Token<T>
    requires t < |b.positions| == |b.keys| == |b.values|
  {
    Token(Query(b.qIndptr, t), b.positions[t], b.keys[t] + b.values[t])
  }

  function Tokens<T>(b: Batch<T>): (r: seq<Token<T>>)
    requires b.bsz <= |b.positions| == |b.keys| == |b.values|
    ensures |r| == b.bsz && forall t | 0 <= t < b.bsz :: r[t] == TokenAt(b, t)
  {
    seq(b.bsz, t requires 0 <= t < b.bsz => TokenAt(b, t))
  }

  /** The cell `get_page_table` names for token `t`. */
  function Target<T>(pg: Pages, b: Batch<T>, t: nat): Cell
    requires Shaped(pg, b) && t < |b.positions|
  {
    assert t < b.bsz ==> InBlocks(pg, b, t);
    (PageOf(TablesOf(pg, b), b.positions, pg.size, b.bsz, t), OffsetOf(b.positions[t], pg.size))
  }

  function Targets<T>(pg: Pages, b: Batch<T>): (r: seq<Cell>)
    requires Shaped(pg, b)
    ensures |r| == |b.positions| && forall t | 0 <= t < |r| :: r[t] == Target(pg, b, t)
  {
    seq(|b.positions|, t requires 0 <= t < |b.positions| => Target(pg, b, t))
  }

  /** A counted token's cell is the one its sequence and position own. */
  lemma TargetIsOwnCell<T>(pg: Pages, b: Batch<T>, t: nat)
    requires Shaped(pg, b) && PagesOk(pg) && t < b.bsz
    ensures var k := TokenAt(b, t);
            && Allocated(AnyTables(pg), pg.size, k.query, k.position)
            && pg.kvIndptr[k.query] + BlockOf(k.position, pg.size) < |pg.kvIndices|
            && Target(pg, b, t) == CellOf(AnyTables(pg), pg.size, k.query, k.position)
  {
    assert InBlocks(pg, b, t);
  }

  // ---------- the exact condition ----------

  /** Whatever key and value of tokens sent to the cell of `(s, j)` end up together, they make the entry. */
  ghost predicate AgreeAt<T>(pg: Pages, b: Batch<T>, lists: seq<seq<seq<T>>>, s: nat, j: nat, i: nat, k: nat)
    requires Shaped(pg, b) && s < |lists| && j < |lists[s]| && i < |b.positions| && k < |b.positions|
  {
    && Allocated(AnyTables(pg), pg.size, s, j)
    && pg.kvIndptr[s] + BlockOf(j, pg.size) < |pg.kvIndices|
    && Target(pg, b, i) == CellOf(AnyTables(pg), pg.size, s, j) == Target(pg, b, k)
    ==> b.keys[i] + b.values[k] == lists[s][j]
  }

  ghost predicate WritesAgree<T>(pg: Pages, b: Batch<T>, lists: seq<seq<seq<T>>>)
    requires Shaped(pg, b)
  {
    forall s: nat, j: nat, i: nat, k: nat
      | s < |lists| && j < |lists[s]| && i < |b.positions| && k < |b.positions| :: AgreeAt(pg, b, lists, s, j, i, k)
  }

  /** What an update is given: pages that fit, tokens that come next in their sequences, cells that exist. */
  ghost predicate Ready<T>(m: map<Cell, seq<T>>, pg: Pages, b: Batch<T>, lists: seq<seq<seq<T>>>) {
    && Shaped(pg, b) && PagesOk(pg) && Refines(m, pg, lists) && Fits(lists, Tokens(b))
    && forall t | 0 <= t < |b.positions| :: Target(pg, b, t) in m
  }

  /** Every entry, old or new, has a cell of its own in the cache. */
  lemma EntryHasCell<T>(m: map<Cell, seq<T>>, pg: Pages, b: Batch<T>, lists: seq<seq<seq<T>>>, s: nat, j: nat)
    requires Ready(m, pg, b, lists) && s < |lists| && j < |AppendAll(lists, Tokens(b))[s]|
    ensures Allocated(AnyTables(pg), pg.size, s, j) && pg.kvIndptr[s] + BlockOf(j, pg.size) < |pg.kvIndices|
    ensures CellOf(AnyTables(pg), pg.size, s, j) in m
    ensures j < |lists[s]| ==>
              m[CellOf(AnyTables(pg), pg.size, s, j)] == lists[s][j] == AppendAll(lists, Tokens(b))[s][j]
    ensures j >= |lists[s]| ==> CellOf(AnyTables(pg), pg.size, s, j) in Targets(pg, b)
  {
    Appended(lists, Tokens(b));
    if j < |lists[s]| {
      assert Entry(m, pg, lists, s, j) && IsPrefix(lists, AppendAll(lists, Tokens(b)), s);
    } else {
      assert HasToken(Tokens(b), s, j);
      var k :| 0 <= k < b.bsz && Tokens(b)[k].query == s && Tokens(b)[k].position == j;
      TargetIsOwnCell(pg, b, k);
      assert Targets(pg, b)[k] in m;
    }
  }

  /** One update appends each token to its sequence and leaves all other entries alone. */
  lemma UpdateRefines<T>(m: map<Cell, seq<T>>, m': map<Cell, seq<T>>, pg: Pages, b: Batch<T>, lists: seq<seq<seq<T>>>)
    requires Ready(m, pg, b, lists) && WritesAgree(pg, b, AppendAll(lists, Tokens(b)))
    requires Wrote(m, m', Targets(pg, b), b.keys, b.values)
    ensures Refines(m', pg, AppendAll(lists, Tokens(b)))
  {
    hide Refines, AppendAll, Fits;
    var lists' := AppendAll(lists, Tokens(b));
    forall s: nat, j: nat | s < |lists'| && j < |lists'[s]| ensures Entry(m', pg, lists', s, j) {
      EntryHasCell(m, pg, b, lists, s, j);
      var c := CellOf(AnyTables(pg), pg.size, s, j);
      if c in Targets(pg, b) {
        assert HoldsSome(m'[c], c, Targets(pg, b), b.keys, b.values);
        var i, k :| 0 <= i < |b.keys| && 0 <= k < |b.keys| && Targets(pg, b)[i] == c == Targets(pg, b)[k] &&
                    m'[c] == b.keys[i] + b.values[k];
        assert AgreeAt(pg, b, lists', s, j, i, k);
      }
    }
    RefinesIntro(m', pg, lists');
  }

  lemma RefinesIntro<T>(m: map<Cell, seq<T>>, pg: Pages, lists: seq<seq<seq<T>>>)
    requires pg.size > 0
    requires forall s: nat, j: nat | s < |lists| && j < |lists[s]| :: Entry(m, pg, lists, s, j)
    ensures Refines(m, pg, lists)
  {
  }

  /** One way the writes may fall out: the key of `i` and the value of `k` in their cell, the last token's elsewhere. */
  ghost function Outcome<T>(m: map<Cell, seq<T>>, cells: seq<Cell>, keys: seq<seq<T>>, values: seq<seq<T>>,
                            i: nat, k: nat)
    : map<Cell, seq<T>>
    requires |cells| == |keys| == |values| && i < |cells| && k < |cells|
  {
    map c | c in m ::
      if c == cells[i] then keys[i] + values[k]
      else match LastWriter(cells, c, |cells|)
           case None => m[c]
           case Some(w) => keys[w] + values[w]
  }

  lemma OutcomeIsPossible<T>(m: map<Cell, seq<T>>, cells: seq<Cell>, keys: seq<seq<T>>, values: seq<seq<T>>,
                             i: nat, k: nat)
    requires |cells| == |keys| == |values| && i < |cells| && k < |cells| && cells[i] == cells[k]
    ensures Wrote(m, Outcome(m, cells, keys, values, i, k), cells, keys, values)
  {
    var m' := Outcome(m, cells, keys, values, i, k);
    forall c | c in m && c in cells ensures HoldsSome(m'[c], c, cells, keys, values) {
      if c != cells[i] {
        var w := LastWriter(cells, c, |cells|).value;
        assert cells[w] == c && m'[c] == keys[w] + values[w];
      }
    }
  }

  lemma DisagreementShows<T>(m: map<Cell, seq<T>>, pg: Pages, b: Batch<T>, lists: seq<seq<seq<T>>>,
                             s: nat, j: nat, i: nat, k: nat) returns (m': map<Cell, seq<T>>)
    requires Ready(m, pg, b, lists) && s < |lists| && j < |AppendAll(lists, Tokens(b))[s]|
    requires i < |b.positions| && k < |b.positions| && !AgreeAt(pg, b, AppendAll(lists, Tokens(b)), s, j, i, k)
    ensures Wrote(m, m', Targets(pg, b), b.keys, b.values) && !Refines(m', pg, AppendAll(lists, Tokens(b)))
  {
    hide AppendAll, Fits;
    EntryHasCell(m, pg, b, lists, s, j);
    m' := Outcome(m, Targets(pg, b), b.keys, b.values, i, k);
    OutcomeIsPossible(m, Targets(pg, b), b.keys, b.values, i, k);
    assert !Entry(m', pg, AppendAll(lists, Tokens(b)), s, j);
  }

  /** Whatever the order of the writes, the update refines appending. */
  ghost predicate AlwaysRefines<T(!new)>(m: map<Cell, seq<T>>, pg: Pages, b: Batch<T>, lists: seq<seq<seq<T>>>)
    requires Shaped(pg, b)
  {
    forall m' | Wrote(m, m', Targets(pg, b), b.keys, b.values) :: Refines(m', pg, AppendAll(lists, Tokens(b)))
  }

  /** It does if and only if all writes that may meet in the cell of an entry agree with the entry. */
  lemma UpdateRefinesIff<T(!new)>(m: map<Cell, seq<T>>, pg: Pages, b: Batch<T>, lists: seq<seq<seq<T>>>)
    requires Ready(m, pg, b, lists)
    ensures AlwaysRefines(m, pg, b, lists) <==> WritesAgree(pg, b, AppendAll(lists, Tokens(b)))
  {
    hide Ready, Refines, AppendAll, Wrote, AgreeAt;
    ReadyIsShaped(m, pg, b, lists);
    var lists' := AppendAll(lists, Tokens(b));
    if WritesAgree(pg, b, lists') {
      forall m' | Wrote(m, m', Targets(pg, b), b.keys, b.values) ensures Refines(m', pg, lists') {
        UpdateRefines(m, m', pg, b, lists);
      }
    } else {
      var s: nat, j: nat, i: nat, k: nat :| s < |lists'| && j < |lists'[s]| && i < |b.positions| && k < |b.positions| &&
                                            !AgreeAt(pg, b, lists', s, j, i, k);
      var m' := DisagreementShows(m, pg, b, lists, s, j, i, k);
    }
  }

  lemma ReadyIsShaped<T>(m: map<Cell, seq<T>>, pg: Pages, b: Batch<T>, lists: seq<seq<seq<T>>>)
    requires Ready(m, pg, b, lists)
    ensures Shaped(pg, b) && PagesOk(pg) && Fits(lists, Tokens(b))
  {
  }

  // ---------- runs of updates ----------

  /** Between calls sequences may get more pages, and keep those they have. */
  ghost predicate Grows(pg: Pages, pg': Pages) {
    && pg'.size == pg.size && WellFormed(AnyTables(pg)) && WellFormed(AnyTables(pg'))
    && |pg.kvIndptr| <= |pg'.kvIndptr|
    && forall s, p | 0 <= s && s + 1 < |pg.kvIndptr| && 0 <= p < pg.kvIndptr[s + 1] - pg.kvIndptr[s] ::
         PageKept(pg, pg', s, p)
  }

  predicate PageKept(pg: Pages, pg': Pages, s: nat, p: nat)
    requires s + 1 < |pg.kvIndptr| <= |pg'.kvIndptr|
  {
    && pg.kvIndptr[s] + p < |pg.kvIndices|
    && pg'.kvIndptr[s] + p < pg'.kvIndptr[s + 1] && pg'.kvIndptr[s] + p < |pg'.kvIndices|
    && pg'.kvIndices[pg'.kvIndptr[s] + p] == pg.kvIndices[pg.kvIndptr[s] + p]
  }

  lemma GrowingKeepsEntries<T>(m: map<Cell, seq<T>>, pg: Pages, pg': Pages, lists: seq<seq<seq<T>>>)
    requires pg.size > 0 && Grows(pg, pg') && Refines(m, pg, lists)
    ensures Refines(m, pg', lists)
  {
    hide BlockOf, OffsetOf;
    forall s, j | 0 <= s < |lists| && 0 <= j < |lists[s]| ensures Entry(m, pg', lists, s, j) {
      assert Entry(m, pg, lists, s, j);
      assert PageKept(pg, pg', s, BlockOf(j, pg.size));
    }
  }

  ghost predicate StepOk<T>(m: map<Cell, seq<T>>, m': map<Cell, seq<T>>, pg: Pages, b: Batch<T>,
                            lists: seq<seq<seq<T>>>) {
    && Shaped(pg, b) && PagesOk(pg) && Fits(lists, Tokens(b)) && WritesAgree(pg, b, AppendAll(lists, Tokens(b)))
    && Wrote(m, m', Targets(pg, b), b.keys, b.values)
    && (forall t | 0 <= t < |b.positions| :: Target(pg, b, t) in m)
  }

  lemma StepRefines<T>(m: map<Cell, seq<T>>, m': map<Cell, seq<T>>, pg: Pages, pg': Pages, b: Batch<T>,
                       lists: seq<seq<seq<T>>>)
    requires pg.size > 0 && Refines(m, pg, lists) && StepOk(m, m', pg, b, lists) && Grows(pg, pg')
    ensures pg'.size > 0 && Refines(m', pg', AppendAll(lists, Tokens(b)))
  {
    UpdateRefines(m, m', pg, b, lists);
    GrowingKeepsEntries(m', pg, pg', AppendAll(lists, Tokens(b)));
  }

  predicate Sized<T>(batches: seq<Batch<T>>) {
    forall i | 0 <= i < |batches| ::
      batches[i].bsz <= |batches[i].positions| == |batches[i].keys| == |batches[i].values|
  }

  function AppendBatches<T>(lists: seq<seq<seq<T>>>, batches: seq<Batch<T>>): seq<seq<seq<T>>>
    requires Sized(batches)
  {
    if batches == [] then lists
    else AppendAll(AppendBatches(lists, batches[..|batches| - 1]), Tokens(batches[|batches| - 1]))
  }

  /** A run: update `i` uses the tables `pgs[i]` and takes the cache from `ms[i]` to `ms[i + 1]`. */
  ghost predicate RunOk<T>(ms: seq<map<Cell, seq<T>>>, pgs: seq<Pages>, batches: seq<Batch<T>>,
                           lists: seq<seq<seq<T>>>) {
    && |ms| == |pgs| == |batches| + 1 && Sized(batches)
    && (forall i | 0 <= i < |batches| :: Grows(pgs[i], pgs[i + 1]))
    && (forall i | 0 <= i < |batches| ::
          StepOk(ms[i], ms[i + 1], pgs[i], batches[i], AppendBatches(lists, batches[..i])))
  }

  lemma RunPrefix<T>(ms: seq<map<Cell, seq<T>>>, pgs: seq<Pages>, batches: seq<Batch<T>>, lists: seq<seq<seq<T>>>)
    requires RunOk(ms, pgs, batches, lists) && batches != []
    ensures var n := |batches| - 1;
            && RunOk(ms[..n + 1], pgs[..n + 1], batches[..n], lists)
            && Grows(pgs[n], pgs[n + 1])
            && StepOk(ms[n], ms[n + 1], pgs[n], batches[n], AppendBatches(lists, batches[..n]))
  {
    hide StepOk, Grows, AppendBatches;
    var n := |batches| - 1;
    forall i | 0 <= i < n
      ensures StepOk(ms[i], ms[i + 1], pgs[i], batches[i], AppendBatches(lists, batches[..n][..i]))
    {
      assert batches[..n][..i] == batches[..i];
    }
  }

  /**
   After any run of updates, each with the page tables of its own call, the cache holds exactly what was appended,
   sequence by sequence, whatever pages are handed out in between.
   */
  lemma {:induction false} RunRefines<T>(ms: seq<map<Cell, seq<T>>>, pgs: seq<Pages>, batches: seq<Batch<T>>,
                                         lists: seq<seq<seq<T>>>)
    requires RunOk(ms, pgs, batches, lists) && pgs[0].size > 0 && Refines(ms[0], pgs[0], lists)
    ensures pgs[|batches|].size > 0 && Refines(ms[|batches|], pgs[|batches|], AppendBatches(lists, batches))
  {
    hide StepOk, Refines, AppendAll, Tokens, Grows;
    if batches != [] {
      var n := |batches| - 1;
      RunPrefix(ms, pgs, batches, lists);
      RunRefines(ms[..n + 1], pgs[..n + 1], batches[..n], lists);
      StepRefines(ms[n], ms[n + 1], pgs[n], pgs[n + 1], batches[n], AppendBatches(lists, batches[..n]));
    }
  }

  /** `get_page_table` and then `update`, as the attention layers call them. */
  method AppendBatch<T>(cache: KvCache<T>, layer: nat, pg: Pages, b: Batch<T>, ghost lists: seq<seq<seq<T>>>)
    requires cache.Valid() && layer < |cache.kCaches| && pg.size == cache.pageSize
    requires |b.keys| == |b.values|
    requires forall t | 0 <= t < |b.keys| :: |b.keys[t]| == cache.rank && |b.values[t]| == cache.width - cache.rank
    requires Ready(cache.Cells(layer), pg, b, lists) && WritesAgree(pg, b, AppendAll(lists, Tokens(b)))
    modifies cache.kCaches[layer]
    ensures cache.Valid() && Refines(cache.Cells(layer), pg, AppendAll(lists, Tokens(b)))
  {
    forall t | 0 <= t < b.bsz ensures Readable(TablesOf(pg, b), b.positions, pg.size, t) {
      assert InBlocks(pg, b, t);
    }
    var r := GetPageTable(b.positions, TablesOf(pg, b), b.bsz, pg.size);
    assert forall t | 0 <= t < |b.positions| :: Target(pg, b, t) == (r.value.0[t], r.value.1[t]);
    assert Zip(r.value.0, r.value.1) == Targets(pg, b);
    hide Refines, WritesAgree, Fits, PagesOk;
    cache.Update(b.keys, b.values, layer, r.value.0, r.value.1);
    UpdateRefines(old(cache.Cells(layer)), cache.Cells(layer), pg, b, lists);
  }
}
