/** What every reachable state of the task queue satisfies, whatever the clients do and however they interleave. */
module TaskQueueSafety {
  import opened Options
  import opened TaskQueue

  type Heap = map<Addr, Node>
  type Clients = map<ClientId, Client>

  /** Index in `order` of the first published node still allocated. */
  function Low(s: State): nat {
    if s.worker.Storing? then s.hist.taken + 1 else s.hist.taken
  }

  // ---------- the list ----------

  /** `pos` inverts `order` from `low` on, so live published addresses are pairwise distinct. */
  ghost predicate Indexed(order: seq<Entry>, low: nat, pos: map<Addr, nat>) {
    && (forall a | a in pos :: low <= pos[a] < |order| && order[pos[a]].addr == a)
    && (forall i | low <= i < |order| :: order[i].addr in pos && pos[order[i].addr] == i)
  }

  /** Live nodes are the published and the private ones, without overlap. */
  ghost predicate Partitioned(heap: Heap, pos: map<Addr, nat>, owner: map<Addr, ClientId>) {
    && (forall a :: a in heap <==> a in pos || a in owner)
    && (forall a | a in pos :: a !in owner)
  }

  /** Published node `i` is linked to its successor unless it is the last or a client has yet to store the link. */
  predicate LinkOk(heap: Heap, order: seq<Entry>, linker: map<nat, ClientId>, i: nat)
    requires i < |order|
  {
    && order[i].addr in heap
    && heap[order[i].addr] ==
       Node(order[i].task, if i + 1 < |order| && i !in linker then Some(order[i + 1].addr) else None)
  }

  ghost predicate LinksOk(heap: Heap, order: seq<Entry>, low: nat, linker: map<nat, ClientId>) {
    forall i | low <= i < |order| :: LinkOk(heap, order, linker, i)
  }

  predicate WillLink(clients: Clients, order: seq<Entry>, c: ClientId, i: nat)
    requires i + 1 < |order|
  {
    c in clients && clients[c] == Exchanged(order[i + 1].addr, order[i].addr)
  }

  ghost predicate LinkersOk(order: seq<Entry>, low: nat, linker: map<nat, ClientId>, clients: Clients) {
    forall i | i in linker :: low <= i && i + 1 < |order| && WillLink(clients, order, linker[i], i)
  }

  ghost predicate LinkersKnown(pos: map<Addr, nat>, linker: map<nat, ClientId>, clients: Clients) {
    forall c | c in clients :: clients[c].Exchanged? ==>
      clients[c].prev in pos && pos[clients[c].prev] in linker && linker[pos[clients[c].prev]] == c
  }

  ghost predicate OwnersOk(heap: Heap, owner: map<Addr, ClientId>, clients: Clients) {
    forall a | a in owner :: owner[a] in clients && a in heap && heap[a].next.None? &&
      clients[owner[a]] == Allocated(heap[a].task, a)
  }

  ghost predicate OwnersKnown(owner: map<Addr, ClientId>, clients: Clients) {
    forall c | c in clients :: clients[c].Allocated? ==>
      clients[c].node in owner && owner[clients[c].node] == c
  }

  ghost predicate ListOk(s: State) {
    var h := s.hist;
    && Indexed(h.order, Low(s), h.pos)
    && Partitioned(s.heap, h.pos, h.owner)
    && LinksOk(s.heap, h.order, Low(s), h.linker)
    && LinkersOk(h.order, Low(s), h.linker, s.clients)
    && LinkersKnown(h.pos, h.linker, s.clients)
    && OwnersOk(s.heap, h.owner, s.clients)
    && OwnersKnown(h.owner, s.clients)
  }

  predicate HasNext(w: Worker) {
    w.Running? || w.Deleting? || w.Storing?
  }

  /** Where `head`, `tail` and the worker point; once nodes are being freed, where the destructor has got to. */
  ghost predicate EndsOk(s: State) {
    var h := s.hist;
    && h.order != []
    && (Alive(s) ==>
          && h.taken < |h.order|
          && s.tail == h.order[|h.order| - 1].addr
          && s.head == s.curr == h.order[h.taken].addr
          && (HasNext(s.worker) ==> h.taken + 1 < |h.order| && s.worker.next == h.order[h.taken + 1].addr
                                    && h.taken !in h.linker))
    && (!Alive(s) ==>
          && s.worker.Exited? && s.clients == map[]
          && (if s.destructor.Freeing? && s.destructor.node.Some?
              then h.taken < |h.order| && s.destructor.node.value == h.order[h.taken].addr
              else h.taken == |h.order|))
  }

  // ---------- the counters ----------

  predicate Uncommitted(c: Client) {
    c.Counted? || c.Allocated?
  }

  ghost predicate UncommittedOk(uncommitted: set<ClientId>, clients: Clients) {
    forall c :: c in uncommitted <==> c in clients && Uncommitted(clients[c])
  }

  function Unpaid(w: Worker): nat {
    if w.Finishing? then 1 else 0
  }

  /** `pending` counts the enqueues past their increment less the tasks finished. */
  ghost predicate CountsOk(s: State) {
    var h := s.hist;
    && UncommittedOk(h.uncommitted, s.clients)
    && h.counted == |h.order| - 1 + |h.uncommitted|
    && s.pending == h.counted - h.finished
    && h.finished + Unpaid(s.worker) <= |h.order| - 1
    && (Alive(s) ==> h.finished + Unpaid(s.worker) == h.taken)
  }

  /** Nodes made and not yet freed are exactly the live ones. */
  ghost predicate NodeCountOk(heap: Heap, allocs: nat, frees: nat) {
    allocs == frees + |heap.Keys|
  }

  /** How many published nodes after the dummy have had their task run. */
  function RunCount(s: State): nat {
    s.hist.finished + if s.worker.Deleting? || s.worker.Storing? || s.worker.Finishing? then 1 else 0
  }

  ghost predicate RanOk(order: seq<Entry>, count: nat, ran: seq<Task>) {
    count < |order| && ran == TasksOf(order[1..count + 1])
  }

  // ---------- the mutex and the condition variable ----------

  predicate HoldsLock(c: Client) {
    c.SyncHolding? || c.SyncDozing?
  }

  ghost predicate LockOk(holder: Option<Holder>, worker: Worker, clients: Clients) {
    && (holder == Some(WorkerHolds) <==> worker.Holding? || worker.Dozing?)
    && (forall c :: holder == Some(ClientHolds(c)) <==> c in clients && HoldsLock(clients[c]))
  }

  /** A client asleep in `sync` whose condition holds has a `notify_all` coming. */
  ghost predicate SyncOk(s: State) {
    && (forall c | c in s.clients :: s.clients[c].SyncDozing? ==> !SyncReady(s, s.clients[c].allow))
    && (forall c | c in s.clients :: s.clients[c].SyncWaiting? ==>
          !SyncReady(s, s.clients[c].allow) || s.worker.Broadcasting? || s.destructor.Marked?)
    && (s.worker.Dozing? ==> !s.done)
    && (s.worker.Waiting? && s.done ==> s.destructor.Marked?)
    && (s.done <==> !s.destructor.NotStarted?)
    && (s.worker.Exited? ==> s.done)
  }

  ghost predicate Inv(s: State) {
    && !s.fault
    && ListOk(s)
    && EndsOk(s)
    && CountsOk(s)
    && NodeCountOk(s.heap, s.hist.allocs, s.hist.frees)
    && RanOk(s.hist.order, RunCount(s), s.hist.ran)
    && LockOk(s.holder, s.worker, s.clients)
    && SyncOk(s)
  }

  // ---------- the list under actions that leave it alone ----------

  predicate OnList(c: Client) {
    c.Allocated? || c.Exchanged?
  }

  /** The clients that hold a node are the same ones, at the same point. */
  ghost predicate SameHolders(old_: Clients, new_: Clients) {
    && (forall c | c in old_ && OnList(old_[c]) :: c in new_ && new_[c] == old_[c])
    && (forall c | c in new_ && OnList(new_[c]) :: c in old_ && old_[c] == new_[c])
  }

  lemma ListUntouched(s: State, s': State)
    requires ListOk(s)
    requires s'.heap == s.heap && s'.hist.order == s.hist.order && s'.hist.pos == s.hist.pos
    requires s'.hist.owner == s.hist.owner && s'.hist.linker == s.hist.linker && Low(s') == Low(s)
    requires SameHolders(s.clients, s'.clients)
    ensures ListOk(s')
  {
    var h := s.hist;
    assert LinkersOk(h.order, Low(s), h.linker, s'.clients) by {
      forall i | i in h.linker
        ensures Low(s) <= i && i + 1 < |h.order| && WillLink(s'.clients, h.order, h.linker[i], i)
      {
        assert WillLink(s.clients, h.order, h.linker[i], i);
      }
    }
  }

  // ---------- actions on the list ----------

  lemma AllocKeepsList(s: State, c: ClientId, a: Addr)
    requires ListOk(s) && Enabled(s, Alloc(c, a))
    ensures ListOk(DoAlloc(s, c, a))
  {
    var s' := DoAlloc(s, c, a);
    var h, h' := s.hist, s'.hist;
    assert a !in h.pos && a !in h.owner;
    forall i: nat | Low(s) <= i < |h.order| ensures LinkOk(s'.heap, h.order, h.linker, i) {
      assert LinkOk(s.heap, h.order, h.linker, i);
    }
    forall i | i in h.linker
      ensures Low(s) <= i && i + 1 < |h.order| && WillLink(s'.clients, h.order, h.linker[i], i)
    {
      assert WillLink(s.clients, h.order, h.linker[i], i);
    }
  }

  lemma NoLinkerYet(s: State, i: nat)
    requires ListOk(s) && i + 1 >= |s.hist.order|
    ensures i !in s.hist.linker
  {
  }

  lemma ExchangeKeepsIndex(s: State, c: ClientId)
    requires ListOk(s) && EndsOk(s) && Enabled(s, Exchange(c))
    ensures var s' := DoExchange(s, c);
            Indexed(s'.hist.order, Low(s'), s'.hist.pos) && Partitioned(s'.heap, s'.hist.pos, s'.hist.owner)
  {
    hide LinksOk, LinkersOk, LinkersKnown, OwnersOk;
    assert s.clients[c].node in s.hist.owner && s.clients[c].node !in s.hist.pos;
  }

  lemma ExchangeKeepsOwners(s: State, c: ClientId)
    requires ListOk(s) && Enabled(s, Exchange(c))
    ensures var s' := DoExchange(s, c);
            OwnersOk(s'.heap, s'.hist.owner, s'.clients) && OwnersKnown(s'.hist.owner, s'.clients)
  {
    hide LinksOk, LinkersOk, LinkersKnown, Indexed, Partitioned;
  }

  lemma ExchangeKeepsLinks(s: State, c: ClientId)
    requires ListOk(s) && EndsOk(s) && Enabled(s, Exchange(c))
    ensures var s' := DoExchange(s, c); LinksOk(s'.heap, s'.hist.order, Low(s'), s'.hist.linker)
  {
    hide LinkersKnown, Indexed, Partitioned;
    var s' := DoExchange(s, c);
    var h, h' := s.hist, s'.hist;
    var n := |h.order|;
    assert s.clients[c].node in h.owner;
    NoLinkerYet(s, n - 1);
    NoLinkerYet(s, n);
    hide LinkersOk, OwnersKnown;
    forall i: nat | Low(s) <= i < n + 1 ensures LinkOk(s'.heap, h'.order, h'.linker, i) {
      if i < n {
        assert LinkOk(s.heap, h.order, h.linker, i);
      }
    }
  }

  lemma ExchangeKeepsList(s: State, c: ClientId)
    requires ListOk(s) && EndsOk(s) && Enabled(s, Exchange(c))
    ensures ListOk(DoExchange(s, c))
  {
    hide Indexed, Partitioned, LinksOk, LinkersOk, LinkersKnown, OwnersOk, OwnersKnown, DoExchange;
    ExchangeKeepsIndex(s, c);
    ExchangeKeepsLinks(s, c);
    ExchangeKeepsLinkers(s, c);
    ExchangeKeepsOwners(s, c);
  }

  lemma ExchangeKeepsLinkers(s: State, c: ClientId)
    requires ListOk(s) && EndsOk(s) && Enabled(s, Exchange(c))
    ensures var s' := DoExchange(s, c);
            && LinkersOk(s'.hist.order, Low(s'), s'.hist.linker, s'.clients)
            && LinkersKnown(s'.hist.pos, s'.hist.linker, s'.clients)
  {
    hide LinksOk, OwnersOk;
    var s' := DoExchange(s, c);
    var h, h' := s.hist, s'.hist;
    var n := |h.order|;
    assert Alive(s) && n > Low(s);
    assert s.clients[c].node in h.owner && s.clients[c].node !in h.pos;
    assert h.pos[h.order[n - 1].addr] == n - 1;
    forall i | i in h'.linker
      ensures Low(s) <= i && i + 1 < n + 1 && WillLink(s'.clients, h'.order, h'.linker[i], i)
    {
      if i != n - 1 { assert WillLink(s.clients, h.order, h.linker[i], i); }
    }
    forall d | d in s'.clients && s'.clients[d].Exchanged?
      ensures s'.clients[d].prev in h'.pos && h'.pos[s'.clients[d].prev] in h'.linker
      ensures h'.linker[h'.pos[s'.clients[d].prev]] == d
    {
      if d != c { assert h.pos[s.clients[d].prev] in h.linker; }
    }
  }

  lemma LinkKeepsList(s: State, c: ClientId)
    requires ListOk(s) && Enabled(s, Link(c))
    ensures ListOk(DoLink(s, c)) && DoLink(s, c).fault == s.fault
  {
    var s' := DoLink(s, c);
    var h, h' := s.hist, s'.hist;
    var prev := s.clients[c].prev;
    var j := h.pos[prev];
    assert WillLink(s.clients, h.order, h.linker[j], j);
    assert LinkOk(s.heap, h.order, h.linker, j);
    assert prev in s.heap;
    forall i: nat | Low(s) <= i < |h.order| ensures LinkOk(s'.heap, h.order, h'.linker, i) {
      assert LinkOk(s.heap, h.order, h.linker, i);
    }
    forall i | i in h'.linker
      ensures Low(s) <= i && i + 1 < |h.order| && WillLink(s'.clients, h.order, h'.linker[i], i)
    {
      assert WillLink(s.clients, h.order, h.linker[i], i);
    }
  }

  lemma DeleteKeepsList(s: State)
    requires ListOk(s) && EndsOk(s) && Enabled(s, WDelete)
    ensures ListOk(DoDelete(s)) && DoDelete(s).fault == s.fault
    ensures s.curr in s.heap
  {
    var s' := DoDelete(s);
    var h, h' := s.hist, s'.hist;
    assert LinkOk(s.heap, h.order, h.linker, h.taken);
    assert h.pos[s.curr] == h.taken;
    forall i: nat | Low(s') <= i < |h.order| ensures LinkOk(s'.heap, h.order, h.linker, i) {
      assert LinkOk(s.heap, h.order, h.linker, i);
      assert h.order[i].addr != s.curr;
    }
    forall i | i in h.linker ensures Low(s') <= i {
      assert i != h.taken;
    }
  }

  lemma LinkerIsClient(s: State, i: nat)
    requires ListOk(s) && i in s.hist.linker
    ensures s.clients != map[]
  {
    assert WillLink(s.clients, s.hist.order, s.hist.linker[i], i);
  }

  lemma FreeKeepsList(s: State)
    requires ListOk(s) && EndsOk(s) && Enabled(s, DFree)
    ensures ListOk(DoFree(s)) && DoFree(s).fault == s.fault
    ensures s.destructor.node.Some? ==>
      s.destructor.node.value in s.heap && s.hist.taken !in s.hist.linker &&
      s.heap[s.destructor.node.value].next ==
        if s.hist.taken + 1 < |s.hist.order| then Some(s.hist.order[s.hist.taken + 1].addr) else None
  {
    var s' := DoFree(s);
    var h, h' := s.hist, s'.hist;
    if s.destructor.node.Some? {
      assert LinkOk(s.heap, h.order, h.linker, h.taken);
      if h.taken in h.linker {
        LinkerIsClient(s, h.taken);
        assert false;
      }
      forall i: nat | Low(s') <= i < |h.order| ensures LinkOk(s'.heap, h.order, h.linker, i) {
        assert LinkOk(s.heap, h.order, h.linker, i);
      }
    }
  }

  predicate EnqueueAction(a: Action) {
    a.Count? || a.Alloc? || a.Exchange? || a.Link? || a.PassLock? || a.NotifyOne?
  }

  predicate SyncAction(a: Action) {
    a.SyncCall? || a.SyncLock? || a.SyncTest? || a.SyncSleep? || a.SyncSpurious?
  }

  predicate ClientAction(a: Action) {
    EnqueueAction(a) || SyncAction(a)
  }

  predicate TakeAction(a: Action) {
    a.WLoad? || a.WRun? || a.WDelete? || a.WStore?
  }

  predicate WorkerAction(a: Action) {
    TakeAction(a) || a.WTest? || a.WFinish? || a.WBroadcast? || a.WLock? || a.WEval? || a.WSleep? || a.WSpurious?
  }

  predicate Structural(a: Action) {
    a.Alloc? || a.Exchange? || a.Link? || a.WDelete? || a.DFree?
  }

  lemma HoldersKeptUnderEnqueue(s: State, a: Action)
    requires Enabled(s, a) && !Structural(a) && EnqueueAction(a)
    ensures SameHolders(s.clients, Apply(s, a).clients)
  {
  }

  lemma HoldersKeptUnderSync(s: State, a: Action)
    requires Enabled(s, a) && SyncAction(a)
    ensures SameHolders(s.clients, Apply(s, a).clients)
  {
  }

  lemma HoldersKeptUnderOthers(s: State, a: Action)
    requires Enabled(s, a) && !Structural(a) && !ClientAction(a)
    ensures SameHolders(s.clients, Apply(s, a).clients)
  {
  }

  lemma HoldersKept(s: State, a: Action)
    requires Enabled(s, a) && !Structural(a)
    ensures SameHolders(s.clients, Apply(s, a).clients)
  {
    hide Apply, Enabled, SameHolders;
    if EnqueueAction(a) {
      HoldersKeptUnderEnqueue(s, a);
    } else if SyncAction(a) {
      HoldersKeptUnderSync(s, a);
    } else {
      HoldersKeptUnderOthers(s, a);
    }
  }

  lemma FieldsKeptUnderClients(s: State, a: Action)
    requires Enabled(s, a) && !Structural(a) && ClientAction(a)
    ensures Apply(s, a).heap == s.heap && Apply(s, a).hist.order == s.hist.order
    ensures Apply(s, a).hist.pos == s.hist.pos && Apply(s, a).hist.owner == s.hist.owner
    ensures Apply(s, a).hist.linker == s.hist.linker && Low(Apply(s, a)) == Low(s)
    ensures Apply(s, a).hist.allocs == s.hist.allocs && Apply(s, a).hist.frees == s.hist.frees
  {
  }

  lemma FieldsKeptUnderOthers(s: State, a: Action)
    requires Enabled(s, a) && !Structural(a) && !ClientAction(a)
    ensures Apply(s, a).heap == s.heap && Apply(s, a).hist.order == s.hist.order
    ensures Apply(s, a).hist.pos == s.hist.pos && Apply(s, a).hist.owner == s.hist.owner
    ensures Apply(s, a).hist.linker == s.hist.linker && Low(Apply(s, a)) == Low(s)
    ensures Apply(s, a).hist.allocs == s.hist.allocs && Apply(s, a).hist.frees == s.hist.frees
  {
  }

  lemma FieldsKept(s: State, a: Action)
    requires Enabled(s, a) && !Structural(a)
    ensures Apply(s, a).heap == s.heap && Apply(s, a).hist.order == s.hist.order
    ensures Apply(s, a).hist.pos == s.hist.pos && Apply(s, a).hist.owner == s.hist.owner
    ensures Apply(s, a).hist.linker == s.hist.linker && Low(Apply(s, a)) == Low(s)
    ensures Apply(s, a).hist.allocs == s.hist.allocs && Apply(s, a).hist.frees == s.hist.frees
  {
    hide *;
    if ClientAction(a) { FieldsKeptUnderClients(s, a); } else { FieldsKeptUnderOthers(s, a); }
  }

  lemma ListKept(s: State, a: Action)
    requires ListOk(s) && EndsOk(s) && Enabled(s, a)
    ensures ListOk(Apply(s, a))
  {
    hide ListOk, EndsOk;
    match a
    case Alloc(c, addr) => AllocKeepsList(s, c, addr);
    case Exchange(c) => ExchangeKeepsList(s, c);
    case Link(c) => LinkKeepsList(s, c);
    case WDelete => DeleteKeepsList(s);
    case DFree => FreeKeepsList(s);
    case _ =>
      FieldsKept(s, a);
      HoldersKept(s, a);
      ListUntouched(s, Apply(s, a));
  }

  /** The node the worker stands on is allocated and tells it what comes next. */
  lemma CurrentNode(s: State)
    requires ListOk(s) && EndsOk(s) && Alive(s) && !s.worker.Storing?
    ensures s.curr in s.heap
    ensures s.hist.taken + 1 < |s.hist.order| && s.hist.taken !in s.hist.linker ==>
      s.heap[s.curr].next == Some(s.hist.order[s.hist.taken + 1].addr)
    ensures s.hist.taken + 1 == |s.hist.order| || s.hist.taken in s.hist.linker ==> s.heap[s.curr].next == None
  {
    assert LinkOk(s.heap, s.hist.order, s.hist.linker, s.hist.taken);
  }

  lemma NextNode(s: State)
    requires ListOk(s) && EndsOk(s) && Alive(s) && HasNext(s.worker)
    ensures s.worker.next in s.heap && s.heap[s.worker.next].task == s.hist.order[s.hist.taken + 1].task
  {
    assert LinkOk(s.heap, s.hist.order, s.hist.linker, s.hist.taken + 1);
  }

  /** A client that has exchanged but not linked can still reach the node it must link from. */
  lemma PredecessorLive(s: State, c: ClientId)
    requires ListOk(s) && c in s.clients && s.clients[c].Exchanged?
    ensures s.clients[c].prev in s.heap
  {
  }

  // ---------- no freed node is touched ----------

  /** The actions that follow a pointer into the list. */
  predicate Dereferences(a: Action) {
    a.Link? || a.WLoad? || a.WEval? || a.WRun? || a.WDelete? || a.DFree?
  }

  lemma FaultUntouched(s: State, a: Action)
    requires Enabled(s, a) && !Dereferences(a)
    ensures Apply(s, a).fault == s.fault
  {
  }

  lemma WorkerAlive(s: State)
    requires EndsOk(s) && !s.worker.Exited?
    ensures Alive(s)
  {
  }

  lemma FaultKept(s: State, a: Action)
    requires ListOk(s) && EndsOk(s) && Enabled(s, a) && !s.fault
    ensures !Apply(s, a).fault
  {
    hide ListOk, EndsOk, TasksOf;
    if !Dereferences(a) {
      hide Apply, Enabled;
      FaultUntouched(s, a);
    } else if a.Link? {
      PredecessorLive(s, a.c);
    } else if a.DFree? {
      FreeKeepsList(s);
    } else if a.WRun? {
      WorkerAlive(s);
      NextNode(s);
    } else {
      WorkerAlive(s);
      CurrentNode(s);
    }
  }

  // ---------- head, tail and the worker's position ----------

  lemma EndsUnderEnqueue(s: State, a: Action)
    requires EndsOk(s) && Enabled(s, a) && EnqueueAction(a)
    ensures EndsOk(Apply(s, a))
  {
  }

  lemma EndsUnderSync(s: State, a: Action)
    requires EndsOk(s) && Enabled(s, a) && SyncAction(a)
    ensures EndsOk(Apply(s, a))
  {
  }

  lemma EndsUnderTake(s: State, a: Action)
    requires ListOk(s) && EndsOk(s) && Enabled(s, a) && TakeAction(a)
    ensures EndsOk(Apply(s, a))
  {
    hide ListOk;
    if !s.worker.Storing? { CurrentNode(s); }
  }

  lemma EndsUnderWait(s: State, a: Action)
    requires EndsOk(s) && Enabled(s, a) && WorkerAction(a) && !TakeAction(a)
    ensures EndsOk(Apply(s, a))
  {
  }

  lemma EndsUnderFree(s: State)
    requires ListOk(s) && EndsOk(s) && Enabled(s, DFree)
    ensures EndsOk(DoFree(s))
  {
    FreeKeepsList(s);
    hide ListOk;
  }

  lemma EndsUnderDestructor(s: State, a: Action)
    requires ListOk(s) && EndsOk(s) && Enabled(s, a) && !ClientAction(a) && !WorkerAction(a)
    ensures EndsOk(Apply(s, a))
  {
    hide ListOk;
    if a.DFree? { EndsUnderFree(s); }
  }

  lemma EndsKept(s: State, a: Action)
    requires ListOk(s) && EndsOk(s) && Enabled(s, a)
    ensures EndsOk(Apply(s, a))
  {
    hide ListOk, EndsOk, Apply, Enabled;
    if EnqueueAction(a) {
      EndsUnderEnqueue(s, a);
    } else if SyncAction(a) {
      EndsUnderSync(s, a);
    } else if TakeAction(a) {
      EndsUnderTake(s, a);
    } else if WorkerAction(a) {
      EndsUnderWait(s, a);
    } else {
      EndsUnderDestructor(s, a);
    }
  }

  // ---------- the counters ----------

  lemma UncommittedKeptUnderEnqueue(s: State, a: Action)
    requires UncommittedOk(s.hist.uncommitted, s.clients) && Enabled(s, a) && EnqueueAction(a)
    ensures UncommittedOk(Apply(s, a).hist.uncommitted, Apply(s, a).clients)
  {
  }

  lemma UncommittedKeptUnderSync(s: State, a: Action)
    requires UncommittedOk(s.hist.uncommitted, s.clients) && Enabled(s, a) && SyncAction(a)
    ensures UncommittedOk(Apply(s, a).hist.uncommitted, Apply(s, a).clients)
  {
  }

  lemma UncommittedKeptUnderOthers(s: State, a: Action)
    requires UncommittedOk(s.hist.uncommitted, s.clients) && Enabled(s, a) && !ClientAction(a)
    ensures UncommittedOk(Apply(s, a).hist.uncommitted, Apply(s, a).clients)
  {
  }

  lemma UncommittedKept(s: State, a: Action)
    requires UncommittedOk(s.hist.uncommitted, s.clients) && Enabled(s, a)
    ensures UncommittedOk(Apply(s, a).hist.uncommitted, Apply(s, a).clients)
  {
    hide UncommittedOk, Apply, Enabled;
    if EnqueueAction(a) {
      UncommittedKeptUnderEnqueue(s, a);
    } else if SyncAction(a) {
      UncommittedKeptUnderSync(s, a);
    } else {
      UncommittedKeptUnderOthers(s, a);
    }
  }

  lemma CountCounted(s: State, c: ClientId, task: Option<Task>)
    requires CountsOk(s) && EndsOk(s) && Enabled(s, Count(c, task))
    requires UncommittedOk(DoCount(s, c, task).hist.uncommitted, DoCount(s, c, task).clients)
    ensures CountsOk(DoCount(s, c, task))
  {
    assert c !in s.hist.uncommitted;
    hide UncommittedOk;
  }

  lemma ExchangeCounted(s: State, c: ClientId)
    requires CountsOk(s) && EndsOk(s) && Enabled(s, Exchange(c))
    requires UncommittedOk(DoExchange(s, c).hist.uncommitted, DoExchange(s, c).clients)
    ensures CountsOk(DoExchange(s, c))
  {
    assert c in s.hist.uncommitted;
    hide UncommittedOk;
  }

  lemma CountersUnderClients(s: State, a: Action)
    requires CountsOk(s) && EndsOk(s) && Enabled(s, a) && ClientAction(a)
    requires UncommittedOk(Apply(s, a).hist.uncommitted, Apply(s, a).clients)
    ensures CountsOk(Apply(s, a))
  {
    hide UncommittedOk, EndsOk;
    if a.Count? {
      CountCounted(s, a.c, a.task);
    } else if a.Exchange? {
      ExchangeCounted(s, a.c);
    }
  }

  /** All the counters need to know of the list. */
  predicate RoomToRun(s: State) {
    s.hist.order != [] && Alive(s) && s.hist.taken + (if HasNext(s.worker) then 1 else 0) < |s.hist.order|
  }

  lemma RunCounted(s: State)
    requires CountsOk(s) && RoomToRun(s) && Enabled(s, WRun)
    ensures CountsOk(DoRun(s))
  {
    hide UncommittedOk, TasksOf;
  }

  lemma StoreCounted(s: State)
    requires CountsOk(s) && RoomToRun(s) && Enabled(s, WStore)
    ensures CountsOk(DoStore(s))
  {
    hide UncommittedOk;
  }

  lemma CountersUnderTake(s: State, a: Action)
    requires CountsOk(s) && RoomToRun(s) && Enabled(s, a) && TakeAction(a)
    ensures CountsOk(Apply(s, a))
  {
    hide UncommittedOk, DoRun, DoStore, RoomToRun;
    match a
    case WLoad =>
    case WRun => RunCounted(s);
    case WDelete =>
    case WStore => StoreCounted(s);
  }

  lemma CountersUnderWait(s: State, a: Action)
    requires CountsOk(s) && RoomToRun(s) && Enabled(s, a) && WorkerAction(a) && !TakeAction(a)
    requires UncommittedOk(Apply(s, a).hist.uncommitted, Apply(s, a).clients)
    ensures CountsOk(Apply(s, a))
  {
    hide UncommittedOk;
  }

  lemma EndsLeaveRoom(s: State, a: Action)
    requires EndsOk(s) && Enabled(s, a) && WorkerAction(a)
    ensures RoomToRun(s)
  {
  }

  lemma CountersUnderDestructor(s: State, a: Action)
    requires CountsOk(s) && EndsOk(s) && Enabled(s, a) && !ClientAction(a) && !WorkerAction(a)
    requires UncommittedOk(Apply(s, a).hist.uncommitted, Apply(s, a).clients)
    ensures CountsOk(Apply(s, a))
  {
    hide UncommittedOk;
  }

  /** One enqueue more on `pending`, or one task finished; nothing else moves the counter. */
  lemma CountersKept(s: State, a: Action)
    requires CountsOk(s) && EndsOk(s) && Enabled(s, a) && EndsOk(Apply(s, a))
    ensures CountsOk(Apply(s, a))
  {
    hide EndsOk, UncommittedOk, Apply, Enabled, RoomToRun;
    UncommittedKept(s, a);
    if ClientAction(a) {
      CountersUnderClients(s, a);
    } else if WorkerAction(a) {
      EndsLeaveRoom(s, a);
      if TakeAction(a) { CountersUnderTake(s, a); } else { CountersUnderWait(s, a); }
    } else {
      CountersUnderDestructor(s, a);
    }
  }

  lemma OneMoreNode(heap: Heap, a: Addr, node: Node)
    requires a !in heap
    ensures |heap[a := node].Keys| == |heap.Keys| + 1
  {
    assert heap[a := node].Keys == heap.Keys + {a};
  }

  lemma SameNodes(heap: Heap, a: Addr, node: Node)
    requires a in heap
    ensures |heap[a := node].Keys| == |heap.Keys|
  {
    assert heap[a := node].Keys == heap.Keys;
  }

  lemma OneNodeLess(heap: Heap, a: Addr)
    requires a in heap
    ensures |(heap - {a}).Keys| + 1 == |heap.Keys|
  {
    assert (heap - {a}).Keys == heap.Keys - {a};
  }

  lemma AllocCounted(s: State, c: ClientId, a: Addr)
    requires NodeCountOk(s.heap, s.hist.allocs, s.hist.frees) && Enabled(s, Alloc(c, a))
    ensures var s' := DoAlloc(s, c, a); NodeCountOk(s'.heap, s'.hist.allocs, s'.hist.frees)
  {
    OneMoreNode(s.heap, a, Node(s.clients[c].task, None));
  }

  lemma LinkCounted(s: State, c: ClientId)
    requires NodeCountOk(s.heap, s.hist.allocs, s.hist.frees) && Enabled(s, Link(c))
    ensures var s' := DoLink(s, c); NodeCountOk(s'.heap, s'.hist.allocs, s'.hist.frees)
  {
    var prev := s.clients[c].prev;
    if prev in s.heap { SameNodes(s.heap, prev, s.heap[prev].(next := Some(s.clients[c].node))); }
  }

  lemma DeleteCounted(s: State)
    requires NodeCountOk(s.heap, s.hist.allocs, s.hist.frees) && Enabled(s, WDelete)
    ensures var s' := DoDelete(s); NodeCountOk(s'.heap, s'.hist.allocs, s'.hist.frees)
  {
    if s.curr in s.heap { OneNodeLess(s.heap, s.curr); }
  }

  lemma FreeCounted(s: State)
    requires NodeCountOk(s.heap, s.hist.allocs, s.hist.frees) && Enabled(s, DFree)
    ensures var s' := DoFree(s); NodeCountOk(s'.heap, s'.hist.allocs, s'.hist.frees)
  {
    if s.destructor.node.Some? && s.destructor.node.value in s.heap { OneNodeLess(s.heap, s.destructor.node.value); }
  }

  lemma NodeCountKept(s: State, a: Action)
    requires NodeCountOk(s.heap, s.hist.allocs, s.hist.frees) && Enabled(s, a)
    ensures NodeCountOk(Apply(s, a).heap, Apply(s, a).hist.allocs, Apply(s, a).hist.frees)
  {
    hide NodeCountOk, DoAlloc, DoLink, DoDelete, DoFree;
    match a
    case Alloc(c, addr) => AllocCounted(s, c, addr);
    case Exchange(c) =>
    case Link(c) => LinkCounted(s, c);
    case WDelete => DeleteCounted(s);
    case DFree => FreeCounted(s);
    case _ => FieldsKept(s, a);
  }

  // ---------- the tasks run ----------

  lemma {:induction false} TasksAppend(a: seq<Entry>, b: seq<Entry>)
    ensures TasksOf(a + b) == TasksOf(a) + TasksOf(b)
  {
    if a == [] {
      assert a + b == b;
    } else {
      assert (a + b)[0] == a[0] && (a + b)[1..] == a[1..] + b;
      TasksAppend(a[1..], b);
      var first := if a[0].task.Some? then [a[0].task.value] else [];
      assert TasksOf(a + b) == first + (TasksOf(a[1..]) + TasksOf(b));
      assert TasksOf(a) == first + TasksOf(a[1..]);
    }
  }

  lemma RunAppendsNext(s: State)
    requires Inv(s) && Enabled(s, WRun)
    ensures RanOk(DoRun(s).hist.order, RunCount(DoRun(s)), DoRun(s).hist.ran)
  {
    var h := s.hist;
    NextNode(s);
    hide ListOk;
    var next := [h.order[h.taken + 1]];
    assert h.order[1..h.taken + 2] == h.order[1..h.taken + 1] + next;
    TasksAppend(h.order[1..h.taken + 1], next);
    assert TasksOf(next) == TasksOf([Entry(s.worker.next, s.heap[s.worker.next].task)]);
  }

  lemma RunIsDoRun(s: State)
    requires Enabled(s, WRun)
    ensures Apply(s, WRun) == DoRun(s)
  {
  }

  lemma SameTasks(order: seq<Entry>, longer: seq<Entry>, count: nat)
    requires order <= longer && count < |order|
    ensures longer[1..count + 1] == order[1..count + 1]
  {
  }

  lemma RanUnderEnqueue(s: State, a: Action)
    requires Enabled(s, a) && EnqueueAction(a)
    ensures RunCount(Apply(s, a)) == RunCount(s) && Apply(s, a).hist.ran == s.hist.ran
    ensures s.hist.order <= Apply(s, a).hist.order
  {
  }

  lemma RanUnderSync(s: State, a: Action)
    requires Enabled(s, a) && SyncAction(a)
    ensures RunCount(Apply(s, a)) == RunCount(s) && Apply(s, a).hist.ran == s.hist.ran
    ensures Apply(s, a).hist.order == s.hist.order
  {
  }

  lemma RanUnderOthers(s: State, a: Action)
    requires Enabled(s, a) && !ClientAction(a) && !a.WRun? && !s.fault && !Apply(s, a).fault
    ensures RunCount(Apply(s, a)) == RunCount(s) && Apply(s, a).hist.ran == s.hist.ran
    ensures Apply(s, a).hist.order == s.hist.order
  {
    hide TasksOf, DoRun;
  }

  lemma RanUntouched(s: State, a: Action)
    requires Enabled(s, a) && !a.WRun? && !s.fault && !Apply(s, a).fault
    ensures RunCount(Apply(s, a)) == RunCount(s) && Apply(s, a).hist.ran == s.hist.ran
    ensures s.hist.order <= Apply(s, a).hist.order
  {
    hide Apply, Enabled, RunCount;
    if EnqueueAction(a) {
      RanUnderEnqueue(s, a);
    } else if SyncAction(a) {
      RanUnderSync(s, a);
    } else {
      RanUnderOthers(s, a);
    }
  }

  lemma RanKept(s: State, a: Action)
    requires Inv(s) && Enabled(s, a) && !Apply(s, a).fault
    ensures RanOk(Apply(s, a).hist.order, RunCount(Apply(s, a)), Apply(s, a).hist.ran)
  {
    hide ListOk, EndsOk, CountsOk, NodeCountOk, LockOk, SyncOk, RunCount, TasksOf, DoRun, Apply, Enabled;
    if a.WRun? {
      RunAppendsNext(s);
      RunIsDoRun(s);
      assert a == WRun;
    } else {
      RanUntouched(s, a);
      SameTasks(s.hist.order, Apply(s, a).hist.order, RunCount(s));
    }
  }

  // ---------- the mutex and the condition variable ----------

  lemma LockKeptUnderEnqueue(s: State, a: Action)
    requires LockOk(s.holder, s.worker, s.clients) && Enabled(s, a) && EnqueueAction(a) && !a.NotifyOne?
    ensures LockOk(Apply(s, a).holder, Apply(s, a).worker, Apply(s, a).clients)
  {
  }

  lemma LockKeptUnderNotify(s: State, a: Action)
    requires LockOk(s.holder, s.worker, s.clients) && Enabled(s, a) && a.NotifyOne?
    ensures LockOk(Apply(s, a).holder, Apply(s, a).worker, Apply(s, a).clients)
  {
  }

  lemma LockKeptUnderSync(s: State, a: Action)
    requires LockOk(s.holder, s.worker, s.clients) && Enabled(s, a) && SyncAction(a)
    ensures LockOk(Apply(s, a).holder, Apply(s, a).worker, Apply(s, a).clients)
  {
  }

  lemma LockKeptUnderTake(s: State, a: Action)
    requires LockOk(s.holder, s.worker, s.clients) && Enabled(s, a) && TakeAction(a)
    ensures LockOk(Apply(s, a).holder, Apply(s, a).worker, Apply(s, a).clients)
  {
    hide TasksOf;
  }

  lemma LockKeptUnderWait(s: State, a: Action)
    requires LockOk(s.holder, s.worker, s.clients) && Enabled(s, a) && WorkerAction(a) && !TakeAction(a)
    ensures LockOk(Apply(s, a).holder, Apply(s, a).worker, Apply(s, a).clients)
  {
  }

  lemma LockKeptUnderDestructor(s: State, a: Action)
    requires LockOk(s.holder, s.worker, s.clients) && Enabled(s, a) && !ClientAction(a) && !WorkerAction(a)
    ensures LockOk(Apply(s, a).holder, Apply(s, a).worker, Apply(s, a).clients)
  {
  }

  lemma LockKept(s: State, a: Action)
    requires LockOk(s.holder, s.worker, s.clients) && Enabled(s, a)
    ensures LockOk(Apply(s, a).holder, Apply(s, a).worker, Apply(s, a).clients)
  {
    hide LockOk, Apply, Enabled;
    if a.NotifyOne? {
      LockKeptUnderNotify(s, a);
    } else if EnqueueAction(a) {
      LockKeptUnderEnqueue(s, a);
    } else if SyncAction(a) {
      LockKeptUnderSync(s, a);
    } else if TakeAction(a) {
      LockKeptUnderTake(s, a);
    } else if WorkerAction(a) {
      LockKeptUnderWait(s, a);
    } else {
      LockKeptUnderDestructor(s, a);
    }
  }

  lemma SyncUnderEnqueue(s: State, a: Action)
    requires SyncOk(s) && Enabled(s, a) && EnqueueAction(a) && !a.NotifyOne?
    ensures SyncOk(Apply(s, a))
  {
  }

  lemma SyncUnderNotify(s: State, a: Action)
    requires SyncOk(s) && Enabled(s, a) && a.NotifyOne?
    ensures SyncOk(Apply(s, a))
  {
  }

  lemma SyncUnderSync(s: State, a: Action)
    requires SyncOk(s) && Enabled(s, a) && SyncAction(a)
    ensures SyncOk(Apply(s, a))
  {
  }

  lemma SyncUnderTake(s: State, a: Action)
    requires SyncOk(s) && Enabled(s, a) && TakeAction(a)
    ensures SyncOk(Apply(s, a))
  {
    hide TasksOf;
  }

  lemma SyncUnderWait(s: State, a: Action)
    requires LockOk(s.holder, s.worker, s.clients) && SyncOk(s) && Enabled(s, a) && WorkerAction(a) && !TakeAction(a)
    ensures SyncOk(Apply(s, a))
  {
  }

  lemma SyncUnderDestructor(s: State, a: Action)
    requires LockOk(s.holder, s.worker, s.clients) && SyncOk(s) && Enabled(s, a)
    requires !ClientAction(a) && !WorkerAction(a)
    ensures SyncOk(Apply(s, a))
  {
  }

  lemma SyncKept(s: State, a: Action)
    requires LockOk(s.holder, s.worker, s.clients) && SyncOk(s) && Enabled(s, a)
    ensures SyncOk(Apply(s, a))
  {
    hide LockOk, SyncOk, Apply, Enabled;
    if a.NotifyOne? {
      SyncUnderNotify(s, a);
    } else if EnqueueAction(a) {
      SyncUnderEnqueue(s, a);
    } else if SyncAction(a) {
      SyncUnderSync(s, a);
    } else if TakeAction(a) {
      SyncUnderTake(s, a);
    } else if WorkerAction(a) {
      SyncUnderWait(s, a);
    } else {
      SyncUnderDestructor(s, a);
    }
  }

  // ---------- all of it ----------

  lemma StepKeeps(s: State, a: Action)
    requires Inv(s) && Enabled(s, a)
    ensures Inv(Apply(s, a))
  {
    hide ListOk, EndsOk, CountsOk, RanOk, LockOk, SyncOk, NodeCountOk, Apply, Enabled, RunCount;
    ListKept(s, a);
    EndsKept(s, a);
    FaultKept(s, a);
    CountersKept(s, a);
    NodeCountKept(s, a);
    RanKept(s, a);
    LockKept(s, a);
    SyncKept(s, a);
  }

  lemma InitInv(dummy: Addr)
    ensures Inv(Init(dummy))
  {
    assert LinkOk(Init(dummy).heap, Init(dummy).hist.order, map[], 0);
  }

  /** Every state of every run. */
  lemma {:induction false} RunKeepsInv(s: State, actions: seq<Action>)
    requires Inv(s) && ValidRun(s, actions)
    ensures Inv(RunTo(s, actions))
    decreases |actions|
  {
    if actions != [] {
      StepKeeps(s, actions[0]);
      RunKeepsInv(Apply(s, actions[0]), actions[1..]);
    }
  }
}
