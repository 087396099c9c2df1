/** The task queue's guarantees, over every run from start-up, in terms of what threads do and what memory holds. */
module TaskQueueTheorems {
  import opened Options
  import opened TaskQueue
  import opened TaskQueueSafety

  // ---------- what a run did, read off its actions ----------

  /** What one action adds to the exchange order, and to the tasks run. */
  ghost function Publishes(s: State, a: Action): seq<Entry>
    requires Enabled(s, a)
  {
    if a.Exchange? then [Entry(s.clients[a.c].node, s.clients[a.c].task)] else []
  }

  ghost function Executes(s: State, a: Action): seq<Task> {
    if a.WRun? && s.worker.Running? && s.worker.next in s.heap && s.heap[s.worker.next].task.Some?
    then [s.heap[s.worker.next].task.value] else []
  }

  /** The nodes swapped into `tail`, in that order. */
  ghost function Published(s: State, actions: seq<Action>): seq<Entry>
    requires ValidRun(s, actions)
    decreases |actions|
  {
    if actions == [] then [] else
      var a := actions[0];
      Publishes(s, a) + Published(Apply(s, a), actions[1..])
  }

  /** The tasks the worker called, in that order, each read from the node it held. */
  ghost function Executed(s: State, actions: seq<Action>): seq<Task>
    requires ValidRun(s, actions)
    decreases |actions|
  {
    if actions == [] then [] else
      var a := actions[0];
      Executes(s, a) + Executed(Apply(s, a), actions[1..])
  }

  lemma RunIsExecuted(s: State)
    requires Enabled(s, WRun)
    ensures DoRun(s).hist.order == s.hist.order && DoRun(s).hist.ran == s.hist.ran + Executes(s, WRun)
  {
    if s.worker.next in s.heap {
      assert TasksOf([Entry(s.worker.next, s.heap[s.worker.next].task)]) == Executes(s, WRun);
    }
  }

  lemma HistoryUnderClients(s: State, a: Action)
    requires Enabled(s, a) && ClientAction(a)
    ensures Apply(s, a).hist.order == s.hist.order + Publishes(s, a) && Apply(s, a).hist.ran == s.hist.ran
  {
  }

  lemma HistoryUnderOthers(s: State, a: Action)
    requires Enabled(s, a) && !ClientAction(a)
    ensures Apply(s, a).hist.order == s.hist.order && Apply(s, a).hist.ran == s.hist.ran + Executes(s, a)
  {
    hide TasksOf, DoRun;
    if a.WRun? { RunIsExecuted(s); }
  }

  lemma HistoryStep(s: State, a: Action)
    requires Enabled(s, a)
    ensures Apply(s, a).hist.order == s.hist.order + Publishes(s, a)
    ensures Apply(s, a).hist.ran == s.hist.ran + Executes(s, a)
  {
    hide Apply, Enabled;
    if ClientAction(a) { HistoryUnderClients(s, a); } else { HistoryUnderOthers(s, a); }
  }

  lemma Associate<T>(a: seq<T>, b: seq<T>, c: seq<T>)
    ensures (a + b) + c == a + (b + c)
  {
  }

  lemma {:induction false} HistoryIsRun(s: State, actions: seq<Action>)
    requires ValidRun(s, actions)
    ensures RunTo(s, actions).hist.order == s.hist.order + Published(s, actions)
    ensures RunTo(s, actions).hist.ran == s.hist.ran + Executed(s, actions)
    decreases |actions|
  {
    if actions != [] {
      var a, s' := actions[0], Apply(s, actions[0]);
      HistoryStep(s, a);
      hide Apply, Enabled, Publishes, Executes;
      HistoryIsRun(s', actions[1..]);
      Associate(s.hist.order, Publishes(s, a), Published(s', actions[1..]));
      Associate(s.hist.ran, Executes(s, a), Executed(s', actions[1..]));
    }
  }

  lemma TasksPrefix(entries: seq<Entry>, n: nat)
    requires n <= |entries|
    ensures TasksOf(entries[..n]) <= TasksOf(entries)
  {
    var front, back := entries[..n], entries[n..];
    TasksAppend(front, back);
    assert entries == front + back;
    hide TasksOf;
    assert (TasksOf(front) + TasksOf(back))[..|TasksOf(front)|] == TasksOf(front);
  }

  lemma AfterFirst<T>(first: T, rest: seq<T>, all: seq<T>, n: nat)
    requires all == [first] + rest && n <= |rest|
    ensures all[1..n + 1] == rest[..n]
  {
  }

  lemma SliceOfSlice<T>(s: seq<T>, m: nat, n: nat)
    requires m <= n < |s|
    ensures s[1..m + 1] == s[1..n + 1][..m]
  {
  }

  lemma RanIsPrefix(order: seq<Entry>, count: nat, ran: seq<Task>, first: Entry, published: seq<Entry>)
    requires RanOk(order, count, ran) && order == [first] + published
    ensures ran <= TasksOf(published)
  {
    AfterFirst(first, published, order, count);
    TasksPrefix(published, count);
  }

  /**
   Queue linearisation: whatever the interleaving, the tasks run are the first tasks of the `tail.exchange` order,
   each once and none skipped.
   */
  lemma ExecutedIsPrefixOfPublished(dummy: Addr, actions: seq<Action>)
    requires ValidRun(Init(dummy), actions)
    ensures Executed(Init(dummy), actions) <= TasksOf(Published(Init(dummy), actions))
  {
    var s := RunTo(Init(dummy), actions);
    InitInv(dummy);
    RunKeepsInv(Init(dummy), actions);
    HistoryIsRun(Init(dummy), actions);
    assert RanOk(s.hist.order, RunCount(s), s.hist.ran);
    assert Init(dummy).hist.order == [Entry(dummy, None)] && Init(dummy).hist.ran == [];
    hide *;
    RanIsPrefix(s.hist.order, RunCount(s), s.hist.ran, Entry(dummy, None), Published(Init(dummy), actions));
    assert s.hist.ran == [] + Executed(Init(dummy), actions) == Executed(Init(dummy), actions);
  }

  // ---------- fragments ----------

  /** The published nodes from index `i` on, cut after each node whose link is still missing. */
  ghost function Fragments(order: seq<Entry>, linker: map<nat, ClientId>, i: nat): (r: seq<seq<Addr>>)
    ensures i < |order| ==> r != [] && r[0] != [] && r[0][0] == order[i].addr
    decreases |order| - i
  {
    if i >= |order| then []
    else if i + 1 == |order| || i in linker then [[order[i].addr]] + Fragments(order, linker, i + 1)
    else var rest := Fragments(order, linker, i + 1); [[order[i].addr] + rest[0]] + rest[1..]
  }

  /** Following `next` from the first address visits exactly these nodes and ends at a null link. */
  ghost predicate MaximalChain(heap: Heap, addrs: seq<Addr>)
    decreases |addrs|
  {
    && addrs != []
    && addrs[0] in heap
    && if |addrs| == 1 then heap[addrs[0]].next == None
       else heap[addrs[0]].next == Some(addrs[1]) && MaximalChain(heap, addrs[1..])
  }

  ghost function Joined(pieces: seq<seq<Addr>>): seq<Addr> {
    if pieces == [] then [] else pieces[0] + Joined(pieces[1..])
  }

  ghost function Addresses(order: seq<Entry>, i: nat): seq<Addr>
    decreases |order| - i
  {
    if i >= |order| then [] else [order[i].addr] + Addresses(order, i + 1)
  }

  lemma {:induction false} FragmentsAreChains(heap: Heap, order: seq<Entry>, low: nat, linker: map<nat, ClientId>,
                                              i: nat)
    requires LinksOk(heap, order, low, linker) && low <= i
    ensures Joined(Fragments(order, linker, i)) == Addresses(order, i)
    ensures forall p | p in Fragments(order, linker, i) :: MaximalChain(heap, p)
    decreases |order| - i
  {
    if i < |order| {
      assert LinkOk(heap, order, linker, i);
      FragmentsAreChains(heap, order, low, linker, i + 1);
      hide LinkOk, LinksOk;
      var all := Fragments(order, linker, i);
      var rest := Fragments(order, linker, i + 1);
      if i + 1 == |order| || i in linker {
        assert all[1..] == rest;
        assert MaximalChain(heap, [order[i].addr]);
      } else {
        assert all[1..] == rest[1..];
        assert MaximalChain(heap, rest[0]);
        assert all[0][1..] == rest[0];
        assert MaximalChain(heap, all[0]);
      }
    }
  }

  ghost function MissingFrom(linker: map<nat, ClientId>, i: nat): set<nat> {
    set j | j in linker && i <= j
  }

  lemma {:induction false} FragmentCount(order: seq<Entry>, linker: map<nat, ClientId>, i: nat)
    requires i < |order| && forall j | j in linker :: j + 1 < |order|
    ensures |Fragments(order, linker, i)| == 1 + |MissingFrom(linker, i)|
    decreases |order| - i
  {
    if i + 1 == |order| {
      assert MissingFrom(linker, i) == {};
    } else {
      FragmentCount(order, linker, i + 1);
      if i in linker {
        assert MissingFrom(linker, i) == MissingFrom(linker, i + 1) + {i};
      } else {
        assert MissingFrom(linker, i) == MissingFrom(linker, i + 1);
      }
    }
  }

  /**
   In every state of every run, between start-up and shutdown, the nodes from the worker's position on form maximal
   chains in memory whose concatenation is the exchange order; there is one cut for each client between its exchange
   and its link, and no other.
   */
  lemma ListIsFragmented(dummy: Addr, actions: seq<Action>)
    requires ValidRun(Init(dummy), actions)
    ensures var s := RunTo(Init(dummy), actions);
            Low(s) < |s.hist.order| ==>
              var fragments := Fragments(s.hist.order, s.hist.linker, Low(s));
              && Joined(fragments) == Addresses(s.hist.order, Low(s))
              && (forall p | p in fragments :: MaximalChain(s.heap, p))
              && |fragments| == 1 + |s.hist.linker.Keys|
              && (forall c :: c in s.hist.linker.Values <==> c in s.clients && s.clients[c].Exchanged?)
    ensures var s := RunTo(Init(dummy), actions);
            Alive(s) ==> Low(s) < |s.hist.order| && s.hist.order[s.hist.taken].addr == s.curr
    ensures RunTo(Init(dummy), actions).hist.order == [Entry(dummy, None)] + Published(Init(dummy), actions)
  {
    HistoryIsRun(Init(dummy), actions);
    InitInv(dummy);
    RunKeepsInv(Init(dummy), actions);
    var s := RunTo(Init(dummy), actions);
    hide ListOk, CountsOk, RanOk, LockOk, SyncOk, RunTo, ValidRun, Published;
    hide Fragments, Joined, Addresses, MaximalChain;
    if Low(s) < |s.hist.order| { LiveNodesAreFragmented(s); }
  }

  lemma LiveNodesAreFragmented(s: State)
    requires ListOk(s) && Low(s) < |s.hist.order|
    ensures var fragments := Fragments(s.hist.order, s.hist.linker, Low(s));
            && Joined(fragments) == Addresses(s.hist.order, Low(s))
            && (forall p | p in fragments :: MaximalChain(s.heap, p))
            && |fragments| == 1 + |s.hist.linker.Keys|
    ensures forall c :: c in s.hist.linker.Values <==> c in s.clients && s.clients[c].Exchanged?
  {
    hide Fragments, Joined, Addresses, MaximalChain, Indexed, LinksOk, Partitioned, OwnersOk, OwnersKnown;
    FragmentsAreChains(s.heap, s.hist.order, Low(s), s.hist.linker, Low(s));
    FragmentCount(s.hist.order, s.hist.linker, Low(s));
    assert MissingFrom(s.hist.linker, Low(s)) == s.hist.linker.Keys;
    hide LinkersKnown, LinkersOk;
    LinkersAreClients(s);
  }

  lemma LinkersAreClients(s: State)
    requires ListOk(s)
    ensures forall c :: c in s.hist.linker.Values <==> c in s.clients && s.clients[c].Exchanged?
  {
    forall c
      ensures c in s.hist.linker.Values <==> c in s.clients && s.clients[c].Exchanged?
    {
      if c in s.hist.linker.Values {
        var i :| i in s.hist.linker && s.hist.linker[i] == c;
        assert WillLink(s.clients, s.hist.order, c, i);
      }
    }
  }

  // ---------- reclamation ----------

  /**
   Node reclamation: no run ever touches a freed node or frees one twice, whoever holds the pointer; and when the
   destructor is done nothing is left, so every node made has been freed exactly once.
   */
  lemma NodesFreedExactlyOnce(dummy: Addr, actions: seq<Action>)
    requires ValidRun(Init(dummy), actions)
    ensures !RunTo(Init(dummy), actions).fault
    ensures var s := RunTo(Init(dummy), actions); s.hist.allocs == s.hist.frees + |s.heap.Keys|
    ensures var s := RunTo(Init(dummy), actions);
            s.destructor.Destroyed? ==> s.heap == map[] && s.hist.allocs == s.hist.frees
  {
    var s := RunTo(Init(dummy), actions);
    InitInv(dummy);
    RunKeepsInv(Init(dummy), actions);
    if s.destructor.Destroyed? {
      assert forall a :: a !in s.hist.pos;
      assert forall a :: a !in s.hist.owner;
    }
  }

  ghost predicate OnlyAt(order: seq<Entry>, low: nat, i: nat, a: Addr)
    requires i < |order|
  {
    order[i].addr == a && forall j | low <= j < |order| && j != i :: order[j].addr != a
  }

  /**
   Among the published nodes still allocated, `prev` is the one exchanged just before `node`, and the only one at its
   address: no stale pointer to a node freed and made again elsewhere.
   */
  ghost predicate PrecedesNode(order: seq<Entry>, low: nat, prev: Addr, node: Addr) {
    exists i :: 0 <= low <= i < |order| - 1 && OnlyAt(order, low, i, prev) && OnlyAt(order, low, i + 1, node)
  }

  /**
   Every node a thread may still dereference is allocated: both ends of the queue and every predecessor. A client
   about to link holds the very node that was exchanged just before its own.
   */
  lemma ReachableNodesAreLive(dummy: Addr, actions: seq<Action>)
    requires ValidRun(Init(dummy), actions)
    ensures var s := RunTo(Init(dummy), actions);
            Alive(s) ==> s.tail in s.heap && (!s.worker.Storing? ==> s.head in s.heap && s.curr in s.heap)
    ensures var s := RunTo(Init(dummy), actions);
            forall c | c in s.clients && s.clients[c].Exchanged? ::
              s.clients[c].prev in s.heap && s.clients[c].node in s.heap && s.heap[s.clients[c].prev].next == None
    ensures var s := RunTo(Init(dummy), actions);
            forall c | c in s.clients && s.clients[c].Exchanged? ::
              PrecedesNode(s.hist.order, Low(s), s.clients[c].prev, s.clients[c].node)
  {
    var s := RunTo(Init(dummy), actions);
    InitInv(dummy);
    RunKeepsInv(Init(dummy), actions);
    hide ListOk, EndsOk, CountsOk, RanOk, LockOk, SyncOk, PrecedesNode, RunTo, ValidRun, Low;
    forall c | c in s.clients && s.clients[c].Exchanged?
      ensures s.clients[c].prev in s.heap && s.clients[c].node in s.heap && s.heap[s.clients[c].prev].next == None
      ensures PrecedesNode(s.hist.order, Low(s), s.clients[c].prev, s.clients[c].node)
    {
      PredecessorIsPrevious(s, c);
    }
    if Alive(s) { EndsAreLive(s); }
  }

  lemma PredecessorIsPrevious(s: State, c: ClientId)
    requires ListOk(s) && c in s.clients && s.clients[c].Exchanged?
    ensures s.clients[c].prev in s.heap && s.clients[c].node in s.heap && s.heap[s.clients[c].prev].next == None
    ensures PrecedesNode(s.hist.order, Low(s), s.clients[c].prev, s.clients[c].node)
  {
    var i := s.hist.pos[s.clients[c].prev];
    assert WillLink(s.clients, s.hist.order, c, i);
    assert LinkOk(s.heap, s.hist.order, s.hist.linker, i);
    assert LinkOk(s.heap, s.hist.order, s.hist.linker, i + 1);
    hide LinksOk, LinkersOk, LinkersKnown, OwnersOk, OwnersKnown, Partitioned;
    assert OnlyAt(s.hist.order, Low(s), i, s.clients[c].prev) && OnlyAt(s.hist.order, Low(s), i + 1, s.clients[c].node);
  }

  lemma EndsAreLive(s: State)
    requires ListOk(s) && EndsOk(s) && Alive(s)
    ensures s.tail in s.heap && (!s.worker.Storing? ==> s.head in s.heap && s.curr in s.heap)
  {
    assert LinkOk(s.heap, s.hist.order, s.hist.linker, |s.hist.order| - 1);
    if !s.worker.Storing? { CurrentNode(s); }
  }

  // ---------- pending and sync ----------

  /** Enqueues past their increment and tasks finished, read off the run. */
  ghost function Increments(actions: seq<Action>): nat {
    if actions == [] then 0 else (if actions[0].Count? then 1 else 0) + Increments(actions[1..])
  }

  ghost function Finished(actions: seq<Action>): nat {
    if actions == [] then 0 else (if actions[0].WFinish? then 1 else 0) + Finished(actions[1..])
  }

  lemma CounterUnderClients(s: State, a: Action)
    requires Enabled(s, a) && ClientAction(a)
    ensures Apply(s, a).hist.counted == s.hist.counted + if a.Count? then 1 else 0
    ensures Apply(s, a).hist.finished == s.hist.finished
  {
  }

  lemma CounterUnderOthers(s: State, a: Action)
    requires Enabled(s, a) && !ClientAction(a)
    ensures Apply(s, a).hist.counted == s.hist.counted
    ensures Apply(s, a).hist.finished == s.hist.finished + if a.WFinish? then 1 else 0
  {
    hide TasksOf;
  }

  lemma CounterStep(s: State, a: Action)
    requires Enabled(s, a)
    ensures Apply(s, a).hist.counted == s.hist.counted + if a.Count? then 1 else 0
    ensures Apply(s, a).hist.finished == s.hist.finished + if a.WFinish? then 1 else 0
  {
    hide Apply, Enabled;
    if ClientAction(a) { CounterUnderClients(s, a); } else { CounterUnderOthers(s, a); }
  }

  lemma {:induction false} CountersAreRun(s: State, actions: seq<Action>)
    requires ValidRun(s, actions)
    ensures RunTo(s, actions).hist.counted == s.hist.counted + Increments(actions)
    ensures RunTo(s, actions).hist.finished == s.hist.finished + Finished(actions)
    decreases |actions|
  {
    if actions != [] {
      CounterStep(s, actions[0]);
      hide Apply, Enabled;
      CountersAreRun(Apply(s, actions[0]), actions[1..]);
    }
  }

  /** `pending` is the enqueues counted less the tasks finished, and never wraps below zero. */
  lemma PendingIsExact(dummy: Addr, actions: seq<Action>)
    requires ValidRun(Init(dummy), actions)
    ensures RunTo(Init(dummy), actions).pending == Increments(actions) - Finished(actions) >= 0
  {
    InitInv(dummy);
    RunKeepsInv(Init(dummy), actions);
    CountersAreRun(Init(dummy), actions);
  }

  /**
   `sync(n)`: whenever it can return and no shutdown was requested, at most `n` counted tasks are unfinished, the
   finished ones are the first in queue order, and what is queued and unfinished are the last.
   */
  lemma SyncGuarantee(dummy: Addr, actions: seq<Action>, c: ClientId)
    requires ValidRun(Init(dummy), actions)
    requires Enabled(RunTo(Init(dummy), actions), SyncTest(c))
    ensures var s := RunTo(Init(dummy), actions);
            var allow := s.clients[c].allow;
            c !in Apply(s, SyncTest(c)).clients && !s.done ==>
              && Increments(actions) - Finished(actions) <= allow
              && Finished(actions) <= |Published(Init(dummy), actions)| <= Finished(actions) + allow
              && TasksOf(Published(Init(dummy), actions)[..Finished(actions)]) <= Executed(Init(dummy), actions)
  {
    var s := RunTo(Init(dummy), actions);
    InitInv(dummy);
    RunKeepsInv(Init(dummy), actions);
    CountersAreRun(Init(dummy), actions);
    HistoryIsRun(Init(dummy), actions);
    FinishedWereRun(s);
    if c !in Apply(s, SyncTest(c)).clients && !s.done { SyncReturnCounts(s, c); }
    assert Init(dummy).hist.order == [Entry(dummy, None)] && Init(dummy).hist.ran == [];
    assert Init(dummy).hist.counted == Init(dummy).hist.finished == 0;
    hide *;
    var published := Published(Init(dummy), actions);
    AfterFirst(Entry(dummy, None), published, s.hist.order, s.hist.finished);
    assert s.hist.ran == [] + Executed(Init(dummy), actions) == Executed(Init(dummy), actions);
  }

  lemma SyncReturnCounts(s: State, c: ClientId)
    requires Inv(s) && Enabled(s, SyncTest(c)) && !s.done
    requires c !in Apply(s, SyncTest(c)).clients
    ensures s.hist.counted - s.hist.finished <= s.clients[c].allow
    ensures s.hist.finished <= |s.hist.order| - 1 <= s.hist.finished + s.clients[c].allow
  {
  }

  lemma FinishedWereRun(s: State)
    requires Inv(s)
    ensures s.hist.finished < |s.hist.order|
    ensures TasksOf(s.hist.order[1..s.hist.finished + 1]) <= s.hist.ran
  {
    assert RanOk(s.hist.order, RunCount(s), s.hist.ran);
    hide Inv, ListOk, EndsOk, LockOk, SyncOk, TasksOf;
    SliceOfSlice(s.hist.order, s.hist.finished, RunCount(s));
    TasksPrefix(s.hist.order[1..RunCount(s) + 1], s.hist.finished);
  }
}
