/**
 Wake-ups. Worker and `sync` share one condition variable and `enqueue` notifies a single waiter, so the queue relies on
 no `sync` being in progress while another thread enqueues. Under that discipline no notification is lost and the queue
 never gets stuck; without it a concrete run loses one, and the exact condition for losing one is stated.
 */
module TaskQueueWakeup {
  import opened Options
  import opened TaskQueue
  import opened TaskQueueSafety

  predicate InSync(c: Client) {
    c.SyncEntered? || c.SyncHolding? || c.SyncDozing? || c.SyncWaiting?
  }

  /** No client is inside `sync` while another is inside `enqueue`. */
  ghost predicate Exclusive(s: State) {
    forall c, d | c in s.clients && d in s.clients :: InSync(s.clients[c]) ==> InSync(s.clients[d])
  }

  ghost predicate ExclusiveRun(s: State, actions: seq<Action>)
    requires ValidRun(s, actions)
    decreases |actions|
  {
    Exclusive(s) && (actions == [] || ExclusiveRun(Apply(s, actions[0]), actions[1..]))
  }

  predicate LinkedTask(s: State) {
    Next(s, s.curr).Some?
  }

  ghost predicate SomeoneLinked(clients: Clients) {
    exists c :: c in clients && clients[c].Linked?
  }

  ghost predicate SomeoneNotifying(clients: Clients) {
    exists c :: c in clients && clients[c].Notifying?
  }

  /** A worker that sleeps, or is about to, with a task linked has a notification on its way. */
  ghost predicate WakeOk(s: State) {
    && (s.worker.Dozing? && LinkedTask(s) ==> SomeoneLinked(s.clients))
    && (s.worker.Waiting? && LinkedTask(s) ==> SomeoneLinked(s.clients) || SomeoneNotifying(s.clients))
  }

  /** A linked task, a sleeping worker, and nobody left to wake it. */
  ghost predicate LostWakeup(s: State) {
    s.worker.Waiting? && LinkedTask(s) && !SomeoneLinked(s.clients) && !SomeoneNotifying(s.clients) && !s.done
  }

  lemma NextKeptUnderEnqueue(s: State, a: Action)
    requires Enabled(s, a) && EnqueueAction(a) && !a.Link? && s.curr in s.heap
    ensures Apply(s, a).curr == s.curr && Next(Apply(s, a), s.curr) == Next(s, s.curr)
  {
  }

  lemma NextKeptUnderSync(s: State, a: Action)
    requires Enabled(s, a) && SyncAction(a)
    ensures Apply(s, a).curr == s.curr && Apply(s, a).heap == s.heap
  {
  }

  lemma NextKeptUnderOthers(s: State, a: Action)
    requires Enabled(s, a) && !ClientAction(a) && (s.worker.Dozing? || s.worker.Waiting?) && Alive(s)
    ensures Apply(s, a).curr == s.curr && Apply(s, a).heap == s.heap
  {
    hide TasksOf;
  }

  lemma NextKept(s: State, a: Action)
    requires Enabled(s, a) && !a.Link? && (s.worker.Dozing? || s.worker.Waiting?) && Alive(s) && s.curr in s.heap
    ensures Apply(s, a).curr == s.curr && Next(Apply(s, a), s.curr) == Next(s, s.curr)
  {
    hide Apply, Enabled;
    if EnqueueAction(a) {
      NextKeptUnderEnqueue(s, a);
    } else if SyncAction(a) {
      NextKeptUnderSync(s, a);
    } else {
      NextKeptUnderOthers(s, a);
    }
  }

  lemma LinkersSurvive(s: State, a: Action)
    requires Enabled(s, a)
    ensures !a.PassLock? && SomeoneLinked(s.clients) ==> SomeoneLinked(Apply(s, a).clients)
    ensures a.PassLock? ==> SomeoneNotifying(Apply(s, a).clients)
    ensures !a.NotifyOne? && SomeoneNotifying(s.clients) ==> SomeoneNotifying(Apply(s, a).clients)
  {
    var s' := Apply(s, a);
    if SomeoneLinked(s.clients) {
      var c :| c in s.clients && s.clients[c].Linked?;
      assert !a.PassLock? ==> c in s'.clients && s'.clients[c].Linked?;
    }
    if SomeoneNotifying(s.clients) {
      var c :| c in s.clients && s.clients[c].Notifying?;
      assert !a.NotifyOne? ==> c in s'.clients && s'.clients[c].Notifying?;
    }
    if a.PassLock? {
      assert a.c in s'.clients && s'.clients[a.c].Notifying?;
    }
  }

  lemma WorkerSleeps(s: State, a: Action)
    requires Enabled(s, a) && !a.NotifyOne?
    ensures Apply(s, a).worker.Dozing? ==>
      s.worker.Dozing? || (a.WEval? && Apply(s, a).clients == s.clients && !LinkedTask(Apply(s, a)))
    ensures Apply(s, a).worker.Waiting? ==>
      s.worker.Waiting? || (s.worker.Dozing? && a.WSleep? && Apply(s, a).clients == s.clients)
  {
    hide TasksOf;
  }

  lemma DozingHoldsLock(s: State, c: ClientId)
    requires LockOk(s.holder, s.worker, s.clients) && Enabled(s, PassLock(c))
    ensures !s.worker.Dozing?
  {
  }

  lemma LinkerWillNotify(s: State, c: ClientId)
    requires Enabled(s, Link(c)) && !DoLink(s, c).fault
    ensures SomeoneLinked(DoLink(s, c).clients)
  {
    assert c in DoLink(s, c).clients && DoLink(s, c).clients[c].Linked?;
  }

  /** Only a notification can leave the worker without one; every other step keeps its wake-up. */
  lemma OthersKeepWakeups(s: State, a: Action)
    requires Inv(s) && WakeOk(s) && Enabled(s, a) && !a.NotifyOne?
    ensures WakeOk(Apply(s, a))
  {
    hide Inv, Enabled, Apply, SomeoneLinked, SomeoneNotifying, LinkedTask, Next;
    LinkersSurvive(s, a);
    WorkerSleeps(s, a);
    if a.PassLock? {
      InvHasLock(s);
      assert a == PassLock(a.c);
      DozingHoldsLock(s, a.c);
    }
    if a.Link? {
      StepKeeps(s, a);
      assert a == Link(a.c);
      LinkFaults(s, a.c);
      LinkerWillNotify(s, a.c);
    }
    if !a.Link? && (s.worker.Dozing? || s.worker.Waiting?) { NextUnseen(s, a); }
  }

  lemma InvHasLock(s: State)
    requires Inv(s)
    ensures LockOk(s.holder, s.worker, s.clients)
  {
    hide ListOk, EndsOk, CountsOk, RanOk, SyncOk;
  }

  lemma LinkFaults(s: State, c: ClientId)
    requires Enabled(s, Link(c)) && Inv(Apply(s, Link(c)))
    ensures Apply(s, Link(c)) == DoLink(s, c) && !DoLink(s, c).fault
  {
    hide ListOk, EndsOk, CountsOk, RanOk, SyncOk, DoLink;
  }

  /** What the sleeping worker sees of its node changes only when a client links. */
  lemma NextUnseen(s: State, a: Action)
    requires Inv(s) && Enabled(s, a) && !a.Link? && (s.worker.Dozing? || s.worker.Waiting?)
    ensures LinkedTask(Apply(s, a)) == LinkedTask(s)
  {
    hide ListOk, EndsOk, CountsOk, RanOk, SyncOk, LockOk, Apply, Enabled;
    WorkerAlive(s);
    CurrentNode(s);
    NextKept(s, a);
  }

  /** The last notification, with the worker asleep over a linked task, goes to a client in `sync`. */
  predicate Wastes(s: State, a: Action) {
    && a.NotifyOne? && a.woken.Some? && a.woken.value.ClientWaiter?
    && s.worker.Waiting? && LinkedTask(s)
    && forall d | d in s.clients && d != a.c :: !s.clients[d].Linked? && !s.clients[d].Notifying?
  }

  lemma NotifyEffect(s: State, c: ClientId, woken: Option<Waiter>)
    requires Enabled(s, NotifyOne(c, woken))
    ensures var s' := Apply(s, NotifyOne(c, woken));
            && (SomeoneLinked(s'.clients) <==> SomeoneLinked(s.clients))
            && (SomeoneNotifying(s'.clients) <==> exists d :: d in s.clients && d != c && s.clients[d].Notifying?)
            && LinkedTask(s') == LinkedTask(s)
            && (s'.worker == s.worker || s'.worker.Locking?)
            && (s'.worker.Waiting? ==> woken.Some? && woken.value.ClientWaiter?)
            && (woken.Some? && woken.value.ClientWaiter? ==> s'.worker == s.worker)
  {
    var s' := Apply(s, NotifyOne(c, woken));
    assert forall d | d in s.clients && d != c ::
      && d in s'.clients && s'.clients[d].Linked? == s.clients[d].Linked?
      && s'.clients[d].Notifying? == s.clients[d].Notifying?;
    assert forall d | d in s'.clients :: d in s.clients && d != c;
  }

  /** Whatever the clients do, a step loses the worker's wake-up if and only if it wastes a notification. */
  lemma WakeupLostIffWasted(s: State, a: Action)
    requires Inv(s) && WakeOk(s) && Enabled(s, a)
    ensures !WakeOk(Apply(s, a)) <==> Wastes(s, a)
  {
    hide Inv, Apply, Enabled, LinkedTask;
    if a.NotifyOne? {
      NotifyEffect(s, a.c, a.woken);
      NotifierIsNotifying(s, a);
    } else {
      OthersKeepWakeups(s, a);
    }
  }

  lemma NotifierIsNotifying(s: State, a: Action)
    requires Enabled(s, a) && a.NotifyOne?
    ensures a.c in s.clients && s.clients[a.c].Notifying?
    ensures SomeoneLinked(s.clients) <==> exists d :: d in s.clients && d != a.c && s.clients[d].Linked?
  {
  }

  // ---------- runs ----------

  ghost predicate SomeWaste(s: State, actions: seq<Action>)
    requires ValidRun(s, actions)
    decreases |actions|
  {
    actions != [] && (Wastes(s, actions[0]) || SomeWaste(Apply(s, actions[0]), actions[1..]))
  }

  ghost predicate AlwaysWakeOk(s: State, actions: seq<Action>)
    requires ValidRun(s, actions)
    decreases |actions|
  {
    WakeOk(s) && (actions == [] || AlwaysWakeOk(Apply(s, actions[0]), actions[1..]))
  }

  lemma {:induction false} RunLosesIffWastes(s: State, actions: seq<Action>)
    requires Inv(s) && WakeOk(s) && ValidRun(s, actions)
    ensures AlwaysWakeOk(s, actions) <==> !SomeWaste(s, actions)
    decreases |actions|
  {
    if actions != [] {
      var a, s' := actions[0], Apply(s, actions[0]);
      StepKeeps(s, a);
      WakeupLostIffWasted(s, a);
      hide Inv, Apply, Enabled, Wastes;
      if WakeOk(s') {
        RunLosesIffWastes(s', actions[1..]);
      } else {
        assert !AlwaysWakeOk(s', actions[1..]);
      }
    }
  }

  /**
   The exact condition, for every run from start-up and any number of clients: the worker has its wake-up in every state
   if and only if no step wastes a notification.
   */
  lemma WakeupsLostExactly(dummy: Addr, actions: seq<Action>)
    requires ValidRun(Init(dummy), actions)
    ensures AlwaysWakeOk(Init(dummy), actions) <==> !SomeWaste(Init(dummy), actions)
  {
    InitInv(dummy);
    RunLosesIffWastes(Init(dummy), actions);
  }

  lemma {:induction false} LastIsWakeOk(s: State, actions: seq<Action>)
    requires ValidRun(s, actions) && AlwaysWakeOk(s, actions)
    ensures WakeOk(RunTo(s, actions))
    decreases |actions|
  {
    if actions != [] {
      hide Apply, Enabled, WakeOk;
      LastIsWakeOk(Apply(s, actions[0]), actions[1..]);
    }
  }

  /** With no client in `sync` while another enqueues, nothing is wasted. */
  lemma {:induction false} ExclusiveRunsWasteNothing(s: State, actions: seq<Action>)
    requires ValidRun(s, actions) && ExclusiveRun(s, actions)
    ensures !SomeWaste(s, actions)
    decreases |actions|
  {
    if actions != [] {
      ExclusiveWastesNothing(s, actions[0]);
      hide Apply, Enabled, Exclusive, Wastes;
      ExclusiveRunsWasteNothing(Apply(s, actions[0]), actions[1..]);
    }
  }

  lemma ExclusiveWastesNothing(s: State, a: Action)
    requires Exclusive(s) && Enabled(s, a)
    ensures !Wastes(s, a)
  {
  }

  /** With one client at a time on either side, no run loses a wake-up. */
  lemma NoLostWakeup(dummy: Addr, actions: seq<Action>)
    requires ValidRun(Init(dummy), actions) && ExclusiveRun(Init(dummy), actions)
    ensures !LostWakeup(RunTo(Init(dummy), actions))
  {
    ExclusiveRunsKeepWakeups(dummy, actions);
  }

  lemma ExclusiveRunsKeepWakeups(dummy: Addr, actions: seq<Action>)
    requires ValidRun(Init(dummy), actions) && ExclusiveRun(Init(dummy), actions)
    ensures WakeOk(RunTo(Init(dummy), actions)) && Exclusive(RunTo(Init(dummy), actions))
  {
    hide *;
    ExclusiveRunsWasteNothing(Init(dummy), actions);
    WakeupsLostExactly(dummy, actions);
    LastIsWakeOk(Init(dummy), actions);
    LastIsExclusive(Init(dummy), actions);
  }

  lemma {:induction false} LastIsExclusive(s: State, actions: seq<Action>)
    requires ValidRun(s, actions) && ExclusiveRun(s, actions)
    ensures Exclusive(RunTo(s, actions))
    decreases |actions|
  {
    if actions != [] {
      hide Apply, Enabled, Exclusive;
      LastIsExclusive(Apply(s, actions[0]), actions[1..]);
    }
  }

  /** Whatever the clients do, a `sync` whose condition holds does not sleep unless a `notify_all` is about to come. */
  lemma SatisfiedSyncIsWoken(dummy: Addr, actions: seq<Action>, c: ClientId)
    requires ValidRun(Init(dummy), actions)
    requires c in RunTo(Init(dummy), actions).clients && RunTo(Init(dummy), actions).clients[c].SyncWaiting?
    ensures var s := RunTo(Init(dummy), actions);
            SyncReady(s, s.clients[c].allow) ==> s.worker.Broadcasting? || s.destructor.Marked?
  {
    InitInv(dummy);
    RunKeepsInv(Init(dummy), actions);
  }

  // ---------- the queue never gets stuck ----------

  /** Actions threads take of their own accord once inside a call; new calls and spurious wake-ups do not count. */
  predicate Internal(a: Action) {
    !a.Count? && !a.SyncCall? && !a.SyncSpurious? && !a.WSpurious? && !a.DMark?
  }

  /** Every call has returned and either every published task has run or the destructor has finished. */
  ghost predicate Idle(s: State) {
    && s.clients == map[]
    && (s.destructor.Destroyed? ||
        (s.destructor.NotStarted? && s.worker.Waiting? && s.pending == 0 && RunCount(s) == |s.hist.order| - 1))
  }

  lemma FreshAddress(heap: Heap) returns (a: Addr)
    ensures a !in heap
  {
    a := 0;
    var seen: set<Addr> := {};
    while a in heap
      invariant seen <= heap.Keys && |seen| == a
      invariant forall b | b in seen :: b < a
      decreases heap.Keys - seen
    {
      seen := seen + {a};
      a := a + 1;
    }
  }

  lemma HolderCanMove(s: State) returns (a: Action)
    requires LockOk(s.holder, s.worker, s.clients) && s.holder.Some?
    ensures Internal(a) && Enabled(s, a) && !a.Link?
  {
    match s.holder.value
    case WorkerHolds =>
      a := if s.worker.Holding? then WEval else WSleep;
    case ClientHolds(c) =>
      assert c in s.clients && HoldsLock(s.clients[c]);
      a := if s.clients[c].SyncHolding? then SyncTest(c) else SyncSleep(c);
  }

  lemma ClientCanMove(s: State, c: ClientId) returns (a: Action)
    requires s.holder == None && c in s.clients && !s.clients[c].SyncWaiting?
    ensures Internal(a) && Enabled(s, a) && (a.Link? ==> a.c == c)
  {
    match s.clients[c]
    case Counted(_) =>
      var addr := FreshAddress(s.heap);
      a := Alloc(c, addr);
    case Allocated(_, _) => a := Exchange(c);
    case Exchanged(_, _) => a := Link(c);
    case Linked => a := PassLock(c);
    case Notifying =>
      if s.worker.Waiting? {
        a := NotifyOne(c, Some(WorkerWaiter));
      } else if d :| d in s.clients && s.clients[d].SyncWaiting? {
        a := NotifyOne(c, Some(ClientWaiter(d)));
      } else {
        a := NotifyOne(c, None);
      }
    case SyncEntered(_) => a := SyncLock(c);
    case SyncHolding(_) => a := SyncTest(c);
    case SyncDozing(_) => a := SyncSleep(c);
  }

  lemma WorkerCanMove(s: State) returns (a: Action)
    requires s.holder == None && !s.worker.Waiting? && !s.worker.Exited?
    ensures Internal(a) && Enabled(s, a) && !a.Link?
  {
    match s.worker
    case Testing => a := WTest;
    case Loading => a := WLoad;
    case Running(_) => a := WRun;
    case Deleting(_) => a := WDelete;
    case Storing(_) => a := WStore;
    case Finishing => a := WFinish;
    case Broadcasting => a := WBroadcast;
    case Locking => a := WLock;
    case Holding => a := WEval;
    case Dozing => a := WSleep;
  }

  /** Everyone asleep and no shutdown: the queue has been drained. */
  lemma AsleepMeansDrained(s: State)
    requires Inv(s) && !LostWakeup(s) && s.destructor.NotStarted? && (s.worker.Waiting? || s.worker.Exited?)
    requires forall c | c in s.clients :: s.clients[c].SyncWaiting?
    ensures Idle(s)
  {
    CurrentNode(s);
    NoLinkerLeft(s);
    hide ListOk, RanOk, LockOk;
    assert s.hist.taken + 1 == |s.hist.order|;
    assert s.hist.uncommitted == {};
    assert s.pending == 0;
    assert forall c :: c !in s.clients;
  }

  lemma ShutdownCanMove(s: State) returns (a: Action)
    requires Inv(s) && !s.destructor.NotStarted? && !s.destructor.Destroyed? && s.holder == None
    requires s.worker.Waiting? || s.worker.Exited?
    requires forall c | c in s.clients :: s.clients[c].SyncWaiting?
    ensures Internal(a) && Enabled(s, a)
  {
    hide ListOk, CountsOk, RanOk, LockOk;
    match s.destructor
    case Marked => a := DBroadcast;
    case Joining =>
      assert forall c :: c !in s.clients;
      a := DJoin;
    case Freeing(_) => a := DFree;
  }

  /**
   Deadlock freedom: unless nothing is left to do, or a wake-up has been lost, some thread can take a step of its own
   without waiting for a new call or a spurious wake-up.
   */
  lemma NeverStuck(s: State) returns (a: Action)
    requires Inv(s) && !LostWakeup(s) && !Idle(s)
    ensures Internal(a) && Enabled(s, a)
  {
    if s.holder.Some? {
      a := HolderCanMove(s);
    } else if !s.worker.Waiting? && !s.worker.Exited? {
      a := WorkerCanMove(s);
    } else if c :| c in s.clients && !s.clients[c].SyncWaiting? {
      a := ClientCanMove(s, c);
    } else if s.destructor.NotStarted? {
      AsleepMeansDrained(s);
      assert false;
    } else {
      hide LockOk, RanOk, CountsOk, ListOk, SyncOk;
      a := ShutdownCanMove(s);
    }
  }

  lemma NoLinkerLeft(s: State)
    requires ListOk(s) && EndsOk(s) && Alive(s)
    requires forall c | c in s.clients :: s.clients[c].SyncWaiting?
    ensures s.hist.taken !in s.hist.linker
  {
    if s.hist.taken in s.hist.linker {
      LinkerIsExchanged(s, s.hist.taken);
    }
  }

  lemma LinkerIsExchanged(s: State, i: nat)
    requires ListOk(s) && i in s.hist.linker
    ensures s.hist.linker[i] in s.clients && s.clients[s.hist.linker[i]].Exchanged?
  {
    assert WillLink(s.clients, s.hist.order, s.hist.linker[i], i);
  }

  lemma RunsNeverStick(dummy: Addr, actions: seq<Action>) returns (a: Action)
    requires ValidRun(Init(dummy), actions) && ExclusiveRun(Init(dummy), actions)
    requires !Idle(RunTo(Init(dummy), actions))
    ensures Internal(a) && Enabled(RunTo(Init(dummy), actions), a)
  {
    InitInv(dummy);
    RunKeepsInv(Init(dummy), actions);
    NoLostWakeup(dummy, actions);
    hide *;
    a := NeverStuck(RunTo(Init(dummy), actions));
  }

  // ---------- without the discipline ----------

  lemma {:induction false} Extend(s: State, actions: seq<Action>, a: Action)
    requires ValidRun(s, actions) && Enabled(RunTo(s, actions), a)
    ensures ValidRun(s, actions + [a]) && RunTo(s, actions + [a]) == Apply(RunTo(s, actions), a)
    decreases |actions|
  {
    if actions == [] {
      assert actions + [a] == [a];
    } else {
      assert (actions + [a])[1..] == actions[1..] + [a];
      hide Apply, Enabled;
      Extend(Apply(s, actions[0]), actions[1..], a);
    }
  }

  /** The worker finds the queue empty and goes to sleep. */
  function FallAsleep(): seq<Action> {
    [WTest, WLoad, WLock, WEval, WSleep]
  }

  lemma WorkerFallsAsleep(dummy: Addr)
    ensures ValidRun(Init(dummy), FallAsleep())
    ensures RunTo(Init(dummy), FallAsleep()) == Init(dummy).(worker := Waiting)
  {
    var s := Init(dummy);
    assert ValidRun(s, []) && RunTo(s, []) == s;
    hide RunTo, ValidRun;
    Extend(s, [], WTest);
    var one := [WTest];
    assert [] + [WTest] == one;
    assert RunTo(s, one) == s.(worker := Loading);
    Extend(s, one, WLoad);
    var two := one + [WLoad];
    assert RunTo(s, two) == s.(worker := Locking);
    Extend(s, two, WLock);
    var three := two + [WLock];
    assert RunTo(s, three) == s.(worker := Holding, holder := Some(WorkerHolds));
    Extend(s, three, WEval);
    var four := three + [WEval];
    assert RunTo(s, four) == s.(worker := Dozing, holder := Some(WorkerHolds));
    Extend(s, four, WSleep);
    assert four + [WSleep] == FallAsleep();
  }

  /** Client 1 has raised `pending`; client 2 finds it positive and goes to sleep in `sync(0)`. */
  lemma ClientFallsAsleep(actions: seq<Action>) returns (more: seq<Action>)
    requires ValidRun(Init(0), actions) && RunTo(Init(0), actions) == Init(0).(worker := Waiting)
    ensures ValidRun(Init(0), more)
    ensures var s := RunTo(Init(0), more);
            s == DoCount(Init(0), 1, Some(7)).(worker := Waiting,
                                               clients := map[1 := Counted(Some(7)), 2 := SyncWaiting(0)])
  {
    var s := Init(0);
    more := actions;
    Extend(s, more, Count(1, Some(7)));
    more := more + [Count(1, Some(7))];
    Extend(s, more, SyncCall(2, 0));
    more := more + [SyncCall(2, 0)];
    Extend(s, more, SyncLock(2));
    more := more + [SyncLock(2)];
    Extend(s, more, SyncTest(2));
    more := more + [SyncTest(2)];
    Extend(s, more, SyncSleep(2));
    more := more + [SyncSleep(2)];
  }

  ghost predicate TaskPublished(s: State, c: Client) {
    && s.worker.Waiting? && s.curr == 0 && s.heap == map[0 := Node(None, Some(1)), 1 := Node(Some(7), None)]
    && s.clients == map[1 := c, 2 := SyncWaiting(0)]
    && s.pending == 1 && !s.done && s.holder == None && s.destructor == NotStarted
  }

  /** Client 1 publishes and links its task, and comes to its single notification. */
  lemma TaskIsLinked(actions: seq<Action>) returns (more: seq<Action>)
    requires ValidRun(Init(0), actions)
    requires RunTo(Init(0), actions) ==
      DoCount(Init(0), 1, Some(7)).(worker := Waiting, clients := map[1 := Counted(Some(7)), 2 := SyncWaiting(0)])
    ensures ValidRun(Init(0), more) && TaskPublished(RunTo(Init(0), more), Notifying)
  {
    hide RunTo, ValidRun;
    var s := Init(0);
    more := actions;
    Extend(s, more, Alloc(1, 1));
    more := more + [Alloc(1, 1)];
    Extend(s, more, Exchange(1));
    more := more + [Exchange(1)];
    Extend(s, more, Link(1));
    more := more + [Link(1)];
    assert TaskPublished(RunTo(s, more), Linked);
    Extend(s, more, PassLock(1));
    more := more + [PassLock(1)];
  }

  ghost predicate TaskStranded(s: State, c: Client) {
    && s.worker.Waiting? && s.curr == 0 && s.heap == map[0 := Node(None, Some(1)), 1 := Node(Some(7), None)]
    && s.clients == map[2 := c]
    && s.pending == 1 && !s.done && s.destructor == NotStarted
  }

  /** The notification goes to client 2. */
  lemma NotificationIsWasted(actions: seq<Action>) returns (more: seq<Action>)
    requires ValidRun(Init(0), actions) && TaskPublished(RunTo(Init(0), actions), Notifying)
    ensures ValidRun(Init(0), more) && RunTo(Init(0), more).holder == None
    ensures TaskStranded(RunTo(Init(0), more), SyncEntered(0))
  {
    hide RunTo, ValidRun, TasksOf;
    var a := NotifyOne(1, Some(ClientWaiter(2)));
    Extend(Init(0), actions, a);
    more := actions + [a];
    assert map[1 := Notifying, 2 := SyncEntered(0)] - {1} == map[2 := SyncEntered(0)];
  }

  /** It finds its condition still false and sleeps again. */
  lemma ClientSleepsAgain(actions: seq<Action>) returns (more: seq<Action>)
    requires ValidRun(Init(0), actions) && RunTo(Init(0), actions).holder == None
    requires TaskStranded(RunTo(Init(0), actions), SyncEntered(0))
    ensures ValidRun(Init(0), more) && RunTo(Init(0), more).holder == None
    ensures TaskStranded(RunTo(Init(0), more), SyncWaiting(0))
  {
    hide RunTo, ValidRun, TasksOf;
    var s := Init(0);
    more := actions;
    Extend(s, more, SyncLock(2));
    more := more + [SyncLock(2)];
    assert TaskStranded(RunTo(s, more), SyncHolding(0));
    Extend(s, more, SyncTest(2));
    more := more + [SyncTest(2)];
    assert TaskStranded(RunTo(s, more), SyncDozing(0));
    Extend(s, more, SyncSleep(2));
    more := more + [SyncSleep(2)];
  }

  lemma StrandedIsLost(s: State)
    requires TaskStranded(s, SyncWaiting(0))
    ensures LostWakeup(s)
  {
  }

  lemma NobodyCanMove(s: State)
    requires s.clients == map[2 := SyncWaiting(0)] && s.worker.Waiting? && s.destructor.NotStarted?
    ensures forall a | Internal(a) :: !Enabled(s, a)
  {
    forall a | Internal(a) ensures !Enabled(s, a) {
    }
  }

  /**
   With a `sync` and an `enqueue` overlapping, the queue can stop for good: a published task, a sleeping worker, a
   client asleep in `sync` waiting for that very task, and no thread able to move.
   */
  lemma OverlapCanLoseWakeup() returns (actions: seq<Action>)
    ensures ValidRun(Init(0), actions)
    ensures LostWakeup(RunTo(Init(0), actions))
    ensures RunTo(Init(0), actions).clients == map[2 := SyncWaiting(0)] && RunTo(Init(0), actions).pending == 1
    ensures forall a | Internal(a) :: !Enabled(RunTo(Init(0), actions), a)
  {
    hide RunTo, ValidRun, Apply, Enabled;
    WorkerFallsAsleep(0);
    actions := ClientFallsAsleep(FallAsleep());
    actions := TaskIsLinked(actions);
    actions := NotificationIsWasted(actions);
    actions := ClientSleepsAgain(actions);
    StrandedIsLost(RunTo(Init(0), actions));
    NobodyCanMove(RunTo(Init(0), actions));
  }
}
