/**
 The queue comes to rest. Every step a thread takes of its own accord lowers a measure, whatever the clients do; a run
 that cannot go on has returned from every call, or has lost a wake-up. New calls and spurious wake-ups do not count.
 */
module TaskQueueProgress {
  import opened Options
  import opened TaskQueue
  import opened TaskQueueSafety
  import opened TaskQueueWakeup

  // ---------- sums over the clients ----------

  ghost function Reaching(clients: Clients, stage: Client -> nat, k: nat): set<ClientId> {
    set c | c in clients && stage(clients[c]) >= k
  }

  /** The sum of all clients' stages, each cut off at `n`. */
  ghost function Total(clients: Clients, stage: Client -> nat, n: nat): nat {
    if n == 0 then 0 else |Reaching(clients, stage, n)| + Total(clients, stage, n - 1)
  }

  function Capped(x: nat, n: nat): nat {
    if x <= n then x else n
  }

  lemma LevelUpdate(clients: Clients, stage: Client -> nat, k: nat, c: ClientId, x: Client)
    ensures |Reaching(clients[c := x], stage, k)| + (if c in Reaching(clients, stage, k) then 1 else 0) ==
            |Reaching(clients, stage, k)| + if stage(x) >= k then 1 else 0
  {
    var before, after := Reaching(clients, stage, k), Reaching(clients[c := x], stage, k);
    if stage(x) >= k {
      assert after == before + {c};
    } else {
      assert after == before - {c};
    }
  }

  lemma {:induction false} TotalUpdate(clients: Clients, stage: Client -> nat, n: nat, c: ClientId, x: Client)
    ensures Total(clients[c := x], stage, n) + (if c in clients then Capped(stage(clients[c]), n) else 0) ==
            Total(clients, stage, n) + Capped(stage(x), n)
  {
    if n > 0 {
      LevelUpdate(clients, stage, n, c, x);
      TotalUpdate(clients, stage, n - 1, c, x);
      assert c in Reaching(clients, stage, n) <==> c in clients && stage(clients[c]) >= n;
      hide Reaching;
    }
  }

  lemma {:induction false} TotalRemove(clients: Clients, stage: Client -> nat, n: nat, c: ClientId)
    requires c in clients
    ensures Total(clients - {c}, stage, n) + Capped(stage(clients[c]), n) == Total(clients, stage, n)
  {
    if n > 0 {
      TotalRemove(clients, stage, n - 1, c);
      assert Reaching(clients - {c}, stage, n) == Reaching(clients, stage, n) - {c};
    }
  }

  lemma {:induction false} TotalSame(clients: Clients, clients': Clients, stage: Client -> nat, n: nat)
    requires clients.Keys == clients'.Keys && forall c | c in clients :: stage(clients'[c]) == stage(clients[c])
    ensures Total(clients', stage, n) == Total(clients, stage, n)
  {
    if n > 0 {
      TotalSame(clients, clients', stage, n - 1);
      assert forall c :: c in clients <==> c in clients';
      assert Reaching(clients', stage, n) == Reaching(clients, stage, n);
    }
  }

  lemma Subset<T>(a: set<T>, b: set<T>)
    requires a <= b
    ensures |a| <= |b|
  {
    assert b == a + (b - a);
  }

  lemma {:induction false} TotalBound(clients: Clients, stage: Client -> nat, n: nat)
    ensures Total(clients, stage, n) <= n * |clients|
  {
    if n > 0 {
      TotalBound(clients, stage, n - 1);
      Subset(Reaching(clients, stage, n), clients.Keys);
      assert |clients.Keys| == |clients|;
    }
  }

  // ---------- the measure ----------

  /** What a client still has to do in `enqueue`; publishing counts double: it gives the destructor a node to free. */
  function EnqueueStage(c: Client): nat {
    match c
    case Counted(_) => 6
    case Allocated(_, _) => 5
    case Exchanged(_, _) => 3
    case Linked => 2
    case Notifying => 1
    case _ => 0
  }

  /** What a client still has to do in `sync` before it sleeps. */
  function SyncStage(c: Client): nat {
    match c
    case SyncEntered(_) => 3
    case SyncHolding(_) => 2
    case SyncDozing(_) => 1
    case _ => 0
  }

  /** What the worker still has to do before it finishes its task or sleeps. */
  function WorkerStage(w: Worker, next: bool, done: bool): (r: nat)
    ensures r <= 11
  {
    match w
    case Broadcasting => 11
    case Testing => if done then 1 else if next then 7 else 6
    case Loading => if next then 6 else if done then 10 else 5
    case Running(_) => 5
    case Deleting(_) => 4
    case Storing(_) => 3
    case Finishing => 2
    case Locking => if next || done then 9 else 4
    case Holding => if next || done then 8 else 3
    case Dozing => 2
    case Waiting => 0
    case Exited => 0
  }

  function DestructorStage(s: State): nat {
    match s.destructor
    case NotStarted => 0
    case Marked => |s.hist.order| + 3
    case Joining => |s.hist.order| + 2
    case Freeing(node) => if node.Some? && s.hist.taken <= |s.hist.order| then |s.hist.order| - s.hist.taken + 1 else 1
    case Destroyed => 0
  }

  ghost function CallWork(s: State): int {
    Total(s.clients, EnqueueStage, 6) + s.pending + DestructorStage(s)
  }

  function WorkerWork(s: State): nat {
    WorkerStage(s.worker, LinkedTask(s), s.done)
  }

  ghost function SyncWork(s: State): nat {
    Total(s.clients, SyncStage, 3)
  }

  /** Enqueues and tasks first, then the worker, then the clients in `sync`. */
  ghost predicate Lower(s: State, s': State) {
    || CallWork(s') < CallWork(s)
    || (CallWork(s') == CallWork(s) && WorkerWork(s') < WorkerWork(s))
    || (CallWork(s') == CallWork(s) && WorkerWork(s') == WorkerWork(s) && SyncWork(s') < SyncWork(s))
  }

  // ---------- each step lowers it ----------

  lemma CountLeft(s: State)
    requires Inv(s)
    ensures s.pending >= 0 && CallWork(s) >= 0
  {
    hide ListOk, EndsOk, RanOk, LockOk, SyncOk, Total;
  }

  lemma StepClient(s: State, a: Action)
    requires Enabled(s, a) && (a.Alloc? || a.Exchange? || a.Link? || a.PassLock?) && !Apply(s, a).fault && !s.fault
    ensures a.c in s.clients && Apply(s, a).clients == s.clients[a.c := Apply(s, a).clients[a.c]]
    ensures a.c in Apply(s, a).clients
    ensures EnqueueStage(Apply(s, a).clients[a.c]) + (if a.Exchange? then 2 else 1) == EnqueueStage(s.clients[a.c])
    ensures Apply(s, a).pending == s.pending && Apply(s, a).destructor == s.destructor
    ensures Apply(s, a).hist.taken == s.hist.taken
    ensures |Apply(s, a).hist.order| == |s.hist.order| + if a.Exchange? then 1 else 0
  {
  }

  lemma EnqueueLowers(s: State, a: Action)
    requires Inv(s) && Enabled(s, a) && (a.Alloc? || a.Exchange? || a.Link? || a.PassLock?) && !Apply(s, a).fault
    ensures CallWork(Apply(s, a)) < CallWork(s)
  {
    hide Total, ListOk, CountsOk, RanOk, LockOk, SyncOk, Apply, Enabled, EnqueueStage;
    StepClient(s, a);
    TotalUpdate(s.clients, EnqueueStage, 6, a.c, Apply(s, a).clients[a.c]);
    StageBound(s.clients[a.c]);
  }

  lemma StageBound(c: Client)
    ensures EnqueueStage(c) <= 6 && SyncStage(c) <= 3
  {
  }

  lemma NotifyLowers(s: State, c: ClientId, woken: Option<Waiter>)
    requires Enabled(s, NotifyOne(c, woken))
    ensures CallWork(Apply(s, NotifyOne(c, woken))) < CallWork(s)
  {
    hide Total;
    var s1 := if woken.Some? then Wake(s, woken.value) else s;
    if woken.Some? && woken.value.ClientWaiter? {
      var d := woken.value.c;
      TotalUpdate(s.clients, EnqueueStage, 6, d, SyncEntered(s.clients[d].allow));
    }
    assert Total(s1.clients, EnqueueStage, 6) == Total(s.clients, EnqueueStage, 6);
    TotalRemove(s1.clients, EnqueueStage, 6, c);
  }

  lemma SyncStep(s: State, a: Action)
    requires Enabled(s, a) && (a.SyncLock? || a.SyncTest? || a.SyncSleep?)
    ensures var s' := Apply(s, a);
            && s'.pending == s.pending && s'.destructor == s.destructor && s'.hist == s.hist && s'.worker == s.worker
            && s'.heap == s.heap && s'.curr == s.curr && s'.done == s.done
            && a.c in s.clients && EnqueueStage(s.clients[a.c]) == 0 && SyncStage(s.clients[a.c]) > 0
            && if a.c in s'.clients
               then && s'.clients == s.clients[a.c := s'.clients[a.c]] && EnqueueStage(s'.clients[a.c]) == 0
                    && SyncStage(s'.clients[a.c]) < SyncStage(s.clients[a.c])
               else s'.clients == s.clients - {a.c}
  {
  }

  lemma SyncLowers(s: State, a: Action)
    requires Enabled(s, a) && (a.SyncLock? || a.SyncTest? || a.SyncSleep?)
    ensures Lower(s, Apply(s, a))
  {
    hide Total, Apply, Enabled, EnqueueStage, SyncStage, WorkerStage;
    SyncStep(s, a);
    var s' := Apply(s, a);
    StageBound(s.clients[a.c]);
    if a.c in s'.clients {
      TotalUpdate(s.clients, EnqueueStage, 6, a.c, s'.clients[a.c]);
      TotalUpdate(s.clients, SyncStage, 3, a.c, s'.clients[a.c]);
    } else {
      TotalRemove(s.clients, EnqueueStage, 6, a.c);
      TotalRemove(s.clients, SyncStage, 3, a.c);
    }
  }

  lemma WakingKeepsEnqueues(s: State)
    ensures Total(WakeAll(s).clients, EnqueueStage, 6) == Total(s.clients, EnqueueStage, 6)
  {
    TotalSame(s.clients, WakeAll(s).clients, EnqueueStage, 6);
  }

  lemma TakeKeepsCalls(s: State, a: Action)
    requires Alive(s) && Enabled(s, a) && TakeAction(a)
    ensures CallWork(Apply(s, a)) == CallWork(s)
  {
    hide Total, TasksOf;
  }

  lemma TakeLowers(s: State, a: Action)
    requires Enabled(s, a) && TakeAction(a) && !Apply(s, a).fault
    ensures WorkerWork(Apply(s, a)) < WorkerWork(s)
  {
    hide TasksOf;
  }

  lemma BroadcastLowers(s: State)
    requires Enabled(s, WBroadcast)
    ensures CallWork(Apply(s, WBroadcast)) == CallWork(s) && WorkerWork(Apply(s, WBroadcast)) < WorkerWork(s)
  {
    hide Total;
    WakingKeepsEnqueues(s);
  }

  lemma WaitLowers(s: State, a: Action)
    requires Alive(s) && Enabled(s, a) && WorkerAction(a) && !TakeAction(a) && !a.WSpurious? && !a.WBroadcast?
    requires !s.fault && !Apply(s, a).fault
    ensures if a.WFinish? then CallWork(Apply(s, a)) < CallWork(s)
            else CallWork(Apply(s, a)) == CallWork(s) && WorkerWork(Apply(s, a)) < WorkerWork(s)
  {
    hide Total;
  }

  lemma DestructorLowers(s: State, a: Action)
    requires Inv(s) && Enabled(s, a) && (a.DBroadcast? || a.DJoin? || a.DFree?) && !Apply(s, a).fault
    ensures CallWork(Apply(s, a)) < CallWork(s)
  {
    hide Total, CountsOk, RanOk, LockOk, SyncOk;
    WakingKeepsEnqueues(s);
    if a.DFree? { EndsUnderFree(s); }
    hide ListOk;
  }

  lemma StepLowers(s: State, a: Action)
    requires Inv(s) && Enabled(s, a) && Internal(a)
    ensures Inv(Apply(s, a)) && Lower(s, Apply(s, a)) && CallWork(Apply(s, a)) >= 0
  {
    hide Inv, Apply, Enabled, CallWork, WorkerWork, SyncWork;
    StepKeeps(s, a);
    InvHasNoFault(Apply(s, a));
    CountLeft(Apply(s, a));
    if a.NotifyOne? {
      assert a == NotifyOne(a.c, a.woken);
      NotifyLowers(s, a.c, a.woken);
    } else if EnqueueAction(a) {
      EnqueueLowers(s, a);
    } else if SyncAction(a) {
      SyncLowers(s, a);
    } else if TakeAction(a) {
      WorkingIsAlive(s, a);
      TakeKeepsCalls(s, a);
      TakeLowers(s, a);
    } else if a.WBroadcast? {
      BroadcastLowers(s);
    } else if WorkerAction(a) {
      WorkingIsAlive(s, a);
      WaitLowers(s, a);
    } else {
      DestructorLowers(s, a);
    }
  }

  lemma InvHasNoFault(s: State)
    requires Inv(s)
    ensures !s.fault
  {
    hide ListOk, EndsOk, CountsOk, RanOk, LockOk, SyncOk;
  }

  lemma WorkingIsAlive(s: State, a: Action)
    requires Inv(s) && Enabled(s, a) && WorkerAction(a)
    ensures Alive(s) && !s.fault
  {
    hide ListOk, CountsOk, RanOk, LockOk, SyncOk;
  }

  // ---------- how many steps that is ----------

  /** With at most `n` clients, one number: a task or a call is worth more than anything it can set off. */
  ghost function Measure(s: State, n: nat): int {
    (3 * n + 1) * (12 * CallWork(s) + WorkerWork(s)) + SyncWork(s)
  }

  lemma MoreByUnit(u: nat, p: nat, p': nat)
    requires p' < p
    ensures u * p' + u <= u * p
  {
    var d := p - p' - 1;
    assert p == p' + 1 + d;
    assert u * p == u * p' + u + u * d;
    assert u * d >= 0;
  }

  lemma Weigh(u: nat, p: nat, y: nat, p': nat, y': nat)
    requires y' < u && (p' < p || (p' == p && y' < y))
    ensures 0 <= u * p' + y' < u * p + y
  {
    assert u * p' >= 0;
    if p' < p { MoreByUnit(u, p, p'); }
  }

  lemma NoMoreClients(s: State, a: Action)
    requires Enabled(s, a) && Internal(a)
    ensures Apply(s, a).clients.Keys <= s.clients.Keys
  {
    hide TasksOf;
  }

  lemma StepLowersMeasure(s: State, a: Action, n: nat)
    requires Inv(s) && Enabled(s, a) && Internal(a) && |s.clients| <= n
    ensures Inv(Apply(s, a)) && 0 <= Measure(Apply(s, a), n) < Measure(s, n) && |Apply(s, a).clients| <= n
  {
    hide Inv, Apply, Enabled, CallWork, WorkerWork, Internal;
    var s' := Apply(s, a);
    CountLeft(s);
    StepLowers(s, a);
    NoMoreClients(s, a);
    Subset(s'.clients.Keys, s.clients.Keys);
    assert |s'.clients.Keys| == |s'.clients| && |s.clients.Keys| == |s.clients|;
    TotalBound(s.clients, SyncStage, 3);
    TotalBound(s'.clients, SyncStage, 3);
    WorkerBound(s);
    WorkerBound(s');
    Weigh(3 * n + 1, 12 * CallWork(s) + WorkerWork(s), SyncWork(s), 12 * CallWork(s') + WorkerWork(s'), SyncWork(s'));
  }

  lemma WorkerBound(s: State)
    ensures WorkerWork(s) <= 11
  {
  }

  predicate AllInternal(actions: seq<Action>) {
    forall i | 0 <= i < |actions| :: Internal(actions[i])
  }

  lemma MeasureNonneg(s: State, n: nat)
    requires Inv(s)
    ensures Measure(s, n) >= 0
  {
    hide Inv, CallWork, WorkerWork, SyncWork;
    CountLeft(s);
    assert (3 * n + 1) * (12 * CallWork(s) + WorkerWork(s)) >= 0;
  }

  lemma {:induction false} RunLowersMeasure(s: State, actions: seq<Action>, n: nat)
    requires Inv(s) && ValidRun(s, actions) && AllInternal(actions) && |s.clients| <= n
    ensures Inv(RunTo(s, actions)) && |actions| + Measure(RunTo(s, actions), n) <= Measure(s, n)
    decreases |actions|
  {
    if actions != [] {
      hide Inv, Apply, Enabled, Measure;
      StepLowersMeasure(s, actions[0], n);
      RunLowersMeasure(Apply(s, actions[0]), actions[1..], n);
    }
  }

  // ---------- every call returns ----------

  lemma {:induction false} RunConcat(s: State, first: seq<Action>, second: seq<Action>)
    requires ValidRun(s, first) && ValidRun(RunTo(s, first), second)
    ensures ValidRun(s, first + second) && RunTo(s, first + second) == RunTo(RunTo(s, first), second)
    decreases |first|
  {
    if first == [] {
      assert first + second == second;
    } else {
      assert (first + second)[1..] == first[1..] + second;
      hide Apply, Enabled;
      RunConcat(Apply(s, first[0]), first[1..], second);
    }
  }

  /** No thread inside a call, nor the worker, nor the destructor can take a step of its own. */
  ghost predicate AtRest(s: State) {
    forall a | Internal(a) :: !Enabled(s, a)
  }

  /** However its threads are scheduled from there, a reachable queue takes at most this many steps of its own. */
  lemma InternalWorkIsBounded(dummy: Addr, actions: seq<Action>, more: seq<Action>)
    requires ValidRun(Init(dummy), actions) && ValidRun(RunTo(Init(dummy), actions), more) && AllInternal(more)
    ensures var s := RunTo(Init(dummy), actions); |more| <= Measure(s, |s.clients|)
  {
    InitInv(dummy);
    RunKeepsInv(Init(dummy), actions);
    hide *;
    var s := RunTo(Init(dummy), actions);
    RunLowersMeasure(s, more, |s.clients|);
    MeasureNonneg(RunTo(s, more), |s.clients|);
  }

  /**
   When it has come to rest every call has returned, every `sync` among them, and every task has run or the queue is
   destroyed, unless a wake-up was lost.
   */
  lemma RestIsIdleOrLost(dummy: Addr, actions: seq<Action>)
    requires ValidRun(Init(dummy), actions) && AtRest(RunTo(Init(dummy), actions))
    ensures var s := RunTo(Init(dummy), actions); (s.clients == map[] && Idle(s)) || LostWakeup(s)
  {
    InitInv(dummy);
    RunKeepsInv(Init(dummy), actions);
    hide Inv, Enabled, Internal, LostWakeup, RunTo, ValidRun, Init;
    var s := RunTo(Init(dummy), actions);
    if !Idle(s) && !LostWakeup(s) {
      var a := NeverStuck(s);
      assert false;
    }
  }

  lemma ExclusiveKept(s: State, a: Action)
    requires Exclusive(s) && Enabled(s, a) && Internal(a)
    ensures Exclusive(Apply(s, a))
  {
    hide TasksOf;
  }

  lemma {:induction false} ExclusiveContinues(s: State, first: seq<Action>, more: seq<Action>)
    requires ValidRun(s, first + more) && AllInternal(more) && ValidRun(s, first) && ExclusiveRun(s, first)
    ensures ExclusiveRun(s, first + more)
    decreases |first| + |more|
  {
    hide Apply, Enabled, Exclusive, Internal;
    if first != [] {
      assert (first + more)[1..] == first[1..] + more;
      ExclusiveContinues(Apply(s, first[0]), first[1..], more);
    } else if more != [] {
      assert first + more == more;
      ExclusiveKept(s, more[0]);
      assert [] + more[1..] == more[1..];
      ExclusiveContinues(Apply(s, more[0]), [], more[1..]);
    }
  }

  /**
   With no `sync` overlapping another client's `enqueue`, `sync` returns: let the threads run on as they like, and they
   stop only when every call has returned and every task has run, or the queue is destroyed.
   */
  lemma CallsReturn(dummy: Addr, actions: seq<Action>, more: seq<Action>)
    requires ValidRun(Init(dummy), actions) && ExclusiveRun(Init(dummy), actions)
    requires ValidRun(RunTo(Init(dummy), actions), more) && AllInternal(more)
    ensures var s := RunTo(Init(dummy), actions); |more| <= Measure(s, |s.clients|)
    ensures var s' := RunTo(RunTo(Init(dummy), actions), more); AtRest(s') ==> s'.clients == map[] && Idle(s')
  {
    hide *;
    InternalWorkIsBounded(dummy, actions, more);
    RunConcat(Init(dummy), actions, more);
    ExclusiveContinues(Init(dummy), actions, more);
    NoLostWakeup(dummy, actions + more);
    if AtRest(RunTo(Init(dummy), actions + more)) { RestIsIdleOrLost(dummy, actions + more); }
  }
}
