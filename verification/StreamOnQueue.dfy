/**
 The pipeline on the real queue: the stream model and the lock-free task queue composed into one machine. The stream's
 callbacks run `enqueue` and `sync` step by step, a callback holds up the stream until its call returns, and the worker
 computes a task's experts when it calls the node's function. Every run of this machine is one of the stream model, so
 the overlap is harmless here as well, whatever the queue's threads do.
 */
module StreamOnQueue {
  import opened Options
  import opened DualBatchRunner
  import S = StreamOverlap
  import Theorems = StreamOverlapTheorems
  import Q = TaskQueue
  import Safety = TaskQueueSafety
  import Wakeup = TaskQueueWakeup
  import F = TaskQueueFifo

  /** The one client of the queue: the thread on which the stream runs its callbacks. */
  const CALLBACK: Q.ClientId := 1

  datatype Machine<V, K> = Machine(
    slot: nat, issued: nat, stream: seq<S.Op>, done: seq<S.Op>, mem: S.Memory<V, K>, queue: Q.State)

  datatype Action = Issue | NextSlot | Execute | Queue(step: Q.Action)

  function Start<V, K>(mem: S.Memory<V, K>, dummy: Q.Addr): Machine<V, K> {
    Machine(0, 0, [], [], mem, Q.Init(dummy))
  }

  /** Operations that are calls into the queue. */
  predicate Calls(op: S.Op) {
    op.Submit? || op.Sync?
  }

  /** The callback makes the call at the front of the stream; nobody destroys the queue meanwhile. */
  predicate MayTake<V, K>(m: Machine<V, K>, a: Q.Action) {
    match a
    case Count(c, task) => c == CALLBACK && m.stream != [] && m.stream[0].Submit? && task == Some(m.stream[0].layer)
    case SyncCall(c, allow) => c == CALLBACK && m.stream != [] && m.stream[0].Sync? && allow == 0
    case DMark => false
    case _ => true
  }

  predicate Enabled<V, K>(u: S.Setup<V, K>, m: Machine<V, K>, a: Action) {
    match a
    case Issue => m.slot < |u.program| && m.issued < |u.program[m.slot]|
    case NextSlot => m.slot < |u.program| && m.issued == |u.program[m.slot]| && m.stream == []
    case Execute => m.stream != [] && S.OpOk(m.stream[0]) && !Calls(m.stream[0])
    case Queue(step) => Q.Enabled(m.queue, step) && MayTake(m, step)
  }

  /** With this step the callback's call returns. */
  predicate Returns(q: Q.State, a: Q.Action)
    requires Q.Enabled(q, a)
  {
    a.NotifyOne? || (a.SyncTest? && Q.SyncReady(q, q.clients[a.c].allow))
  }

  /** Calling a node's task computes the experts of its layer. */
  function AfterTask<V, K>(u: S.Setup<V, K>, mem: S.Memory<V, K>, q: Q.State, a: Q.Action): (r: S.Memory<V, K>)
    requires S.Two(u, mem) && Q.Enabled(q, a)
    ensures S.Two(u, r)
  {
    if a.WRun? && q.worker.next in q.heap && q.heap[q.worker.next].task.Some?
    then S.Compute(u, mem, q.heap[q.worker.next].task.value)
    else mem
  }

  function Apply<V, K>(u: S.Setup<V, K>, m: Machine<V, K>, a: Action): (r: Machine<V, K>)
    requires S.Two(u, m.mem) && Enabled(u, m, a)
    ensures S.Two(u, r.mem)
  {
    match a
    case Issue => m.(issued := m.issued + 1, stream := m.stream + [u.program[m.slot][m.issued]])
    case NextSlot => m.(slot := m.slot + 1, issued := 0)
    case Execute => m.(stream := m.stream[1..], done := m.done + [m.stream[0]], mem := S.Effect(u, m.mem, m.stream[0]))
    case Queue(step) =>
      var m' := m.(queue := Q.Apply(m.queue, step), mem := AfterTask(u, m.mem, m.queue, step));
      if Returns(m.queue, step) && m.stream != []
      then m'.(stream := m.stream[1..], done := m.done + [m.stream[0]])
      else m'
  }

  ghost predicate ValidRun<V, K>(u: S.Setup<V, K>, m: Machine<V, K>, actions: seq<Action>)
    requires S.Two(u, m.mem)
    decreases |actions|
  {
    actions == [] || (Enabled(u, m, actions[0]) && ValidRun(u, Apply(u, m, actions[0]), actions[1..]))
  }

  ghost function RunTo<V, K>(u: S.Setup<V, K>, m: Machine<V, K>, actions: seq<Action>): (r: Machine<V, K>)
    requires S.Two(u, m.mem) && ValidRun(u, m, actions)
    ensures S.Two(u, r.mem)
    decreases |actions|
  {
    if actions == [] then m else RunTo(u, Apply(u, m, actions[0]), actions[1..])
  }

  // ---------- what holds of every state ----------

  /** Where the callback stands in its call fits the operation at the front of the stream. */
  predicate CallFits(c: Q.Client, stream: seq<S.Op>) {
    && stream != []
    && match c
       case Counted(task) => stream[0].Submit? && task == Some(stream[0].layer)
       case Allocated(task, _) => stream[0].Submit? && task == Some(stream[0].layer)
       case Exchanged(_, _) => stream[0].Submit?
       case Linked => stream[0].Submit?
       case Notifying => stream[0].Submit?
       case SyncEntered(allow) => stream[0].Sync? && allow == 0
       case SyncHolding(allow) => stream[0].Sync? && allow == 0
       case SyncDozing(allow) => stream[0].Sync? && allow == 0
       case SyncWaiting(allow) => stream[0].Sync? && allow == 0
  }

  ghost predicate CallOk(q: Q.State, stream: seq<S.Op>) {
    && q.destructor.NotStarted?
    && forall c | c in q.clients :: c == CALLBACK && CallFits(q.clients[c], stream)
  }

  ghost predicate AllTasks(f: F.Fifo<Option<Q.Task>>) {
    forall i | 0 <= i < |f.queue| :: f.queue[i].Some?
  }

  /** Between calls, `pending` is zero unless a submitted task has not been waited for. */
  ghost predicate Settled(q: Q.State, done: seq<S.Op>) {
    q.clients == map[] && S.OpenTask(done).None? ==> q.pending == 0
  }

  ghost predicate QueueOk(q: Q.State) {
    && Safety.Inv(q) && Wakeup.WakeOk(q)
    && Safety.RunCount(q) < |q.hist.order| && AllTasks(F.Shown(q))
  }

  ghost predicate Good<V, K>(u: S.Setup<V, K>, m: Machine<V, K>) {
    S.Two(u, m.mem) && QueueOk(m.queue) && CallOk(m.queue, m.stream) && Settled(m.queue, m.done)
  }

  // ---------- the stream model's view ----------

  /** The submission at the front of the stream has been published, though its call has not returned. */
  predicate Published(q: Q.State) {
    CALLBACK in q.clients &&
    (q.clients[CALLBACK].Exchanged? || q.clients[CALLBACK].Linked? || q.clients[CALLBACK].Notifying?)
  }

  function Layers(tasks: seq<Option<Q.Task>>): (r: seq<nat>)
    ensures |r| == |tasks|
  {
    seq(|tasks|, i requires 0 <= i < |tasks| => if tasks[i].Some? then tasks[i].value else 0)
  }

  /** The operations still to come and those done, in the stream model's terms. */
  function ToCome(q: Q.State, stream: seq<S.Op>): seq<S.Op> {
    if Published(q) && stream != [] then stream[1..] else stream
  }

  function Past(q: Q.State, stream: seq<S.Op>, done: seq<S.Op>): seq<S.Op> {
    if Published(q) && stream != [] then done + [stream[0]] else done
  }

  /** A task is waiting until the worker calls it, and is then done at once. */
  ghost function Abstract<V, K>(m: Machine<V, K>): S.State<V, K>
    requires Safety.RunCount(m.queue) < |m.queue.hist.order|
  {
    S.State(m.slot, m.issued, ToCome(m.queue, m.stream), Past(m.queue, m.stream, m.done), m.mem,
            Layers(F.Shown(m.queue).queue), None, false)
  }

  /** The stream model's steps for one step of the machine. */
  function Simulates(q: Q.State, a: Action): seq<S.Action>
    requires a.Queue? ==> Q.Enabled(q, a.step)
  {
    match a
    case Issue => [S.Issue]
    case NextSlot => [S.NextSlot]
    case Execute => [S.Execute]
    case Queue(step) =>
      if step.Exchange? || (step.SyncTest? && Returns(q, step)) then [S.Execute]
      else if step.WRun? then [S.Take, S.Finish]
      else []
  }

  // ---------- the queue's side of a step ----------

  lemma OnlyCallback(q: Q.State, stream: seq<S.Op>, a: Q.Action)
    requires CallOk(q, stream) && Q.Enabled(q, a) && Safety.ClientAction(a) && !a.Count? && !a.SyncCall?
    ensures a.c == CALLBACK && CALLBACK in q.clients && CallFits(q.clients[CALLBACK], stream)
  {
  }

  lemma CallUnderClients<V, K>(m: Machine<V, K>, a: Q.Action)
    requires CallOk(m.queue, m.stream) && Q.Enabled(m.queue, a) && MayTake(m, a) && Safety.ClientAction(a)
    requires !m.queue.fault && !Q.Apply(m.queue, a).fault
    ensures CallOk(Q.Apply(m.queue, a), m.stream)
    ensures Returns(m.queue, a) ==> Q.Apply(m.queue, a).clients == map[] && m.stream != []
  {
    if !a.Count? && !a.SyncCall? { OnlyCallback(m.queue, m.stream, a); }
  }

  lemma CallUnderOthers<V, K>(m: Machine<V, K>, a: Q.Action)
    requires CallOk(m.queue, m.stream) && Q.Enabled(m.queue, a) && MayTake(m, a) && !Safety.ClientAction(a)
    ensures CallOk(Q.Apply(m.queue, a), m.stream) && !Returns(m.queue, a)
  {
    hide Q.TasksOf;
  }

  lemma NothingWasted(q: Q.State, stream: seq<S.Op>, a: Q.Action)
    requires CallOk(q, stream) && Q.Enabled(q, a)
    ensures !Wakeup.Wastes(q, a)
  {
  }

  lemma QueueStays(q: Q.State, stream: seq<S.Op>, a: Q.Action)
    requires QueueOk(q) && CallOk(q, stream) && Q.Enabled(q, a)
    ensures var q' := Q.Apply(q, a);
            Safety.Inv(q') && Wakeup.WakeOk(q') && Safety.RunCount(q') < |q'.hist.order| && !q.fault && !q'.fault
    ensures F.CanRun(F.Shown(q), F.StepOf(q, a)) && F.Final(F.Shown(q), F.StepOf(q, a)) == F.Shown(Q.Apply(q, a))
  {
    hide Safety.Inv, Wakeup.WakeOk, Q.Apply, Q.Enabled, F.Shown, F.StepOf, Safety.RunCount, CallOk, Wakeup.Wastes;
    Safety.StepKeeps(q, a);
    NothingWasted(q, stream, a);
    Wakeup.WakeupLostIffWasted(q, a);
    F.InvShows(Q.Apply(q, a));
    F.StepIsFifo(q, a);
    NoFault(q);
    NoFault(Q.Apply(q, a));
  }

  lemma NoFault(q: Q.State)
    requires Safety.Inv(q)
    ensures !q.fault
  {
    hide Safety.ListOk, Safety.EndsOk, Safety.CountsOk, Safety.RanOk, Safety.LockOk, Safety.SyncOk;
  }

  /** What one step does to the tasks waiting. */
  lemma WaitingAfter(q: Q.State, a: Q.Action)
    requires Q.Enabled(q, a)
    requires Safety.RunCount(q) < |q.hist.order| && Safety.RunCount(Q.Apply(q, a)) < |Q.Apply(q, a).hist.order|
    requires F.CanRun(F.Shown(q), F.StepOf(q, a)) && F.Final(F.Shown(q), F.StepOf(q, a)) == F.Shown(Q.Apply(q, a))
    ensures var waiting := F.Shown(q).queue;
            && (a.WRun? ==> waiting != [])
            && F.Shown(Q.Apply(q, a)).queue ==
               if a.Exchange? then waiting + [q.clients[a.c].task] else if a.WRun? then waiting[1..] else waiting
  {
    hide Q.Apply, F.Shown, Safety.RunCount;
    assert |F.StepOf(q, a)| <= 1;
  }

  lemma TasksStayTasks(before: seq<Option<Q.Task>>, after: seq<Option<Q.Task>>, task: Option<Q.Task>)
    requires forall i | 0 <= i < |before| :: before[i].Some?
    requires after == before || (before != [] && after == before[1..]) || (task.Some? && after == before + [task])
    ensures forall i | 0 <= i < |after| :: after[i].Some?
  {
  }

  lemma PublishesTask(q: Q.State, stream: seq<S.Op>, a: Q.Action)
    requires CallOk(q, stream) && Q.Enabled(q, a) && a.Exchange?
    ensures a.c == CALLBACK && a.c in q.clients && q.clients[a.c].Allocated?
    ensures stream != [] && stream[0].Submit? && q.clients[a.c].task == Some(stream[0].layer)
  {
    OnlyCallback(q, stream, a);
  }

  lemma TasksKept(q: Q.State, stream: seq<S.Op>, a: Q.Action)
    requires QueueOk(q) && CallOk(q, stream) && Q.Enabled(q, a)
    ensures QueueOk(Q.Apply(q, a)) && !q.fault && !Q.Apply(q, a).fault
  {
    hide CallOk, Q.Enabled, Safety.Inv, Wakeup.WakeOk, Q.Apply, F.Shown, F.StepOf, Safety.RunCount;
    QueueStays(q, stream, a);
    WaitingAfter(q, a);
    if a.Exchange? {
      PublishesTask(q, stream, a);
      TasksStayTasks(F.Shown(q).queue, F.Shown(Q.Apply(q, a)).queue, q.clients[a.c].task);
    } else {
      TasksStayTasks(F.Shown(q).queue, F.Shown(Q.Apply(q, a)).queue, None);
    }
  }

  lemma CallStays<V, K>(m: Machine<V, K>, a: Q.Action)
    requires CallOk(m.queue, m.stream) && Q.Enabled(m.queue, a) && MayTake(m, a)
    requires !m.queue.fault && !Q.Apply(m.queue, a).fault
    ensures CallOk(Q.Apply(m.queue, a), m.stream)
    ensures Returns(m.queue, a) ==> Q.Apply(m.queue, a).clients == map[] && m.stream != []
  {
    hide CallOk, Q.Apply, Q.Enabled, MayTake, Returns;
    if Safety.ClientAction(a) { CallUnderClients(m, a); } else { CallUnderOthers(m, a); }
  }

  // ---------- `pending` between calls ----------

  lemma PendingUnderClients(q: Q.State, a: Q.Action)
    requires Q.Enabled(q, a) && !a.Count? && Safety.ClientAction(a)
    ensures Q.Apply(q, a).pending == q.pending
    ensures Q.Apply(q, a).clients == map[] && q.clients != map[] ==> a.NotifyOne? || a.SyncTest?
  {
  }

  lemma PendingUnderOthers(q: Q.State, a: Q.Action)
    requires Q.Enabled(q, a) && !Safety.ClientAction(a)
    ensures Q.Apply(q, a).pending == q.pending - if a.WFinish? then 1 else 0
    ensures Q.Apply(q, a).clients.Keys == q.clients.Keys
  {
    hide Q.TasksOf;
  }

  lemma PendingStep(q: Q.State, a: Q.Action)
    requires Q.Enabled(q, a) && !a.Count?
    ensures Q.Apply(q, a).pending == q.pending - if a.WFinish? then 1 else 0
    ensures Q.Apply(q, a).clients == map[] && q.clients != map[] ==> a.NotifyOne? || a.SyncTest?
  {
    hide Q.Apply, Q.Enabled;
    if Safety.ClientAction(a) {
      PendingUnderClients(q, a);
    } else {
      PendingUnderOthers(q, a);
      if Q.Apply(q, a).clients == map[] { NoKeys(q.clients, Q.Apply(q, a).clients); }
    }
  }

  lemma NoKeys<A, B>(a: map<A, B>, b: map<A, B>)
    requires a.Keys == b.Keys && b == map[]
    ensures a == map[]
  {
    assert forall k :: k in a <==> k in b;
  }

  lemma PendingNonneg(q: Q.State)
    requires Safety.Inv(q)
    ensures q.pending >= 0
  {
    hide Safety.ListOk, Safety.EndsOk, Safety.RanOk, Safety.LockOk, Safety.SyncOk;
  }

  lemma OpenTaskSnoc(done: seq<S.Op>, op: S.Op)
    ensures S.OpenTask(done + [op]) ==
            if op.Submit? then Some(op.layer) else if op.Sync? then None else S.OpenTask(done)
  {
    assert (done + [op])[..|done|] == done;
  }

  lemma NotDone(q: Q.State)
    requires Safety.Inv(q) && q.destructor.NotStarted?
    ensures !q.done
  {
    hide Safety.ListOk, Safety.EndsOk, Safety.CountsOk, Safety.RanOk, Safety.LockOk;
  }

  lemma SettledKept<V, K>(u: S.Setup<V, K>, m: Machine<V, K>, a: Q.Action)
    requires Good(u, m) && Enabled(u, m, Queue(a)) && Safety.Inv(Q.Apply(m.queue, a))
    requires Returns(m.queue, a) ==> m.stream != []
    ensures Settled(Q.Apply(m.queue, a), Apply(u, m, Queue(a)).done)
  {
    var q, q' := m.queue, Q.Apply(m.queue, a);
    PendingNonneg(q);
    PendingNonneg(q');
    NotDone(q);
    if a.Count? {
      assert CALLBACK in q'.clients;
    } else {
      PendingStep(q, a);
      if Returns(q, a) {
        OpenTaskSnoc(m.done, m.stream[0]);
        OnlyCallback(q, m.stream, a);
      }
    }
    hide Q.Apply, QueueOk, CallOk, S.OpenTask;
  }

  lemma QueueStepGood<V, K>(u: S.Setup<V, K>, m: Machine<V, K>, a: Q.Action)
    requires Good(u, m) && Enabled(u, m, Queue(a))
    ensures Good(u, Apply(u, m, Queue(a)))
    ensures Returns(m.queue, a) ==> Q.Apply(m.queue, a).clients == map[] && m.stream != []
    ensures !m.queue.fault && !Q.Apply(m.queue, a).fault
  {
    TasksKept(m.queue, m.stream, a);
    CallStays(m, a);
    SettledKept(u, m, a);
    hide Q.Apply, Q.Enabled, QueueOk, Settled, Returns, AfterTask, MayTake;
  }

  lemma CallAtFront<V, K>(m: Machine<V, K>)
    requires CallOk(m.queue, m.stream)
    ensures m.queue.clients != map[] ==> m.stream != [] && Calls(m.stream[0])
    ensures Published(m.queue) ==> m.stream != [] && m.stream[0].Submit?
  {
    if m.queue.clients != map[] {
      var c :| c in m.queue.clients;
      assert CallFits(m.queue.clients[c], m.stream);
    }
  }

  lemma HostStepGood<V, K>(u: S.Setup<V, K>, m: Machine<V, K>, a: Action)
    requires Good(u, m) && Enabled(u, m, a) && !a.Queue?
    ensures Good(u, Apply(u, m, a))
  {
    CallAtFront(m);
    if a.Execute? { OpenTaskSnoc(m.done, m.stream[0]); }
    hide QueueOk, S.OpenTask, S.Effect;
    forall c | c in m.queue.clients ensures CallFits(m.queue.clients[c], Apply(u, m, a).stream) {
      assert CallFits(m.queue.clients[c], m.stream);
    }
  }

  // ---------- every step of the machine is one of the stream model's ----------

  lemma OneStep<V, K>(u: S.Setup<V, K>, s: S.State<V, K>, a: S.Action)
    requires S.Two(u, s.mem) && S.Enabled(u, s, a)
    ensures S.ValidRun(u, s, [a]) && S.RunTo(u, s, [a]) == S.Apply(u, s, a)
  {
    assert [a][1..] == [];
  }

  lemma NoRace<V, K>(u: S.Setup<V, K>, mem0: S.Memory<V, K>, s: S.State<V, K>, a: S.Action)
    requires S.Two(u, mem0) && S.Inv(u, mem0, s) && S.Enabled(u, s, a)
    ensures !S.Apply(u, s, a).race
  {
    S.StepKeeps(u, mem0, s, a);
    hide S.Agrees, S.TaskOk, S.Disciplined, S.SerialRun;
  }

  lemma HostStepSimulates<V, K>(u: S.Setup<V, K>, mem0: S.Memory<V, K>, m: Machine<V, K>, a: Action)
    requires S.Two(u, mem0) && Good(u, m) && Enabled(u, m, a) && !a.Queue? && S.Inv(u, mem0, Abstract(m))
    ensures var sim := Simulates(m.queue, a);
            && S.ValidRun(u, Abstract(m), sim)
            && S.RunTo(u, Abstract(m), sim) == Abstract(Apply(u, m, a))
  {
    hide Safety.Inv, Wakeup.WakeOk, Safety.RunCount, AllTasks, S.Inv, S.RunTo, S.ValidRun, F.Shown, S.Effect, S.Busy;
    CallAtFront(m);
    var step := if a.Issue? then S.Issue else if a.NextSlot? then S.NextSlot else S.Execute;
    assert Simulates(m.queue, a) == [step];
    NoRace(u, mem0, Abstract(m), step);
    OneStep(u, Abstract(m), step);
  }

  lemma PublishedUnderClients(q: Q.State, a: Q.Action)
    requires Q.Enabled(q, a) && Safety.ClientAction(a) && !a.Exchange? && !a.NotifyOne?
    requires !q.fault && !Q.Apply(q, a).fault
    ensures Published(Q.Apply(q, a)) == Published(q)
  {
  }

  lemma PublishedUnderOthers(q: Q.State, a: Q.Action)
    requires Q.Enabled(q, a) && !Safety.ClientAction(a)
    ensures Published(Q.Apply(q, a)) == Published(q)
  {
    hide Q.TasksOf;
  }

  lemma PublishedKept(q: Q.State, a: Q.Action)
    requires Q.Enabled(q, a) && !a.Exchange? && !a.NotifyOne? && !q.fault && !Q.Apply(q, a).fault
    ensures Published(Q.Apply(q, a)) == Published(q)
  {
    hide Q.Apply, Q.Enabled, Published;
    if Safety.ClientAction(a) { PublishedUnderClients(q, a); } else { PublishedUnderOthers(q, a); }
  }

  lemma ExchangePublishes(q: Q.State, stream: seq<S.Op>, a: Q.Action)
    requires CallOk(q, stream) && Q.Enabled(q, a) && a.Exchange?
    ensures !Published(q) && Published(Q.Apply(q, a))
  {
    OnlyCallback(q, stream, a);
  }

  lemma NotifierPublished(q: Q.State, stream: seq<S.Op>, a: Q.Action)
    requires CallOk(q, stream) && Q.Enabled(q, a) && a.NotifyOne?
    ensures Published(q) && !Published(Q.Apply(q, a)) && stream != []
  {
    OnlyCallback(q, stream, a);
  }

  lemma SyncerUnpublished(q: Q.State, stream: seq<S.Op>, a: Q.Action)
    requires CallOk(q, stream) && Q.Enabled(q, a) && a.SyncTest?
    ensures !Published(q) && stream != [] && stream[0].Sync? && q.clients[a.c].allow == 0
  {
    OnlyCallback(q, stream, a);
  }

  /** Steps the stream model does not see. */
  lemma SilentStep<V, K>(u: S.Setup<V, K>, m: Machine<V, K>, a: Q.Action)
    requires Good(u, m) && Enabled(u, m, Queue(a)) && Good(u, Apply(u, m, Queue(a)))
    requires !m.queue.fault && !Q.Apply(m.queue, a).fault
    requires Simulates(m.queue, Queue(a)) == []
    ensures Abstract(Apply(u, m, Queue(a))) == Abstract(m)
  {
    hide Safety.Inv, Wakeup.WakeOk, Safety.RunCount, AllTasks, CallOk, F.Shown, F.StepOf, Q.Apply, Q.Enabled, Published;
    QueueStays(m.queue, m.stream, a);
    WaitingAfter(m.queue, a);
    if a.NotifyOne? {
      NotifierPublished(m.queue, m.stream, a);
    } else {
      PublishedKept(m.queue, a);
    }
  }

  /** The exchange is where the stream model submits. */
  lemma ExchangeStep<V, K>(u: S.Setup<V, K>, m: Machine<V, K>, a: Q.Action)
    requires Good(u, m) && Enabled(u, m, Queue(a)) && Good(u, Apply(u, m, Queue(a))) && a.Exchange?
    ensures S.Enabled(u, Abstract(m), S.Execute)
    ensures S.Apply(u, Abstract(m), S.Execute) == Abstract(Apply(u, m, Queue(a)))
  {
    hide Safety.Inv, Wakeup.WakeOk, Safety.RunCount, AllTasks, CallOk, F.Shown, F.StepOf, Q.Apply, Q.Enabled, Published;
    QueueStays(m.queue, m.stream, a);
    WaitingAfter(m.queue, a);
    PublishesTask(m.queue, m.stream, a);
    ExchangePublishes(m.queue, m.stream, a);
    LayersSnoc(F.Shown(m.queue).queue, m.queue.clients[a.c].task);
  }

  lemma LayersSnoc(tasks: seq<Option<Q.Task>>, task: Option<Q.Task>)
    requires task.Some?
    ensures Layers(tasks + [task]) == Layers(tasks) + [task.value]
  {
  }

  lemma LayersTail(tasks: seq<Option<Q.Task>>)
    requires tasks != [] && tasks[0].Some?
    ensures Layers(tasks) == [tasks[0].value] + Layers(tasks[1..])
  {
  }

  lemma NothingWaiting(q: Q.State, stream: seq<S.Op>, a: Q.Action)
    requires QueueOk(q) && CallOk(q, stream) && Q.Enabled(q, a) && a.SyncTest? && Returns(q, a)
    ensures F.Shown(q).queue == []
  {
    hide Wakeup.WakeOk, F.Shown, F.Open, Safety.RunCount;
    SyncerUnpublished(q, stream, a);
    NotDone(q);
    F.OpenIsPending(q);
    OpenBoundsQueue(F.Shown(q));
  }

  lemma OpenBoundsQueue<T>(f: F.Fifo<T>)
    ensures F.Open(f) <= 0 ==> f.queue == []
  {
  }

  /** A `sync` that returns has seen what the stream model's synchronisation waits for. */
  lemma SyncStep<V, K>(u: S.Setup<V, K>, m: Machine<V, K>, a: Q.Action)
    requires Good(u, m) && Enabled(u, m, Queue(a)) && Good(u, Apply(u, m, Queue(a)))
    requires a.SyncTest? && Returns(m.queue, a) && !m.queue.fault && !Q.Apply(m.queue, a).fault
    ensures S.Enabled(u, Abstract(m), S.Execute)
    ensures S.Apply(u, Abstract(m), S.Execute) == Abstract(Apply(u, m, Queue(a)))
  {
    hide Safety.Inv, Wakeup.WakeOk, Safety.RunCount, AllTasks, CallOk, F.Shown, F.StepOf, Q.Apply, Q.Enabled, Published;
    QueueStays(m.queue, m.stream, a);
    WaitingAfter(m.queue, a);
    SyncerUnpublished(m.queue, m.stream, a);
    PublishedKept(m.queue, a);
    NothingWaiting(m.queue, m.stream, a);
  }

  /** The task called is the first one waiting. */
  lemma CallsFirst(q: Q.State)
    requires QueueOk(q) && Q.Enabled(q, Q.WRun)
    ensures q.worker.next in q.heap && F.Shown(q).queue != []
    ensures q.heap[q.worker.next].task == F.Shown(q).queue[0]
  {
    Safety.NextNode(q);
    hide Safety.ListOk, Safety.RanOk, Safety.LockOk, Safety.SyncOk, Wakeup.WakeOk, AllTasks;
  }

  /** Calling a task is taking it and finishing it. */
  lemma RunStep<V, K>(u: S.Setup<V, K>, m: Machine<V, K>)
    requires Good(u, m) && Enabled(u, m, Queue(Q.WRun)) && Good(u, Apply(u, m, Queue(Q.WRun)))
    requires !m.queue.fault && !Q.Apply(m.queue, Q.WRun).fault
    ensures S.Enabled(u, Abstract(m), S.Take) && S.Enabled(u, S.Apply(u, Abstract(m), S.Take), S.Finish)
    ensures S.Apply(u, S.Apply(u, Abstract(m), S.Take), S.Finish) == Abstract(Apply(u, m, Queue(Q.WRun)))
  {
    hide Safety.Inv, Wakeup.WakeOk, Safety.RunCount, CallOk, F.Shown, F.StepOf, Q.Apply, Q.Enabled, Published;
    hide S.Compute;
    QueueStays(m.queue, m.stream, Q.WRun);
    WaitingAfter(m.queue, Q.WRun);
    CallsFirst(m.queue);
    PublishedKept(m.queue, Q.WRun);
    LayersTail(F.Shown(m.queue).queue);
  }

  lemma TwoSteps<V, K>(u: S.Setup<V, K>, s: S.State<V, K>, a: S.Action, b: S.Action)
    requires S.Two(u, s.mem) && S.Enabled(u, s, a) && S.Enabled(u, S.Apply(u, s, a), b)
    ensures S.ValidRun(u, s, [a, b]) && S.RunTo(u, s, [a, b]) == S.Apply(u, S.Apply(u, s, a), b)
  {
    assert [a, b][1..] == [b];
    OneStep(u, S.Apply(u, s, a), b);
    hide S.Apply, S.Enabled;
  }

  lemma QueueStepSimulates<V, K>(u: S.Setup<V, K>, m: Machine<V, K>, a: Q.Action)
    requires Good(u, m) && Enabled(u, m, Queue(a)) && Good(u, Apply(u, m, Queue(a)))
    requires !m.queue.fault && !Q.Apply(m.queue, a).fault
    ensures var sim := Simulates(m.queue, Queue(a));
            && S.ValidRun(u, Abstract(m), sim)
            && S.RunTo(u, Abstract(m), sim) == Abstract(Apply(u, m, Queue(a)))
  {
    hide QueueOk, CallOk, Settled, Abstract, Apply, Q.Apply, Q.Enabled, Returns, S.Apply, S.Enabled;
    GoodShows(u, m);
    GoodShows(u, Apply(u, m, Queue(a)));
    if a.WRun? {
      RunStep(u, m);
      TwoSteps(u, Abstract(m), S.Take, S.Finish);
    } else if a.Exchange? {
      ExchangeStep(u, m, a);
      OneStep(u, Abstract(m), S.Execute);
    } else if a.SyncTest? && Returns(m.queue, a) {
      SyncStep(u, m, a);
      OneStep(u, Abstract(m), S.Execute);
    } else {
      SilentStep(u, m, a);
    }
  }

  lemma GoodShows<V, K>(u: S.Setup<V, K>, m: Machine<V, K>)
    requires Good(u, m)
    ensures Safety.RunCount(m.queue) < |m.queue.hist.order| && S.Two(u, Abstract(m).mem)
  {
    hide Safety.Inv, Wakeup.WakeOk, AllTasks, CallOk;
  }

  lemma StepSimulates<V, K>(u: S.Setup<V, K>, mem0: S.Memory<V, K>, m: Machine<V, K>, a: Action)
    requires S.Two(u, mem0) && Good(u, m) && Enabled(u, m, a) && S.Inv(u, mem0, Abstract(m))
    ensures Good(u, Apply(u, m, a))
    ensures var sim := Simulates(m.queue, a);
            && S.ValidRun(u, Abstract(m), sim)
            && S.RunTo(u, Abstract(m), sim) == Abstract(Apply(u, m, a))
  {
    hide QueueOk, CallOk, Settled, Abstract, Apply, Q.Apply, Q.Enabled, Simulates, S.Inv;
    GoodShows(u, m);
    if a.Queue? {
      assert a == Queue(a.step);
      QueueStepGood(u, m, a.step);
      QueueStepSimulates(u, m, a.step);
    } else {
      HostStepGood(u, m, a);
      HostStepSimulates(u, mem0, m, a);
    }
    GoodShows(u, Apply(u, m, a));
  }

  lemma {:induction false} RunConcat<V, K>(u: S.Setup<V, K>, s: S.State<V, K>, first: seq<S.Action>,
                                           second: seq<S.Action>)
    requires S.Two(u, s.mem) && S.ValidRun(u, s, first) && S.ValidRun(u, S.RunTo(u, s, first), second)
    ensures S.ValidRun(u, s, first + second)
    ensures S.RunTo(u, s, first + second) == S.RunTo(u, S.RunTo(u, s, first), second)
    decreases |first|
  {
    if first == [] {
      assert first + second == second;
    } else {
      assert (first + second)[1..] == first[1..] + second;
      hide S.Apply, S.Enabled;
      RunConcat(u, S.Apply(u, s, first[0]), first[1..], second);
    }
  }

  /** Every run of the machine, whatever the queue's threads do, is a run of the stream model. */
  lemma {:induction false} RunSimulates<V, K>(u: S.Setup<V, K>, mem0: S.Memory<V, K>, m: Machine<V, K>,
                                              actions: seq<Action>) returns (sim: seq<S.Action>)
    requires S.Two(u, mem0) && Good(u, m) && S.Inv(u, mem0, Abstract(m)) && ValidRun(u, m, actions)
    ensures Good(u, RunTo(u, m, actions))
    ensures S.ValidRun(u, Abstract(m), sim) && S.RunTo(u, Abstract(m), sim) == Abstract(RunTo(u, m, actions))
    decreases |actions|
  {
    hide QueueOk, CallOk, Settled, Abstract, Apply, Q.Enabled, Simulates, S.Inv;
    GoodShows(u, m);
    if actions == [] {
      sim := [];
    } else {
      var m' := Apply(u, m, actions[0]);
      StepSimulates(u, mem0, m, actions[0]);
      GoodShows(u, m');
      var first := Simulates(m.queue, actions[0]);
      S.RunKeepsInv(u, mem0, Abstract(m), first);
      var rest := RunSimulates(u, mem0, m', actions[1..]);
      GoodShows(u, RunTo(u, m', actions[1..]));
      RunConcat(u, Abstract(m), first, rest);
      sim := first + rest;
    }
  }

  lemma StartIsGood<V, K>(u: S.Setup<V, K>, mem: S.Memory<V, K>, dummy: Q.Addr)
    requires S.Two(u, mem)
    ensures Good(u, Start(mem, dummy)) && Abstract(Start(mem, dummy)) == S.Initial(mem)
  {
    Safety.InitInv(dummy);
    F.InvShows(Q.Init(dummy));
    assert F.Shown(Q.Init(dummy)) == F.Fifo([], None);
    hide Safety.Inv;
  }

  /** Every state the pipeline reaches on the queue is one the stream model reaches. */
  lemma ReachesTheSame<V, K>(u: S.Setup<V, K>, mem: S.Memory<V, K>, dummy: Q.Addr, actions: seq<Action>)
    returns (sim: seq<S.Action>)
    requires S.Two(u, mem) && S.Disciplined(S.Flat(u.program)) && ValidRun(u, Start(mem, dummy), actions)
    ensures Good(u, RunTo(u, Start(mem, dummy), actions))
    ensures S.ValidRun(u, S.Initial(mem), sim)
    ensures S.RunTo(u, S.Initial(mem), sim) == Abstract(RunTo(u, Start(mem, dummy), actions))
    ensures S.Inv(u, mem, Abstract(RunTo(u, Start(mem, dummy), actions)))
  {
    StartIsGood(u, mem, dummy);
    S.InitialInv(u, mem);
    hide QueueOk, CallOk, Settled, Abstract, S.Inv, Start, S.Initial, RunTo, ValidRun;
    GoodShows(u, Start(mem, dummy));
    sim := RunSimulates(u, mem, Start(mem, dummy), actions);
    GoodShows(u, RunTo(u, Start(mem, dummy), actions));
    S.RunKeepsInv(u, mem, S.Initial(mem), sim);
  }

  /**
   On the real queue, however host, stream, callback and worker interleave, the pipeline ends with each microbatch as
   running it alone, layer by layer, leaves it.
   */
  lemma OverlapOnQueueIsHarmless<V, K>(u: S.Setup<V, K>, mem: S.Memory<V, K>, dummy: Q.Addr, actions: seq<Action>)
    requires S.Two(u, mem) && u.m.layers > 0 && u.program == Theorems.Pipeline(u.m.layers)
    requires ValidRun(u, Start(mem, dummy), actions)
    ensures var m := RunTo(u, Start(mem, dummy), actions);
            m.slot >= |u.program| ==>
              forall mb | 0 <= mb < 2 ::
                m.mem.micro[mb] == DualBatchRunner.Layers(u.m, u.positions[mb], mem.micro[mb], u.m.layers)
  {
    hide QueueOk, CallOk, Settled, S.Inv, RunTo, ValidRun, S.RunTo, S.ValidRun, Q.Init, F.Shown, ToCome, Past;
    Theorems.PipelineIsDisciplined(u, mem);
    var sim := ReachesTheSame(u, mem, dummy, actions);
    var m := RunTo(u, Start(mem, dummy), actions);
    GoodShows(u, m);
    if m.slot >= |u.program| {
      Theorems.OverlapIsHarmless(u, mem, sim);
    }
  }

  /** A copy to or from the staging buffers finds the queue empty: no call in progress and `pending` at zero. */
  lemma CopiesFindQueueEmpty<V, K>(u: S.Setup<V, K>, mem: S.Memory<V, K>, dummy: Q.Addr, actions: seq<Action>)
    requires S.Two(u, mem) && S.Disciplined(S.Flat(u.program)) && ValidRun(u, Start(mem, dummy), actions)
    ensures var m := RunTo(u, Start(mem, dummy), actions);
            m.stream != [] && (m.stream[0].CopyIn? || m.stream[0].CopyOut?) ==>
              m.queue.clients == map[] && m.queue.pending == 0
  {
    hide QueueOk, RunTo, ValidRun, S.RunTo, S.ValidRun, Q.Init, F.Shown, S.Agrees, S.TaskOk, S.Disciplined, S.SerialRun;
    var sim := ReachesTheSame(u, mem, dummy, actions);
    var m := RunTo(u, Start(mem, dummy), actions);
    GoodShows(u, m);
    CallAtFront(m);
    if m.stream != [] && (m.stream[0].CopyIn? || m.stream[0].CopyOut?) {
      S.NextOpWaits(u, Abstract(m));
    }
  }

  /** Starting a call, or going on by itself; a thread's spurious wake-up does not count. */
  predicate Own(a: Action) {
    a.Queue? ==> Wakeup.Internal(a.step) || a.step.Count? || a.step.SyncCall?
  }

  lemma InCallCanMove(q: Q.State) returns (a: Q.Action)
    requires Safety.Inv(q) && Wakeup.WakeOk(q) && q.destructor.NotStarted? && q.clients != map[]
    ensures Wakeup.Internal(a) && Q.Enabled(q, a)
  {
    hide Safety.Inv, Q.Enabled, Wakeup.Internal;
    a := Wakeup.NeverStuck(q);
  }

  /** A pipeline on the queue that has not finished can always go on: its `sync` calls return. */
  lemma PipelineOnQueueNeverSticks<V, K>(u: S.Setup<V, K>, mem: S.Memory<V, K>, dummy: Q.Addr, actions: seq<Action>)
    returns (a: Action)
    requires S.Two(u, mem) && S.Disciplined(S.Flat(u.program)) && ValidRun(u, Start(mem, dummy), actions)
    requires RunTo(u, Start(mem, dummy), actions).slot < |u.program|
    ensures Own(a) && Enabled(u, RunTo(u, Start(mem, dummy), actions), a)
  {
    hide RunTo, ValidRun, S.RunTo, S.ValidRun, Q.Init, F.Shown, Safety.Inv, Wakeup.WakeOk, AllTasks, Settled;
    hide S.Agrees, S.TaskOk, S.Disciplined, S.SerialRun, S.Flat, S.OpenTask;
    var sim := ReachesTheSame(u, mem, dummy, actions);
    var m := RunTo(u, Start(mem, dummy), actions);
    GoodShows(u, m);
    CallAtFront(m);
    if m.queue.clients != map[] {
      var step := InCallCanMove(m.queue);
      a := Queue(step);
    } else if m.stream == [] {
      a := if m.issued < |u.program[m.slot]| then Issue else NextSlot;
    } else if m.stream[0].Submit? {
      a := Queue(Q.Count(CALLBACK, Some(m.stream[0].layer)));
    } else if m.stream[0].Sync? {
      a := Queue(Q.SyncCall(CALLBACK, 0));
    } else {
      var s := Abstract(m);
      S.NextOpWaits(u, s);
      assert S.OpOk((s.done + [s.stream[0]])[|s.done|]);
      a := Execute;
    }
  }
}
