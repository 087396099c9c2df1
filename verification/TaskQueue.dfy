/**
 The lock-free task queue as a state machine: any number of client threads enqueue and sync, one worker runs tasks,
 one destructor shuts the queue down. Every atomic operation is one action; a critical section that holds the mutex
 across a test and a wait is several. Addresses may be reused once freed.
 */
module TaskQueue {
  import opened Options

  type Addr = nat
  type ClientId = nat
  type Task = nat

  /** A queue node; a node made from an empty function, like the dummy, holds no task. */
  datatype Node = Node(task: Option<Task>, next: Option<Addr>)

  /** Where a client stands inside a call; a client with no call in progress is absent. */
  datatype Client =
    | Counted(task: Option<Task>)                      // `pending` raised
    | Allocated(task: Option<Task>, node: Addr)        // node made, still private
    | Exchanged(node: Addr, prev: Addr)                // swapped into `tail`, not yet linked
    | Linked                                           // linked, about to pass through the mutex
    | Notifying                                        // about to notify one waiter
    | SyncEntered(allow: nat)                          // about to take the mutex
    | SyncHolding(allow: nat)                          // holds the mutex, about to test
    | SyncDozing(allow: nat)                           // test failed, mutex still held
    | SyncWaiting(allow: nat)                          // asleep on the condition variable

  datatype Worker =
    | Testing | Loading
    | Running(next: Addr) | Deleting(next: Addr) | Storing(next: Addr) | Finishing | Broadcasting
    | Locking | Holding | Dozing | Waiting | Exited

  datatype Destructor = NotStarted | Marked | Joining | Freeing(node: Option<Addr>) | Destroyed

  datatype Holder = WorkerHolds | ClientHolds(c: ClientId)
  datatype Waiter = WorkerWaiter | ClientWaiter(c: ClientId)

  datatype Entry = Entry(addr: Addr, task: Option<Task>)

  /**
   What happened so far, for stating properties; no guard and no field outside it depends on it.
   `order` lists nodes as `tail.exchange` published them, the dummy first; `taken` is the index of the worker's
   current node. `pos`, `owner` and `linker` index live nodes: the place in `order` of a published one, the client of
   a private one, and for each missing link the client that will store it.
   */
  datatype History = History(
    order: seq<Entry>, taken: nat, ran: seq<Task>,
    counted: nat, finished: nat, uncommitted: set<ClientId>,
    allocs: nat, frees: nat,
    pos: map<Addr, nat>, owner: map<Addr, ClientId>, linker: map<nat, ClientId>)

  datatype State = State(
    heap: map<Addr, Node>, head: Addr, tail: Addr, curr: Addr,
    done: bool, pending: int, holder: Option<Holder>,
    worker: Worker, clients: map<ClientId, Client>, destructor: Destructor,
    fault: bool,               // a freed node was touched, or freed again
    hist: History)

  datatype Action =
    | Count(c: ClientId, task: Option<Task>) | Alloc(c: ClientId, a: Addr) | Exchange(c: ClientId) | Link(c: ClientId)
    | PassLock(c: ClientId) | NotifyOne(c: ClientId, woken: Option<Waiter>)
    | SyncCall(c: ClientId, allow: nat) | SyncLock(c: ClientId) | SyncTest(c: ClientId) | SyncSleep(c: ClientId)
    | SyncSpurious(c: ClientId)
    | WTest | WLoad | WRun | WDelete | WStore | WFinish | WBroadcast | WLock | WEval | WSleep | WSpurious
    | DMark | DBroadcast | DJoin | DFree

  function Init(dummy: Addr): State {
    State(map[dummy := Node(None, None)], dummy, dummy, dummy, false, 0, None, Testing, map[], NotStarted, false,
          History([Entry(dummy, None)], 0, [], 0, 0, {}, 1, 0, map[dummy := 0], map[], map[]))
  }

  predicate At(s: State, c: ClientId) {
    c in s.clients
  }

  predicate Alive(s: State) {
    s.destructor.NotStarted? || s.destructor.Marked? || s.destructor.Joining?
  }

  predicate IsWaiter(s: State, w: Waiter) {
    match w
    case WorkerWaiter => s.worker.Waiting?
    case ClientWaiter(c) => At(s, c) && s.clients[c].SyncWaiting?
  }

  predicate NoWaiter(s: State) {
    !s.worker.Waiting? && forall c | c in s.clients :: !s.clients[c].SyncWaiting?
  }

  predicate Enabled(s: State, a: Action) {
    match a
    case Count(c, _) => !At(s, c) && Alive(s)
    case Alloc(c, a) => At(s, c) && s.clients[c].Counted? && a !in s.heap
    case Exchange(c) => At(s, c) && s.clients[c].Allocated?
    case Link(c) => At(s, c) && s.clients[c].Exchanged?
    case PassLock(c) => At(s, c) && s.clients[c].Linked? && s.holder.None?
    case NotifyOne(c, woken) => At(s, c) && s.clients[c].Notifying? &&
      (if woken.Some? then IsWaiter(s, woken.value) else NoWaiter(s))
    case SyncCall(c, _) => !At(s, c) && Alive(s)
    case SyncLock(c) => At(s, c) && s.clients[c].SyncEntered? && s.holder.None?
    case SyncTest(c) => At(s, c) && s.clients[c].SyncHolding?
    case SyncSleep(c) => At(s, c) && s.clients[c].SyncDozing?
    case SyncSpurious(c) => At(s, c) && s.clients[c].SyncWaiting?
    case WTest => s.worker.Testing?
    case WLoad => s.worker.Loading?
    case WRun => s.worker.Running?
    case WDelete => s.worker.Deleting?
    case WStore => s.worker.Storing?
    case WFinish => s.worker.Finishing? && s.holder.None?
    case WBroadcast => s.worker.Broadcasting?
    case WLock => s.worker.Locking? && s.holder.None?
    case WEval => s.worker.Holding?
    case WSleep => s.worker.Dozing?
    case WSpurious => s.worker.Waiting?
    case DMark => s.destructor.NotStarted? && s.holder.None?
    case DBroadcast => s.destructor.Marked?
    // the caller of the destructor must have no other call in progress once nodes are being freed
    case DJoin => s.destructor.Joining? && s.worker.Exited? && s.clients == map[]
    case DFree => s.destructor.Freeing?
  }

  function Woken(c: Client): Client {
    if c.SyncWaiting? then SyncEntered(c.allow) else c
  }

  function WakeAll(s: State): State {
    s.(worker := if s.worker.Waiting? then Locking else s.worker,
       clients := map c | c in s.clients :: Woken(s.clients[c]))
  }

  function Wake(s: State, w: Waiter): State
    requires IsWaiter(s, w)
  {
    match w
    case WorkerWaiter => s.(worker := Locking)
    case ClientWaiter(c) => s.(clients := s.clients[c := SyncEntered(s.clients[c].allow)])
  }

  function Next(s: State, a: Addr): Option<Addr> {
    if a in s.heap then s.heap[a].next else None
  }

  function TasksOf(entries: seq<Entry>): seq<Task> {
    if entries == [] then []
    else (if entries[0].task.Some? then [entries[0].task.value] else []) + TasksOf(entries[1..])
  }

  // ---------- enqueue ----------

  function DoCount(s: State, c: ClientId, task: Option<Task>): State {
    s.(pending := s.pending + 1, clients := s.clients[c := Counted(task)],
       hist := s.hist.(counted := s.hist.counted + 1, uncommitted := s.hist.uncommitted + {c}))
  }

  function DoAlloc(s: State, c: ClientId, a: Addr): State
    requires Enabled(s, Alloc(c, a))
  {
    var task := s.clients[c].task;
    s.(heap := s.heap[a := Node(task, None)], clients := s.clients[c := Allocated(task, a)],
       hist := s.hist.(allocs := s.hist.allocs + 1, owner := s.hist.owner[a := c]))
  }

  function DoExchange(s: State, c: ClientId): State
    requires Enabled(s, Exchange(c))
  {
    var Allocated(task, node) := s.clients[c];
    var h := s.hist;
    s.(tail := node, clients := s.clients[c := Exchanged(node, s.tail)],
       hist := h.(order := h.order + [Entry(node, task)], uncommitted := h.uncommitted - {c},
                  pos := h.pos[node := |h.order|], owner := h.owner - {node},
                  linker := if |h.order| > 0 then h.linker[|h.order| - 1 := c] else h.linker))
  }

  /** `prev->next.store(node)`. */
  function DoLink(s: State, c: ClientId): State
    requires Enabled(s, Link(c))
  {
    var Exchanged(node, prev) := s.clients[c];
    if prev !in s.heap then s.(fault := true) else
    s.(heap := s.heap[prev := s.heap[prev].(next := Some(node))], clients := s.clients[c := Linked],
       hist := if prev in s.hist.pos then s.hist.(linker := s.hist.linker - {s.hist.pos[prev]}) else s.hist)
  }

  // ---------- sync ----------

  predicate SyncReady(s: State, allow: nat) {
    s.pending <= allow || s.done
  }

  /** The predicate is tested under the mutex: success returns from `sync`, failure goes on to wait. */
  function DoSyncTest(s: State, c: ClientId): State
    requires Enabled(s, SyncTest(c))
  {
    if SyncReady(s, s.clients[c].allow)
    then s.(clients := s.clients - {c}, holder := None)
    else s.(clients := s.clients[c := SyncDozing(s.clients[c].allow)])
  }

  // ---------- worker ----------

  function DoLoad(s: State): State {
    if s.curr !in s.heap then s.(fault := true)
    else if s.heap[s.curr].next.Some? then s.(worker := Running(s.heap[s.curr].next.value))
    else s.(worker := Locking)
  }

  function DoRun(s: State): State
    requires s.worker.Running?
  {
    var n := s.worker.next;
    if n !in s.heap then s.(fault := true)
    else s.(worker := Deleting(n),
            hist := s.hist.(ran := s.hist.ran + TasksOf([Entry(n, s.heap[n].task)])))
  }

  function DoDelete(s: State): State
    requires s.worker.Deleting?
  {
    if s.curr !in s.heap then s.(fault := true)
    else s.(heap := s.heap - {s.curr}, worker := Storing(s.worker.next),
            hist := s.hist.(frees := s.hist.frees + 1, pos := s.hist.pos - {s.curr}))
  }

  /** `curr = next; head.store(curr)`. */
  function DoStore(s: State): State
    requires s.worker.Storing?
  {
    s.(curr := s.worker.next, head := s.worker.next, worker := Finishing,
       hist := s.hist.(taken := s.hist.taken + 1))
  }

  function DoFinish(s: State): State {
    s.(pending := s.pending - 1, worker := Broadcasting, hist := s.hist.(finished := s.hist.finished + 1))
  }

  function DoEval(s: State): State {
    if s.curr !in s.heap then s.(fault := true)
    else if s.heap[s.curr].next.Some? || s.done then s.(worker := Testing, holder := None)
    else s.(worker := Dozing)
  }

  // ---------- destructor ----------

  function DoFree(s: State): State
    requires s.destructor.Freeing?
  {
    if s.destructor.node.None? then s.(destructor := Destroyed) else
    var a := s.destructor.node.value;
    if a !in s.heap then s.(fault := true)
    else s.(heap := s.heap - {a}, destructor := Freeing(s.heap[a].next),
            hist := s.hist.(frees := s.hist.frees + 1, pos := s.hist.pos - {a}, taken := s.hist.taken + 1))
  }

  function Apply(s: State, a: Action): State
    requires Enabled(s, a)
  {
    match a
    case Count(c, task) => DoCount(s, c, task)
    case Alloc(c, a) => DoAlloc(s, c, a)
    case Exchange(c) => DoExchange(s, c)
    case Link(c) => DoLink(s, c)
    case PassLock(c) => s.(clients := s.clients[c := Notifying])
    case NotifyOne(c, woken) =>
      var s' := if woken.Some? then Wake(s, woken.value) else s;
      s'.(clients := s'.clients - {c})
    case SyncCall(c, allow) => s.(clients := s.clients[c := SyncEntered(allow)])
    case SyncLock(c) => s.(clients := s.clients[c := SyncHolding(s.clients[c].allow)], holder := Some(ClientHolds(c)))
    case SyncTest(c) => DoSyncTest(s, c)
    case SyncSleep(c) => s.(clients := s.clients[c := SyncWaiting(s.clients[c].allow)], holder := None)
    case SyncSpurious(c) => s.(clients := s.clients[c := SyncEntered(s.clients[c].allow)])
    case WTest => s.(worker := if s.done then Exited else Loading)
    case WLoad => DoLoad(s)
    case WRun => DoRun(s)
    case WDelete => DoDelete(s)
    case WStore => DoStore(s)
    case WFinish => DoFinish(s)
    case WBroadcast => WakeAll(s).(worker := Testing)
    case WLock => s.(worker := Holding, holder := Some(WorkerHolds))
    case WEval => DoEval(s)
    case WSleep => s.(worker := Waiting, holder := None)
    case WSpurious => s.(worker := Locking)
    case DMark => s.(done := true, destructor := Marked)
    case DBroadcast => WakeAll(s).(destructor := Joining)
    case DJoin => s.(destructor := Freeing(Some(s.head)))
    case DFree => DoFree(s)
  }

  /** The states a run of actions goes through, if each action is enabled in turn. */
  ghost predicate ValidRun(s: State, actions: seq<Action>)
    decreases |actions|
  {
    actions == [] || (Enabled(s, actions[0]) && ValidRun(Apply(s, actions[0]), actions[1..]))
  }

  ghost function RunTo(s: State, actions: seq<Action>): State
    requires ValidRun(s, actions)
    decreases |actions|
  {
    if actions == [] then s else RunTo(Apply(s, actions[0]), actions[1..])
  }
}
