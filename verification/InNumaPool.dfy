/**
 The in-NUMA worker pool as a state machine: the calling thread, which is thread 0, dispatches any sequence of jobs to
 the pool's threads, takes part in each, waits for the others and finally destroys the pool.
 */
module InNumaPool {
  import opened Handshake

  /** Inside `process_tasks`. */
  datatype Phase = Init | Load | Claim | Compute(id: int) | Finalize | Report

  /** Why a call can end the process: the block-size division, or a thread state past the end of the array. */
  datatype Crash = DivideByZero | OutOfRange

  /** The calling thread. `Returned` is where an asynchronous dispatch gives control back to its caller. */
  datatype Main =
    | Idle
    | Write(step: nat, taskNum: int)
    | Post(i: nat) | Notify(i: nat)
    | Own(phase: Phase)
    | Returned
    | Wait(i: nat)
    | ExitPost(i: nat) | ExitNotify(i: nat)
    | Join(i: nat)
    | Destroyed
    | Crashed(why: Crash)

  /** What happened in the current job, for stating properties; no guard depends on it. */
  datatype History = History(
    jobs: nat,                 // jobs whose fields have been written
    asked: int, limit: int,    // `task_num` of the latest call, and `restricted_worker_count` at that call
    entered: seq<nat>,         // times each thread entered the job
    inited: set<nat>, finalized: set<nat>, over: set<nat>,
    computed: multiset<int>,   // task ids whose `compute_func` call returned
    claimer: map<int, nat>,    // task ids being computed, and by whom
    race: bool)                // a job field was written while a thread was inside a job

  datatype State = State(
    restricted: int, workerCount: int, curr: int, end: int,
    cells: seq<Cell<Phase>>,   // cell 0 is the calling thread's own
    main: Main, hist: History)

  datatype Action =
    | SetRestricted(count: int)
    | StartJob(taskNum: int) | WriteField
    | StartEarly(taskNum: int)                   // a second job before the asynchronous one was waited for
    | PostOne | NotifyOne | OwnStep | CallWait | WaitOne
    | Destroy | ExitPostOne | ExitNotifyOne | JoinOne
    | DestroyEarly                               // destroying a pool whose asynchronous job was not waited for
    | ThreadPoll(t: nat, nap: bool) | ThreadSleep(t: nat) | ThreadSpurious(t: nat) | ThreadStep(t: nat)

  function InitState(total: nat): State {
    State(total, 0, 0, 0, seq(total, _ => Cell(WAITING, Poll)), Idle,
          History(0, 0, 0, seq(total, _ => 0), {}, {}, {}, multiset{}, map[], false))
  }

  ghost predicate SomeoneInside(s: State) {
    exists t :: 1 <= t < |s.cells| && s.cells[t].pc.In?
  }

  predicate IsThread(s: State, t: nat) {
    1 <= t < |s.cells|
  }

  function Participants(s: State): nat {
    if s.workerCount > 1 then s.workerCount else 1
  }

  predicate Enabled(s: State, a: Action) {
    match a
    case SetRestricted(_) => s.main.Idle? || s.main.Returned?
    case StartJob(_) => s.main.Idle?
    case StartEarly(_) => s.main.Returned?
    case WriteField => s.main.Write?
    case PostOne => s.main.Post? && (s.main.i < s.workerCount && s.main.i < |s.cells| ==> LockFree(s.cells[s.main.i]))
    case NotifyOne => s.main.Notify? && s.main.i < |s.cells|
    case OwnStep => s.main.Own?
    case CallWait => s.main.Returned?
    case WaitOne => s.main.Wait? && (s.main.i < s.workerCount && s.main.i < |s.cells| ==>
                      !s.cells[s.main.i].status.WORKING?)
    case Destroy => s.main.Idle?
    case DestroyEarly => s.main.Returned?
    case ExitPostOne => s.main.ExitPost? && (s.main.i < |s.cells| ==> LockFree(s.cells[s.main.i]))
    case ExitNotifyOne => s.main.ExitNotify? && s.main.i < |s.cells|
    case JoinOne => s.main.Join? && (1 <= s.main.i < |s.cells| ==> s.cells[s.main.i].pc.Gone?)
    case ThreadPoll(t, _) => IsThread(s, t) && s.cells[t].pc.Poll?
    case ThreadSleep(t) => IsThread(s, t) && CanSleepStep(s.cells[t])
    case ThreadSpurious(t) => IsThread(s, t) && s.cells[t].pc.Asleep?
    case ThreadStep(t) => IsThread(s, t) && s.cells[t].pc.In?
  }

  // ---------- process_tasks, one atomic step at a time, for any participating thread ----------

  /** The phase after this one. `Load` leaves the loop when nothing remains; `Claim` is the `fetch_add`. */
  function NextPhase(s: State, ph: Phase): Phase
    requires !ph.Report?
  {
    match ph
    case Init => Load
    case Load => if s.end - s.curr <= 0 then Finalize else Claim
    case Claim => if s.curr >= s.end then Finalize else Compute(s.curr)
    case Compute(_) => Load
    case Finalize => Report
  }

  /** Between the load and the `fetch_add` the code divides what remains by `worker_count`. */
  predicate Divides(s: State, ph: Phase) {
    ph.Load? && s.end - s.curr > 0 && s.workerCount == 0
  }

  /** The shared counter and the job's history after thread `t` takes that step. */
  function PhaseEffect(s: State, t: nat, ph: Phase): State {
    var h := s.hist;
    match ph
    case Init => s.(hist := h.(inited := h.inited + {t}))
    case Claim => s.(curr := s.curr + 1, hist := if s.curr >= s.end then h.(over := h.over + {t})
                                                  else h.(claimer := h.claimer[s.curr := t]))
    case Compute(id) => s.(hist := h.(computed := h.computed + multiset{id}, claimer := h.claimer - {id}))
    case Finalize => s.(hist := h.(finalized := h.finalized + {t}))
    case _ => s
  }

  function SetCell(s: State, t: nat, c: Cell<Phase>): State
    requires t < |s.cells|
  {
    s.(cells := s.cells[t := c])
  }

  function DoOwnStep(s: State): State
    requires Enabled(s, OwnStep)
  {
    var ph := s.main.phase;
    if Divides(s, ph) then s.(main := Crashed(DivideByZero))
    else if ph.Report? then
      if |s.cells| == 0 then s.(main := Crashed(OutOfRange))
      else SetCell(s, 0, s.cells[0].(status := WAITING)).(main := Returned)
    else PhaseEffect(s, 0, ph).(main := Own(NextPhase(s, ph)))
  }

  function DoThreadStep(s: State, t: nat): State
    requires Enabled(s, ThreadStep(t))
  {
    var ph := s.cells[t].pc.phase;
    if Divides(s, ph) then s.(main := Crashed(DivideByZero))
    else if ph.Report? then SetCell(s, t, Cell(WAITING, Poll))
    else SetCell(PhaseEffect(s, t, ph), t, s.cells[t].(pc := In(NextPhase(s, ph))))
  }

  function DoThreadPoll(s: State, t: nat, nap: bool): State
    requires Enabled(s, ThreadPoll(t, nap))
  {
    var s' := SetCell(s, t, PollOnce(s.cells[t], nap, Init));
    if s.cells[t].status.WORKING? && t < |s.hist.entered|
    then s'.(hist := s.hist.(entered := s.hist.entered[t := s.hist.entered[t] + 1]))
    else s'
  }

  // ---------- the calling thread ----------

  function DoStart(s: State, n: int): State {
    s.(main := Write(0, n), hist := s.hist.(asked := n, limit := s.restricted))
  }

  /** Functions, `worker_count`, `curr_` and `end_` are written one after the other. */
  ghost function DoWrite(s: State): State
    requires Enabled(s, WriteField)
  {
    var n := s.main.taskNum;
    var h := s.hist.(race := s.hist.race || SomeoneInside(s));
    if s.main.step == 0 then
      s.(main := Write(1, n), hist := h.(jobs := h.jobs + 1, entered := seq(|s.cells|, _ => 0), inited := {},
                                         finalized := {}, over := {}, computed := multiset{}, claimer := map[]))
    else if s.main.step == 1 then
      s.(main := Write(2, n), workerCount := if s.restricted <= n then s.restricted else n, hist := h)
    else if s.main.step == 2 then s.(main := Write(3, n), curr := 0, hist := h)
    else s.(main := Post(0), end := n, hist := h)
  }

  function DoPost(s: State): State
    requires Enabled(s, PostOne)
  {
    var i := s.main.i;
    if i >= s.workerCount then s.(main := Own(Init))
    else if i >= |s.cells| then s.(main := Crashed(OutOfRange))
    else SetCell(s, i, s.cells[i].(status := WORKING)).(main := Notify(i))
  }

  function DoExitPost(s: State): State
    requires Enabled(s, ExitPostOne)
  {
    var i := s.main.i;
    if i < |s.cells| then SetCell(s, i, s.cells[i].(status := EXIT)).(main := ExitNotify(i))
    else s.(main := Join(0))
  }

  ghost function Apply(s: State, a: Action): State
    requires Enabled(s, a)
  {
    match a
    case SetRestricted(count) => s.(restricted := count)
    case StartJob(n) => DoStart(s, n)
    case StartEarly(n) => DoStart(s, n)
    case WriteField => DoWrite(s)
    case PostOne => DoPost(s)
    case NotifyOne => SetCell(s, s.main.i, WakeUp(s.cells[s.main.i])).(main := Post(s.main.i + 1))
    case OwnStep => DoOwnStep(s)
    case CallWait => s.(main := Wait(0))
    case WaitOne => s.(main := if s.main.i >= s.workerCount then Idle
                               else if s.main.i >= |s.cells| then Crashed(OutOfRange) else Wait(s.main.i + 1))
    case Destroy => s.(main := ExitPost(0))
    case DestroyEarly => s.(main := ExitPost(0))
    case ExitPostOne => DoExitPost(s)
    case ExitNotifyOne => SetCell(s, s.main.i, WakeUp(s.cells[s.main.i])).(main := ExitPost(s.main.i + 1))
    case JoinOne => s.(main := if s.main.i < |s.cells| then Join(s.main.i + 1) else Destroyed)
    case ThreadPoll(t, nap) => DoThreadPoll(s, t, nap)
    case ThreadSleep(t) => SetCell(s, t, SleepStep(s.cells[t]))
    case ThreadSpurious(t) => SetCell(s, t, WakeUp(s.cells[t]))
    case ThreadStep(t) => DoThreadStep(s, t)
  }

  /** The caller waits for a job before it starts another one or destroys the pool. */
  predicate Disciplined(a: Action) {
    !a.DestroyEarly? && !a.StartEarly?
  }

  ghost predicate ValidRun(s: State, actions: seq<Action>)
    decreases |actions|
  {
    actions == [] || (Enabled(s, actions[0]) && ValidRun(Apply(s, actions[0]), actions[1..]))
  }

  ghost function RunTo(s: State, actions: seq<Action>): State
    requires ValidRun(s, actions)
    decreases |actions|
  {
    if actions == [] then s else RunTo(Apply(s, actions[0]), actions[1..])
  }
}
