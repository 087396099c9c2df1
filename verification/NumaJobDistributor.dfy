/**
 The distributor that runs one function per NUMA node: a start-up barrier, then any sequence of jobs, each posted to
 every thread and waited for, then destruction. The status words exist only once their threads have made them.
 */
module NumaJobDistributor {
  import opened FiniteSets
  import opened Options
  import opened Handshake

  /** Inside a job: about to call the function, then about to report. */
  datatype Phase = Calling | Reporting

  /** A thread makes its status word, arrives at the barrier, blocks there and goes past it. */
  datatype Boot = Creating | Arriving | Blocked | Past

  /** `calls` counts the calls of the current job's function, for stating properties. */
  datatype Thread = Thread(boot: Boot, cell: Option<Cell<Phase>>, calls: nat)

  datatype Main =
    | Starting | AtBarrier
    | Idle | WriteFunction
    | Post(i: nat) | Notify(i: nat) | Wait(i: nat)
    | ExitPost(i: nat) | ExitNotify(i: nat) | Join(i: nat)
    | Destroyed

  /**
   `arrivals` is who has arrived at the barrier, the constructor counting as thread `|threads|`; the barrier opens when
   all have. `jobs`, `race` and `fault` are for stating properties: a race is the function being replaced while a thread
   is inside a job, a fault the use of a status word that does not exist.
   */
  datatype State = State(
    threads: seq<Thread>, arrivals: set<nat>, main: Main, jobs: nat, race: bool, fault: bool)

  datatype Action =
    | MainArrive | MainPass
    | StartJob | WriteOne | PostOne | NotifyOne | WaitOne
    | Destroy | ExitPostOne | ExitNotifyOne | JoinOne
    | Create(t: nat) | Arrive(t: nat) | Pass(t: nat)
    | Look(t: nat, nap: bool) | Sleep(t: nat) | Spurious(t: nat) | Call(t: nat) | Report(t: nat)

  function InitState(n: nat): State {
    State(seq(n, _ => Thread(Creating, None, 0)), {}, Starting, 0, false, false)
  }

  predicate Open(s: State) {
    |s.arrivals| == |s.threads| + 1
  }

  predicate Running(s: State, t: nat) {
    t < |s.threads| && s.threads[t].boot.Past?
  }

  /** The thread uses its own status word, if there is one. */
  predicate Has(s: State, t: nat) {
    t < |s.threads| && s.threads[t].cell.Some?
  }

  predicate Boots(s: State, t: nat, b: Boot) {
    t < |s.threads| && s.threads[t].boot == b
  }

  predicate Enabled(s: State, a: Action) {
    var m := s.main;
    match a
    case MainArrive => m.Starting?
    case MainPass => m.AtBarrier? && Open(s)
    case StartJob => m.Idle?
    case WriteOne => m.WriteFunction?
    case PostOne => m.Post? && (Has(s, m.i) ==> LockFree(s.threads[m.i].cell.value))
    case NotifyOne => m.Notify? && m.i < |s.threads|
    case WaitOne => m.Wait? && (Has(s, m.i) ==> !s.threads[m.i].cell.value.status.WORKING?)
    case Destroy => m.Idle?
    case ExitPostOne => m.ExitPost? && (Has(s, m.i) ==> LockFree(s.threads[m.i].cell.value))
    case ExitNotifyOne => m.ExitNotify? && m.i < |s.threads|
    case JoinOne => m.Join? && (Has(s, m.i) ==> s.threads[m.i].cell.value.pc.Gone?)
    case Create(t) => Boots(s, t, Creating)
    case Arrive(t) => Boots(s, t, Arriving)
    case Pass(t) => Boots(s, t, Blocked) && Open(s)
    case Look(t, _) => Running(s, t) && (Has(s, t) ==> s.threads[t].cell.value.pc.Poll?)
    case Sleep(t) => Running(s, t) && Has(s, t) && CanSleepStep(s.threads[t].cell.value)
    case Spurious(t) => Running(s, t) && Has(s, t) && s.threads[t].cell.value.pc.Asleep?
    case Call(t) => Running(s, t) && Has(s, t) && s.threads[t].cell.value.pc == In(Calling)
    case Report(t) => Running(s, t) && Has(s, t) && s.threads[t].cell.value.pc == In(Reporting)
  }

  function SetThread(s: State, t: nat, th: Thread): State
    requires t < |s.threads|
  {
    s.(threads := s.threads[t := th])
  }

  /** Replace the status word of thread `t`, or fault if it does not exist. */
  function Touch(s: State, t: nat, f: Cell<Phase> -> Cell<Phase>): State
    requires t < |s.threads|
  {
    if s.threads[t].cell.None? then s.(fault := true)
    else SetThread(s, t, s.threads[t].(cell := Some(f(s.threads[t].cell.value))))
  }

  ghost predicate SomeoneInside(s: State) {
    exists t :: 0 <= t < |s.threads| && s.threads[t].cell.Some? && s.threads[t].cell.value.pc.In?
  }

  function NoCalls(threads: seq<Thread>): (r: seq<Thread>)
    ensures |r| == |threads|
    ensures forall t | 0 <= t < |r| :: r[t] == threads[t].(calls := 0)
  {
    seq(|threads|, t requires 0 <= t < |threads| => threads[t].(calls := 0))
  }

  function Posting(c: Cell<Phase>, status: Status): Cell<Phase> {
    c.(status := status)
  }

  function Polled(s: State, t: nat, nap: bool): State
    requires Enabled(s, Look(t, nap))
  {
    if s.threads[t].cell.None? then s.(fault := true)
    else SetThread(s, t, s.threads[t].(cell := Some(PollOnce(s.threads[t].cell.value, nap, Calling))))
  }

  ghost function Apply(s: State, a: Action): State
    requires Enabled(s, a)
  {
    var n := |s.threads|;
    match a
    case MainArrive => s.(main := AtBarrier, arrivals := s.arrivals + {n})
    case MainPass => s.(main := Idle)
    case StartJob => s.(main := WriteFunction)
    case WriteOne => s.(main := Post(0), race := s.race || SomeoneInside(s), jobs := s.jobs + 1,
                        threads := NoCalls(s.threads))
    case PostOne =>
      if s.main.i < n then Touch(s, s.main.i, c => Posting(c, WORKING)).(main := Notify(s.main.i))
      else s.(main := Wait(0))
    case NotifyOne => Touch(s, s.main.i, c => WakeUp(c)).(main := Post(s.main.i + 1))
    case WaitOne =>
      if s.main.i < n then Touch(s, s.main.i, c => c).(main := Wait(s.main.i + 1)) else s.(main := Idle)
    case Destroy => s.(main := ExitPost(0))
    case ExitPostOne =>
      if s.main.i < n then Touch(s, s.main.i, c => Posting(c, EXIT)).(main := ExitNotify(s.main.i))
      else s.(main := Join(0))
    case ExitNotifyOne => Touch(s, s.main.i, c => WakeUp(c)).(main := ExitPost(s.main.i + 1))
    case JoinOne => s.(main := if s.main.i < n then Join(s.main.i + 1) else Destroyed)
    case Create(t) => SetThread(s, t, Thread(Arriving, Some(Cell(WAITING, Pc.Poll)), 0))
    case Arrive(t) => SetThread(s, t, s.threads[t].(boot := Blocked)).(arrivals := s.arrivals + {t})
    case Pass(t) => SetThread(s, t, s.threads[t].(boot := Past))
    case Look(t, nap) => Polled(s, t, nap)
    case Sleep(t) => SetThread(s, t, s.threads[t].(cell := Some(SleepStep(s.threads[t].cell.value))))
    case Spurious(t) => SetThread(s, t, s.threads[t].(cell := Some(WakeUp(s.threads[t].cell.value))))
    case Call(t) => SetThread(s, t, Thread(Past, Some(s.threads[t].cell.value.(pc := In(Reporting))),
                                           s.threads[t].calls + 1))
    case Report(t) => SetThread(s, t, s.threads[t].(cell := Some(Cell(WAITING, Pc.Poll))))
  }

  ghost predicate ValidRun(s: State, actions: seq<Action>)
    decreases |actions|
  {
    actions == [] || (Enabled(s, actions[0]) && ValidRun(Apply(s, actions[0]), actions[1..]))
  }

  ghost function RunTo(s: State, actions: seq<Action>): State
    requires ValidRun(s, actions)
    decreases |actions|
  {
    if actions == [] then s else RunTo(Apply(s, actions[0]), actions[1..])
  }

  // ---------- invariant ----------

  predicate Exiting(m: Main) {
    m.ExitPost? || m.ExitNotify? || m.Join? || m.Destroyed?
  }

  predicate StartingUp(m: Main) {
    m.Starting? || m.AtBarrier?
  }

  function Posted(m: Main, n: nat): nat {
    match m
    case Starting => 0
    case AtBarrier => 0
    case WriteFunction => 0
    case Post(i) => i
    case Notify(i) => i + 1
    case _ => n
  }

  predicate StatusOk(m: Main, n: nat, t: nat, c: Cell<Phase>) {
    && CellOk(c, m == Notify(t) || m == ExitNotify(t))
    && (Exiting(m) ==>
          && !c.pc.In?
          && c.status == (match m
                          case ExitPost(i) => if t < i then EXIT else WAITING
                          case ExitNotify(i) => if t <= i then EXIT else WAITING
                          case _ => EXIT)
          && (m.Join? && t < m.i ==> c.pc.Gone?)
          && (m.Destroyed? ==> c.pc.Gone?))
    && (!Exiting(m) ==>
          && !c.status.EXIT?
          && (c.status.WORKING? ==> t < Posted(m, n))
          && (m.Idle? ==> c.status.WAITING?)
          && (m.Wait? && t < m.i ==> c.status.WAITING?))
  }

  /** The function has been called once by each thread that finished the job, and not yet by the others. */
  predicate CallsOk(m: Main, n: nat, jobs: nat, t: nat, th: Thread) {
    jobs > 0 && !Exiting(m) && !m.WriteFunction? ==>
      th.calls == if t < Posted(m, n) && th.cell.Some? &&
                     (th.cell.value.status.WAITING? || th.cell.value.pc == In(Reporting)) then 1 else 0
  }

  predicate ThreadOk(m: Main, n: nat, jobs: nat, arrivals: set<nat>, open: bool, t: nat, th: Thread) {
    && (th.boot.Creating? <==> th.cell.None?)
    && (th.cell.Some? ==> StatusOk(m, n, t, th.cell.value))
    && (!th.boot.Past? && th.cell.Some? ==> th.cell.value.pc.Poll?)
    && (t in arrivals <==> th.boot.Blocked? || th.boot.Past?)
    && (th.boot.Past? ==> open)
    && CallsOk(m, n, jobs, t, th)
  }

  ghost predicate ThreadsOk(s: State) {
    forall t | 0 <= t < |s.threads| ::
      ThreadOk(s.main, |s.threads|, s.jobs, s.arrivals, Open(s), t, s.threads[t])
  }

  ghost predicate MainOk(s: State) {
    var n := |s.threads|;
    && (forall t | t in s.arrivals :: t <= n)
    && (n in s.arrivals <==> !s.main.Starting?)
    && (!StartingUp(s.main) ==> Open(s))
    && (StartingUp(s.main) ==> s.jobs == 0)
    && (s.jobs == 0 ==> StartingUp(s.main) || s.main.Idle? || s.main.WriteFunction? || Exiting(s.main))
    && (s.main.Post? || s.main.Wait? || s.main.ExitPost? || s.main.Join? ==> s.main.i <= n)
    && (s.main.Notify? || s.main.ExitNotify? ==> s.main.i < n)
    && !s.race && !s.fault
  }

  ghost predicate Inv(s: State) {
    ThreadsOk(s) && MainOk(s)
  }

  /** Once the barrier is open every status word exists. */
  lemma OpenMeansReady(s: State)
    requires ThreadsOk(s) && (forall t | t in s.arrivals :: t <= |s.threads|) && Open(s)
    ensures |s.threads| in s.arrivals
    ensures forall t | 0 <= t < |s.threads| ::
              s.threads[t].cell.Some? && !s.threads[t].boot.Creating? && t in s.arrivals
  {
    FullSet(s.arrivals, |s.threads| + 1);
    forall t: nat | t < |s.threads|
      ensures s.threads[t].cell.Some? && !s.threads[t].boot.Creating? && t in s.arrivals
    {
      assert ThreadOk(s.main, |s.threads|, s.jobs, s.arrivals, Open(s), t, s.threads[t]);
    }
  }

  predicate ThreadAction(a: Action) {
    a.Create? || a.Arrive? || a.Pass? || a.Look? || a.Sleep? || a.Spurious? || a.Call? || a.Report?
  }

  lemma AllReady(s: State)
    requires Inv(s) && !StartingUp(s.main)
    ensures forall t | 0 <= t < |s.threads| ::
              s.threads[t].cell.Some? && !s.threads[t].boot.Creating? && t in s.arrivals
  {
    OpenMeansReady(s);
  }

  lemma ThreadStepFrame(s: State, a: Action)
    requires Enabled(s, a) && ThreadAction(a) && a.t < |s.threads|
    ensures var s' := Apply(s, a);
            && |s'.threads| == |s.threads| && s'.main == s.main && s'.jobs == s.jobs
            && (forall u | 0 <= u < |s.threads| && u != a.t :: s'.threads[u] == s.threads[u])
            && s'.arrivals == (if a.Arrive? then s.arrivals + {a.t} else s.arrivals)
  {
  }

  lemma ThreadStepMain(s: State, a: Action)
    requires MainOk(s) && ThreadsOk(s) && Enabled(s, a) && ThreadAction(a)
    ensures MainOk(Apply(s, a)) && (Open(s) ==> Open(Apply(s, a)))
  {
    hide ThreadsOk, StatusOk, CallsOk;
    StepsAreReady(s, a);
  }

  /** No thread arrives at an open barrier, and none touches a status word that does not exist. */
  lemma StepsAreReady(s: State, a: Action)
    requires MainOk(s) && ThreadsOk(s) && Enabled(s, a) && ThreadAction(a)
    ensures a.Arrive? ==> !Open(s) && a.t !in s.arrivals && a.t < |s.threads|
    ensures a.Look? ==> s.threads[a.t].boot.Past? && s.threads[a.t].cell.Some?
  {
    hide StatusOk, CallsOk;
    assert ThreadOk(s.main, |s.threads|, s.jobs, s.arrivals, Open(s), a.t, s.threads[a.t]);
    if Open(s) { OpenMeansReady(s); }
  }

  predicate BootAction(a: Action) {
    a.Create? || a.Arrive? || a.Pass?
  }

  lemma BootStepOwn(s: State, a: Action)
    requires Inv(s) && Enabled(s, a) && BootAction(a)
    ensures var s' := Apply(s, a);
            ThreadOk(s'.main, |s.threads|, s'.jobs, s'.arrivals, Open(s'), a.t, s'.threads[a.t])
  {
    assert ThreadOk(s.main, |s.threads|, s.jobs, s.arrivals, Open(s), a.t, s.threads[a.t]);
    if Open(s) { OpenMeansReady(s); }
  }

  lemma LoopStepOwn(s: State, a: Action)
    requires Inv(s) && Enabled(s, a) && ThreadAction(a) && !BootAction(a)
    ensures var s' := Apply(s, a);
            ThreadOk(s'.main, |s.threads|, s'.jobs, s'.arrivals, Open(s'), a.t, s'.threads[a.t])
  {
    assert ThreadOk(s.main, |s.threads|, s.jobs, s.arrivals, Open(s), a.t, s.threads[a.t]);
    hide ThreadsOk;
  }

  lemma ThreadStepKeeps(s: State, a: Action)
    requires Inv(s) && Enabled(s, a) && ThreadAction(a)
    ensures Inv(Apply(s, a))
  {
    hide Apply, MainOk, StatusOk, CallsOk, Open;
    var s' := Apply(s, a);
    ThreadStepMain(s, a);
    if BootAction(a) { BootStepOwn(s, a); } else { LoopStepOwn(s, a); }
    ThreadStepFrame(s, a);
    forall u: nat | u < |s.threads|
      ensures ThreadOk(s'.main, |s.threads|, s'.jobs, s'.arrivals, Open(s'), u, s'.threads[u])
    {
      assert ThreadOk(s.main, |s.threads|, s.jobs, s.arrivals, Open(s), u, s.threads[u]);
    }
  }

  lemma NotOpenYet(s: State)
    requires Inv(s) && s.main.Starting?
    ensures !Open(s)
  {
    if Open(s) {
      OpenMeansReady(s);
      assert false;
    }
  }

  predicate ExitAction(a: Action) {
    a.Destroy? || a.ExitPostOne? || a.ExitNotifyOne? || a.JoinOne?
  }

  predicate StartAction(a: Action) {
    a.MainArrive? || a.MainPass? || a.StartJob? || a.WriteOne?
  }

  lemma StartKeepsThreads(s: State, a: Action)
    requires Inv(s) && Enabled(s, a) && StartAction(a)
    ensures ThreadsOk(Apply(s, a))
  {
    var s' := Apply(s, a);
    if s.main.Starting? { NotOpenYet(s); }
    forall u: nat | u < |s.threads|
      ensures ThreadOk(s'.main, |s.threads|, s'.jobs, s'.arrivals, Open(s'), u, s'.threads[u])
    {
      assert ThreadOk(s.main, |s.threads|, s.jobs, s.arrivals, Open(s), u, s.threads[u]);
    }
  }

  lemma DispatchKeepsThreads(s: State, a: Action)
    requires Inv(s) && Enabled(s, a) && (a.PostOne? || a.NotifyOne? || a.WaitOne?)
    ensures ThreadsOk(Apply(s, a))
  {
    var s' := Apply(s, a);
    AllReady(s);
    forall u: nat | u < |s.threads|
      ensures ThreadOk(s'.main, |s.threads|, s'.jobs, s'.arrivals, Open(s'), u, s'.threads[u])
    {
      assert ThreadOk(s.main, |s.threads|, s.jobs, s.arrivals, Open(s), u, s.threads[u]);
    }
  }

  lemma CallKeepsThreads(s: State, a: Action)
    requires Inv(s) && Enabled(s, a) && !ThreadAction(a) && !ExitAction(a)
    ensures ThreadsOk(Apply(s, a))
  {
    hide Inv, Enabled, Apply, ThreadsOk;
    if StartAction(a) { StartKeepsThreads(s, a); } else { DispatchKeepsThreads(s, a); }
  }

  lemma ExitKeepsThreads(s: State, a: Action)
    requires Inv(s) && Enabled(s, a) && ExitAction(a)
    ensures ThreadsOk(Apply(s, a))
  {
    var s' := Apply(s, a);
    AllReady(s);
    forall u: nat | u < |s.threads|
      ensures ThreadOk(s'.main, |s.threads|, s'.jobs, s'.arrivals, Open(s'), u, s'.threads[u])
    {
      assert ThreadOk(s.main, |s.threads|, s.jobs, s.arrivals, Open(s), u, s.threads[u]);
    }
  }

  lemma NobodyInside(s: State)
    requires Inv(s) && (s.main.WriteFunction? || s.main.Idle?)
    ensures !SomeoneInside(s)
  {
    forall t: nat | t < |s.threads| && s.threads[t].cell.Some? ensures !s.threads[t].cell.value.pc.In? {
      assert ThreadOk(s.main, |s.threads|, s.jobs, s.arrivals, Open(s), t, s.threads[t]);
    }
  }

  lemma MainStepKeeps(s: State, a: Action)
    requires Inv(s) && Enabled(s, a) && !ThreadAction(a)
    ensures Inv(Apply(s, a))
  {
    if ExitAction(a) { ExitKeepsThreads(s, a); } else { CallKeepsThreads(s, a); }
    if !StartingUp(s.main) { AllReady(s); }
    if s.main.WriteFunction? { NobodyInside(s); }
    hide ThreadsOk, SomeoneInside;
  }

  lemma InitInv(n: nat)
    ensures Inv(InitState(n))
  {
  }

  /** Every state of every run: start-up, any number of jobs, destruction. */
  lemma {:induction false} RunKeepsInv(s: State, actions: seq<Action>)
    requires Inv(s) && ValidRun(s, actions)
    ensures Inv(RunTo(s, actions))
    decreases |actions|
  {
    if actions != [] {
      if ThreadAction(actions[0]) { ThreadStepKeeps(s, actions[0]); } else { MainStepKeeps(s, actions[0]); }
      hide Inv, Apply, Enabled;
      RunKeepsInv(Apply(s, actions[0]), actions[1..]);
    }
  }

  // ---------- guarantees ----------

  /** No status word is used before it exists, and the job's function is never replaced under a thread. */
  lemma NoEarlyUse(n: nat, actions: seq<Action>)
    requires ValidRun(InitState(n), actions)
    ensures var s := RunTo(InitState(n), actions);
            && !s.fault && !s.race && (s.main.WriteFunction? ==> !SomeoneInside(s))
            && (!s.main.Starting? && !s.main.AtBarrier? ==>
                  forall t | 0 <= t < |s.threads| :: s.threads[t].cell.Some? && !s.threads[t].boot.Creating?)
  {
    InitInv(n);
    RunKeepsInv(InitState(n), actions);
    var s := RunTo(InitState(n), actions);
    if !StartingUp(s.main) { AllReady(s); }
    if s.main.WriteFunction? { NobodyInside(s); }
  }

  /** When `do_numa_job` has returned, every thread has called the function exactly once and none is inside the job. */
  lemma JobReachesEveryThreadOnce(n: nat, actions: seq<Action>)
    requires ValidRun(InitState(n), actions)
    ensures var s := RunTo(InitState(n), actions);
            s.main.Idle? && s.jobs > 0 ==>
              (forall t | 0 <= t < |s.threads| :: s.threads[t].calls == 1) && !SomeoneInside(s)
  {
    InitInv(n);
    RunKeepsInv(InitState(n), actions);
    var s := RunTo(InitState(n), actions);
    if s.main.Idle? && s.jobs > 0 {
      AllReady(s);
      NobodyInside(s);
      forall t: nat | t < |s.threads| ensures s.threads[t].calls == 1 {
        assert ThreadOk(s.main, |s.threads|, s.jobs, s.arrivals, Open(s), t, s.threads[t]);
      }
    }
  }

  /** No thread sleeps through WORKING or EXIT, and a destroyed distributor has no thread left. */
  lemma NoMissedStatus(n: nat, actions: seq<Action>, t: nat)
    requires ValidRun(InitState(n), actions) && Has(RunTo(InitState(n), actions), t)
    ensures var s := RunTo(InitState(n), actions);
            var c := s.threads[t].cell.value;
            && (c.pc.Asleep? && !c.status.WAITING? ==> s.main == Notify(t) || s.main == ExitNotify(t))
            && (s.main.Destroyed? ==> c.pc.Gone?)
  {
    InitInv(n);
    RunKeepsInv(InitState(n), actions);
    var s := RunTo(InitState(n), actions);
    assert ThreadOk(s.main, |s.threads|, s.jobs, s.arrivals, Open(s), t, s.threads[t]);
  }
}
