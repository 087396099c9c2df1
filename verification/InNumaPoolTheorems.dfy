/** The worker pool's guarantees over any sequence of jobs and any interleaving. */
module InNumaPoolTheorems {
  import opened FiniteSets
  import opened Options
  import opened Handshake
  import opened InNumaPool
  import opened InNumaPoolSafety

  ghost predicate Reachable(total: nat, actions: seq<Action>) {
    total >= 1 && ValidRun(InitState(total), actions) && DisciplinedRun(actions)
  }

  ghost function Reached(total: nat, actions: seq<Action>): State
    requires Reachable(total, actions)
  {
    RunTo(InitState(total), actions)
  }

  lemma ReachedInv(total: nat, actions: seq<Action>)
    requires Reachable(total, actions)
    ensures Inv(Reached(total, actions))
  {
    InitInv(total);
    RunKeepsInv(InitState(total), actions);
  }

  // ---------- what a call was made with ----------

  function LimitAfter(a: Action, limit: int): int {
    if a.SetRestricted? then a.count else limit
  }

  function CallAfter(a: Action, limit: int, last: Option<(int, int)>): Option<(int, int)> {
    if a.StartJob? || a.StartEarly? then Some((a.taskNum, limit)) else last
  }

  /** What the limit was last set to. */
  function LimitSet(actions: seq<Action>, limit: int): int {
    if actions == [] then limit else LimitSet(actions[1..], LimitAfter(actions[0], limit))
  }

  /**
   Task count and worker limit of the last call in a run: its own argument, and what the limit was last set to before
   it. `limit` and `last` are what held before these actions.
   */
  function LastCall(actions: seq<Action>, limit: int, last: Option<(int, int)>): Option<(int, int)> {
    if actions == [] then last
    else LastCall(actions[1..], LimitAfter(actions[0], limit), CallAfter(actions[0], limit, last))
  }

  ghost predicate Recorded(s: State, limit: int, last: Option<(int, int)>) {
    && s.restricted == limit
    && (last.Some? ==> (s.hist.asked, s.hist.limit) == last.value)
    && (s.main.Write? || s.hist.jobs > 0 ==> last.Some?)
  }

  lemma RecordedStep(s: State, a: Action, limit: int, last: Option<(int, int)>)
    requires Enabled(s, a) && Recorded(s, limit, last)
    ensures Recorded(Apply(s, a), LimitAfter(a, limit), CallAfter(a, limit, last))
  {
  }

  lemma {:induction false} RecordedAlong(s: State, actions: seq<Action>, limit: int, last: Option<(int, int)>)
    requires ValidRun(s, actions) && Recorded(s, limit, last)
    ensures Recorded(RunTo(s, actions), LimitSet(actions, limit), LastCall(actions, limit, last))
    decreases |actions|
  {
    if actions != [] {
      hide Recorded, Apply, Enabled, LimitAfter, CallAfter;
      var a := actions[0];
      RecordedStep(s, a, limit, last);
      RecordedAlong(Apply(s, a), actions[1..], LimitAfter(a, limit), CallAfter(a, limit, last));
    }
  }

  /** The call a pool is working on is the last one made, with the limit of that moment: the pool's size until set. */
  lemma CallIsTheLastMade(total: nat, actions: seq<Action>)
    requires ValidRun(InitState(total), actions)
    ensures var s, last := RunTo(InitState(total), actions), LastCall(actions, total, None);
            s.main.Write? || s.hist.jobs > 0 ==> last.Some? && (s.hist.asked, s.hist.limit) == last.value
  {
    RecordedAlong(InitState(total), actions, total, None);
  }

  /** The calling thread takes part in every job; thread `t` does when the job was posted to it. */
  predicate TakesPart(s: State, t: nat) {
    t < |s.cells| && (t == 0 || t < s.workerCount)
  }

  /**
   When a call has returned and been waited for: every task id below its count has been computed exactly once and
   nothing else has, as many threads as its count and the limit allow were inside the job exactly once and ran init
   and finalize, and nobody is still inside.
   */
  lemma JobIsComplete(total: nat, actions: seq<Action>)
    requires Reachable(total, actions)
    ensures var s, last := Reached(total, actions), LastCall(actions, total, None);
            s.main.Idle? && s.hist.jobs > 0 ==>
              && last.Some? && (s.hist.asked, s.hist.limit) == last.value
              && s.end == s.hist.asked
              && s.workerCount <= s.hist.asked && s.workerCount <= s.hist.limit
              && (s.workerCount == s.hist.asked || s.workerCount == s.hist.limit)
              && (forall id :: s.hist.computed[id] == if 0 <= id < s.hist.asked then 1 else 0)
              && (forall t: nat :: t in s.hist.inited <==> TakesPart(s, t))
              && (forall t: nat :: t in s.hist.finalized <==> TakesPart(s, t))
              && |s.hist.entered| == |s.cells|
              && (forall t | 1 <= t < |s.cells| :: s.hist.entered[t] == if t < s.workerCount then 1 else 0)
              && !SomeoneInside(s)
  {
    ReachedInv(total, actions);
    CallIsTheLastMade(total, actions);
    var s := Reached(total, actions);
    if s.main.Idle? && s.hist.jobs > 0 {
      IdleMeansComplete(s);
    }
  }

  lemma ClaimerIsInside(h: History, curr: int, end: int, stages: seq<Stage>, id: int)
    requires ClaimsOk(h, curr, end, stages) && id in h.claimer
    ensures h.claimer[id] < |stages| && stages[h.claimer[id]].Inside?
  {
    assert ClaimOk(h, curr, end, stages, id);
  }

  lemma IdleMeansComplete(s: State)
    requires Inv(s) && s.main.Idle? && s.hist.jobs > 0
    ensures forall id :: s.hist.computed[id] == if 0 <= id < s.hist.asked then 1 else 0
    ensures forall t: nat :: t in s.hist.inited <==> TakesPart(s, t)
    ensures forall t: nat :: t in s.hist.finalized <==> TakesPart(s, t)
    ensures forall t | 1 <= t < |s.cells| :: s.hist.entered[t] == if t < s.workerCount then 1 else 0
    ensures !SomeoneInside(s)
  {
    var stages := Stages(s);
    forall t: nat | t < |s.cells|
      ensures stages[t] == if TakesPart(s, t) then Finished else NotEntered
      ensures MemberOk(s.hist, s.curr, s.end, t, stages[t])
      ensures t >= 1 ==> !s.cells[t].pc.In?
    {
      if t >= 1 { assert ThreadOk(s.main, s.workerCount, t, s.cells[t]); }
    }
    assert MemberOk(s.hist, s.curr, s.end, 0, stages[0]);
    forall t: nat | 1 <= t < |s.cells| ensures s.hist.entered[t] == if t < s.workerCount then 1 else 0 {
      assert MemberOk(s.hist, s.curr, s.end, t, stages[t]);
    }
    forall id ensures s.hist.computed[id] == if 0 <= id < s.hist.asked then 1 else 0 {
      if id in s.hist.claimer {
        ClaimerIsInside(s.hist, s.curr, s.end, stages, id);
        assert false;
      }
      assert s.hist.computed[id] == TimesComputed(s.hist, s.curr, s.end, id);
    }
  }

  /** At any moment, init has run before and finalize has not when a thread computes; neither runs twice. */
  lemma InitThenComputeThenFinalize(total: nat, actions: seq<Action>, t: nat)
    requires Reachable(total, actions) && t < |Reached(total, actions).cells|
    ensures var s := Reached(total, actions);
            !Exiting(s.main) && !s.main.Crashed? && s.hist.jobs > 0 && !s.main.Write? && Stages(s)[t].Inside? ==>
              var ph := Stages(s)[t].phase;
              && (ph.Init? ==> t !in s.hist.inited)
              && (ph.Load? || ph.Claim? || ph.Compute? || ph.Finalize? ==> t in s.hist.inited && t !in s.hist.finalized)
              && (ph.Report? ==> t in s.hist.finalized)
              && (ph.Compute? ==> 0 <= ph.id < s.hist.asked && s.hist.computed[ph.id] == 0)
              && (forall u | 0 <= u < |s.cells| && u != t :: ph.Compute? ==> Stages(s)[u] != Inside(ph))
  {
    ReachedInv(total, actions);
    var s := Reached(total, actions);
    var stages := Stages(s);
    if !Exiting(s.main) && !s.main.Crashed? && s.hist.jobs > 0 && !s.main.Write? && stages[t].Inside? {
      assert MemberOk(s.hist, s.curr, s.end, t, stages[t]);
      if stages[t].phase.Compute? {
        var id := stages[t].phase.id;
        assert ClaimOk(s.hist, s.curr, s.end, stages, id);
        assert s.hist.computed[id] == TimesComputed(s.hist, s.curr, s.end, id);
        forall u | 0 <= u < |s.cells| && u != t ensures stages[u] != Inside(Compute(id)) {
          assert MemberOk(s.hist, s.curr, s.end, u, stages[u]);
        }
      }
    }
  }

  /**
   The shared counter stops at the task count but for the other participants that saw a task left and came too late:
   whoever claims the last one finds nothing left. Without tasks it never moves.
   */
  lemma CounterIsBounded(total: nat, actions: seq<Action>)
    requires Reachable(total, actions)
    ensures var s := Reached(total, actions);
            !Exiting(s.main) && !s.main.Crashed? && s.hist.jobs > 0 && !s.main.Write? ==>
              0 <= s.curr <= if s.hist.asked > 0 then s.hist.asked + Participants(s) - 1 else 0
  {
    ReachedInv(total, actions);
    var s := Reached(total, actions);
    if !Exiting(s.main) && !s.main.Crashed? && s.hist.jobs > 0 && !s.main.Write? {
      if 0 < s.end <= s.curr {
        var t: nat :| Settled(s.hist, Stages(s), s.workerCount, t);
        SmallSet(s.hist.over + {t}, Participants(s));
      }
    }
  }

  /** No job field changes under a thread. */
  lemma FieldsAreStable(total: nat, actions: seq<Action>)
    requires Reachable(total, actions)
    ensures var s := Reached(total, actions); !s.hist.race && (s.main.Write? ==> !SomeoneInside(s))
  {
    ReachedInv(total, actions);
    var s := Reached(total, actions);
    if s.main.Write? { NobodyInsideDuringWrite(s); }
  }

  // ---------- which calls crash ----------

  /**
   Nothing checks `restricted_worker_count` or the size of the pool. A limit of 0 with tasks to do divides by zero; more
   workers than threads, or a pool of no threads at all, runs past the thread states.
   */
  function WhyCrash(limit: int, asked: int, total: nat): Option<Crash> {
    if limit == 0 && asked > 0 then Some(DivideByZero)
    else if total == 0 || Smaller(limit, asked) > total then Some(OutOfRange)
    else None
  }

  predicate CallDone(s: State) {
    s.main.Returned? || s.main.Wait? || (s.main.Idle? && s.hist.jobs > 0)
  }

  /** What holds of a pool of no threads, whose every call crashes. */
  predicate EmptyOk(s: State) {
    var h := s.hist;
    && s.cells == []
    && match s.main
       case Idle => h.jobs == 0
       case Write(step, n) =>
         && n == h.asked && step <= 3
         && (step < 2 ==> s.restricted == h.limit)
         && (step >= 2 ==> s.workerCount == Smaller(h.limit, h.asked))
         && (step >= 3 ==> s.curr == 0)
       case Post(i) => i == 0 && s.end == h.asked && s.workerCount == Smaller(h.limit, h.asked) && s.curr == 0
       case Own(ph) =>
         && s.end == h.asked && s.workerCount == Smaller(h.limit, h.asked) && s.workerCount <= 0 && s.curr >= 0
         && (s.workerCount == 0 && s.end > 0 ==> s.curr == 0 && (ph.Init? || ph.Load?))
       case Crashed(why) => WhyCrash(h.limit, h.asked, 0) == Some(why)
       case ExitPost(_) => true
       case Join(_) => true
       case Destroyed => true
       case _ => false
  }

  lemma {:induction false} EmptyRun(s: State, actions: seq<Action>)
    requires EmptyOk(s) && ValidRun(s, actions)
    ensures EmptyOk(RunTo(s, actions))
    decreases |actions|
  {
    if actions != [] {
      assert EmptyOk(Apply(s, actions[0]));
      hide EmptyOk, Apply, Enabled;
      EmptyRun(Apply(s, actions[0]), actions[1..]);
    }
  }

  /**
   Exactly which calls crash, and how: a call that crashed had one of those limits, and a call that came back had none.
   Every call does one or the other: `WorkIsBounded` and `CallCanProgress` say so for pools of at least one thread,
   `EmptyCallCrashes` for the empty one.
   */
  lemma CallsCrashExactly(total: nat, actions: seq<Action>)
    requires ValidRun(InitState(total), actions) && DisciplinedRun(actions)
    ensures var s := RunTo(InitState(total), actions);
            && (s.main.Crashed? ==> WhyCrash(s.hist.limit, s.hist.asked, total) == Some(s.main.why))
            && (CallDone(s) ==> WhyCrash(s.hist.limit, s.hist.asked, total) == None)
  {
    var s := RunTo(InitState(total), actions);
    PoolSizeKept(InitState(total), actions);
    if total == 0 {
      EmptyRun(InitState(0), actions);
    } else {
      ReachedInv(total, actions);
      hide JobOk, ThreadsOk;
    }
  }

  lemma {:induction false} PoolSizeKept(s: State, actions: seq<Action>)
    requires ValidRun(s, actions)
    ensures |RunTo(s, actions).cells| == |s.cells|
    decreases |actions|
  {
    if actions != [] {
      SizeKept(s, actions[0]);
      hide Apply, Enabled;
      PoolSizeKept(Apply(s, actions[0]), actions[1..]);
    }
  }

  /** No thread misses a change of its status: if it sleeps on WORKING or EXIT, its notification is the next step. */
  lemma NoMissedStatus(total: nat, actions: seq<Action>, t: nat)
    requires Reachable(total, actions) && IsThread(Reached(total, actions), t)
    ensures var s := Reached(total, actions);
            s.cells[t].pc.Asleep? && !s.cells[t].status.WAITING? ==> s.main == Notify(t) || s.main == ExitNotify(t)
  {
    ReachedInv(total, actions);
    var s := Reached(total, actions);
    assert ThreadOk(s.main, s.workerCount, t, s.cells[t]);
  }

  /** Destroying an idle pool ends with every thread gone. */
  lemma DestroyedMeansAllGone(total: nat, actions: seq<Action>, t: nat)
    requires Reachable(total, actions) && IsThread(Reached(total, actions), t)
    ensures Reached(total, actions).main.Destroyed? ==> Reached(total, actions).cells[t].pc.Gone?
  {
    ReachedInv(total, actions);
    var s := Reached(total, actions);
    assert ThreadOk(s.main, s.workerCount, t, s.cells[t]);
  }

  // ---------- termination ----------

  function PhaseRank(ph: Phase): nat {
    match ph
    case Init => 8
    case Load => 6
    case Claim => 5
    case Compute(_) => 7
    case Finalize => 3
    case Report => 2
  }

  /** What a thread still has to do about its status. */
  function CellRank(c: Cell<Phase>): nat {
    match c.status
    case WAITING => 0
    case WORKING => if c.pc.In? then PhaseRank(c.pc.phase) else 10 + Distance(c)
    case EXIT => Distance(c)
  }

  function ThreadsRank(cells: seq<Cell<Phase>>, from: nat): nat
    decreases |cells| - from
  {
    if from >= |cells| then 0 else CellRank(cells[from]) + ThreadsRank(cells, from + 1)
  }

  function Positive(n: int): nat {
    if n > 0 then n else 0
  }

  function MainRank(s: State): int {
    var wc, n := Positive(s.workerCount), |s.cells|;
    var next := if s.main.Write? && s.main.step < 2 then Positive(s.restricted) else wc;
    match s.main
    case Idle => 0
    case Write(step, taskNum) => 4 - step + 21 * next + 13 + 3 * Positive(taskNum)
    case Post(i) => 20 * (wc - i) + wc + 12
    case Notify(i) => 20 * (wc - i - 1) + wc + 17
    case Own(ph) => wc + 2 + PhaseRank(ph)
    case Returned => wc + 2
    case Wait(i) => wc - i + 1
    case ExitPost(i) => 20 * (n - i) + n + 2
    case ExitNotify(i) => 20 * (n - i - 1) + n + 7
    case Join(i) => n - i + 1
    case Destroyed => 0
    case Crashed(_) => 0
  }

  function Remaining(s: State): nat {
    if s.main.Post? || s.main.Notify? || s.main.Own? || s.main.Returned? || s.main.Wait? || s.main.Crashed?
    then Positive(s.end - s.curr) else 0
  }

  /** How much is left of the current call. */
  function Rank(s: State): int {
    MainRank(s) + 3 * Remaining(s) + ThreadsRank(s.cells, 1)
  }

  lemma {:induction false} RankUpdate(cells: seq<Cell<Phase>>, from: nat, t: nat, c: Cell<Phase>)
    requires t < |cells|
    ensures ThreadsRank(cells[t := c], from) ==
            ThreadsRank(cells, from) + if from <= t then CellRank(c) - CellRank(cells[t]) else 0
    decreases |cells| - from
  {
    if from < |cells| {
      RankUpdate(cells, from + 1, t, c);
    }
  }

  /** The caller's own decisions. */
  predicate NewCall(a: Action) {
    a.SetRestricted? || a.StartJob? || a.StartEarly? || a.Destroy? || a.DestroyEarly?
  }

  /** A thread with nothing to do polls, dozes off or wakes spuriously. */
  predicate Noise(s: State, a: Action) {
    ThreadAction(a) && a.t < |s.cells| && s.cells[a.t].status.WAITING?
  }

  lemma IdleStepRank(s: State, a: Action)
    requires Inv(s) && Enabled(s, a) && (a.ThreadPoll? || a.ThreadSleep? || a.ThreadSpurious?)
    ensures var c, c' := s.cells[a.t], Apply(s, a).cells[a.t];
            if Noise(s, a) then CellRank(c') == CellRank(c) else CellRank(c') < CellRank(c)
    ensures Apply(s, a).main == s.main && Apply(s, a).workerCount == s.workerCount
    ensures Apply(s, a).curr == s.curr && Apply(s, a).end == s.end
  {
    assert ThreadOk(s.main, s.workerCount, a.t, s.cells[a.t]);
    if s.cells[a.t].status.WORKING? { WorkingIsPosted(s, a.t); }
    hide JobOk, ThreadsOk, FieldsOk;
  }

  lemma ThreadRankStep(s: State, a: Action)
    requires Inv(s) && Enabled(s, a) && ThreadAction(a)
    ensures if Noise(s, a) then Rank(Apply(s, a)) == Rank(s) else Rank(Apply(s, a)) < Rank(s)
  {
    hide Inv, Enabled, Apply, CellRank, ThreadsRank, DoThreadStep;
    var s' := Apply(s, a);
    OnlyCellChanges(s, a);
    RankUpdate(s.cells, 1, a.t, s'.cells[a.t]);
    if a.ThreadStep? {
      WorkerInside(s, a.t);
      PhaseRankStep(s, a.t);
      StepIsThreadStep(s, a.t);
    } else {
      IdleStepRank(s, a);
    }
  }

  lemma OnlyCellChanges(s: State, a: Action)
    requires Enabled(s, a) && ThreadAction(a)
    ensures 1 <= a.t < |s.cells| == |Apply(s, a).cells| && Apply(s, a).restricted == s.restricted
    ensures Apply(s, a).cells == s.cells[a.t := Apply(s, a).cells[a.t]]
  {
  }

  lemma StepIsThreadStep(s: State, t: nat)
    requires Enabled(s, ThreadStep(t))
    ensures Apply(s, ThreadStep(t)) == DoThreadStep(s, t)
  {
  }

  lemma WorkerInside(s: State, t: nat)
    requires Inv(s) && Enabled(s, ThreadStep(t))
    ensures s.cells[t].status.WORKING? && !Noise(s, ThreadStep(t)) && s.workerCount > 0
    ensures !s.main.Write? && !s.main.Idle? && !Exiting(s.main)
  {
    assert ThreadOk(s.main, s.workerCount, t, s.cells[t]);
    WorkingIsPosted(s, t);
  }

  lemma PhaseRankStep(s: State, t: nat)
    requires Enabled(s, ThreadStep(t)) && s.cells[t].status.WORKING? && s.workerCount > 0
    ensures var s' := DoThreadStep(s, t);
            CellRank(s'.cells[t]) + 3 * Positive(s'.end - s'.curr) < CellRank(s.cells[t]) + 3 * Positive(s.end - s.curr)
    ensures DoThreadStep(s, t).main == s.main && DoThreadStep(s, t).workerCount == s.workerCount
  {
  }

  /** The one cell the calling thread touches, and by how much its rank changes. */
  lemma MainTouches(s: State, a: Action, i: nat)
    requires Inv(s) && Enabled(s, a) && !ThreadAction(a) && !NewCall(a) && i < |s.cells|
    requires s.main.Post? || s.main.Notify? || s.main.ExitPost? || s.main.ExitNotify? ==> i == s.main.i
    requires !(s.main.Post? || s.main.Notify? || s.main.ExitPost? || s.main.ExitNotify?) ==> i == 0
    ensures |Apply(s, a).cells| == |s.cells| && Apply(s, a).cells == s.cells[i := Apply(s, a).cells[i]]
    ensures i >= 1 ==>
      CellRank(Apply(s, a).cells[i]) <= CellRank(s.cells[i]) + (if a.PostOne? || a.ExitPostOne? then 14 else 0)
  {
    if i >= 1 { assert ThreadOk(s.main, s.workerCount, i, s.cells[i]); }
    hide JobOk, ThreadsOk, FieldsOk;
  }

  lemma MainLowersRank(s: State, a: Action)
    requires Inv(s) && Enabled(s, a) && !ThreadAction(a) && !NewCall(a)
    ensures var s' := Apply(s, a);
            MainRank(s') + 3 * Remaining(s') +
            (if (a.ExitPostOne? && s.main.i < |s.cells|) || (a.PostOne? && s.main.i < s.workerCount) then 14 else 0)
            < MainRank(s) + 3 * Remaining(s)
  {
    hide JobOk, ThreadsOk;
  }

  lemma MainRankStep(s: State, a: Action)
    requires Inv(s) && Enabled(s, a) && !ThreadAction(a) && !NewCall(a)
    ensures Rank(Apply(s, a)) < Rank(s)
  {
    var s' := Apply(s, a);
    MainLowersRank(s, a);
    var i := if s.main.Post? || s.main.Notify? || s.main.ExitPost? || s.main.ExitNotify? then s.main.i else 0;
    if i < |s.cells| {
      MainTouches(s, a, i);
      RankUpdate(s.cells, 1, i, s'.cells[i]);
      CellsUntouched(s, a);
    } else {
      CellsUntouched(s, a);
    }
    hide Inv, Enabled, Apply, CellRank, ThreadsRank, MainRank, Remaining;
  }

  lemma CellsUntouched(s: State, a: Action)
    requires Enabled(s, a)
    ensures a.PostOne? && s.main.i >= s.workerCount ==> Apply(s, a).cells == s.cells
    ensures a.ExitPostOne? && s.main.i >= |s.cells| ==> Apply(s, a).cells == s.cells
    ensures a.NotifyOne? || a.ExitNotifyOne? ==> s.main.i < |s.cells|
  {
  }

  lemma {:induction false} ThreadsRankNonneg(s: State)
    requires Inv(s)
    ensures Rank(s) >= 0
  {
    hide JobOk, ThreadsOk;
  }

  /**
   Every step of a call other than a waiting thread's idling lowers a measure that is never negative, and idling leaves
   it alone: no call goes on for ever, whatever the scheduler does.
   */
  lemma MeasureDecreases(s: State, a: Action)
    requires Inv(s) && Enabled(s, a) && !NewCall(a)
    ensures Rank(s) >= 0
    ensures if Noise(s, a) then Rank(Apply(s, a)) == Rank(s) else Rank(Apply(s, a)) < Rank(s)
  {
    ThreadsRankNonneg(s);
    if ThreadAction(a) { ThreadRankStep(s, a); } else { MainRankStep(s, a); }
  }

  /** Steps of a run that are not idling. */
  ghost function Productive(s: State, actions: seq<Action>): nat
    requires ValidRun(s, actions)
    decreases |actions|
  {
    if actions == [] then 0
    else (if Noise(s, actions[0]) then 0 else 1) + Productive(Apply(s, actions[0]), actions[1..])
  }

  /** Until the caller makes its next call, at most `Rank` steps of any run do anything. */
  lemma {:induction false} WorkIsBounded(s: State, actions: seq<Action>)
    requires Inv(s) && ValidRun(s, actions) && forall i | 0 <= i < |actions| :: !NewCall(actions[i])
    ensures Productive(s, actions) <= Rank(s)
    decreases |actions|
  {
    if actions == [] {
      ThreadsRankNonneg(s);
    } else {
      MeasureDecreases(s, actions[0]);
      StepKeeps(s, actions[0]);
      hide Inv, Apply, Enabled, Rank, Noise;
      WorkIsBounded(Apply(s, actions[0]), actions[1..]);
    }
  }

  /** A thread told to work or exit can act on it at once. */
  lemma ToldThreadCanMove(s: State, t: nat) returns (a: Action)
    requires Inv(s) && IsThread(s, t) && !s.cells[t].status.WAITING? && !s.cells[t].pc.Gone?
    requires s.main != Notify(t) && s.main != ExitNotify(t)
    ensures ThreadAction(a) && Enabled(s, a) && !Noise(s, a)
  {
    var c := s.cells[t];
    assert ThreadOk(s.main, s.workerCount, t, c);
    a := if c.pc.In? then ThreadStep(t) else if c.pc.Poll? then ThreadPoll(t, false) else ThreadSleep(t);
  }

  predicate Posting(m: Main) {
    m.Post? || m.ExitPost?
  }

  /** The mutex the dispatcher waits for is held by a thread on its way to sleep. */
  lemma HolderCanSleep(s: State)
    requires Inv(s) && Posting(s.main)
    requires !Enabled(s, if s.main.Post? then PostOne else ExitPostOne)
    ensures Enabled(s, ThreadSleep(s.main.i)) && s.main.i < |s.cells| && !LockFree(s.cells[s.main.i])
    ensures var s' := Apply(s, ThreadSleep(s.main.i));
            s'.main == s.main && |s'.cells| == |s.cells| && s'.cells[s.main.i] == SleepStep(s.cells[s.main.i])
  {
    hide JobOk, FieldsOk;
    if s.main.i == 0 {
      assert false;
    } else {
      assert ThreadOk(s.main, s.workerCount, s.main.i, s.cells[s.main.i]);
    }
  }

  /** The dispatcher can be kept from posting only by such a thread, which then releases the mutex. */
  lemma {:induction false} PostCanHappen(s: State) returns (actions: seq<Action>)
    requires Inv(s) && Posting(s.main)
    ensures |actions| <= 1 + (if s.main.i < |s.cells| then HoldTime(s.cells[s.main.i]) else 0)
    ensures ValidRun(s, actions) && Rank(RunTo(s, actions)) < Rank(s)
    ensures forall i | 0 <= i < |actions| :: !NewCall(actions[i])
    decreases if s.main.i < |s.cells| then HoldTime(s.cells[s.main.i]) else 0
  {
    hide Inv, Enabled, Apply, Rank;
    var post, i := if s.main.Post? then PostOne else ExitPostOne, s.main.i;
    if Enabled(s, post) {
      PostIsProductive(s, post);
      actions := OneStep(s, post);
    } else {
      HolderCanSleep(s);
      HoldEnds(s.cells[i]);
      StepKeeps(s, ThreadSleep(i));
      MeasureDecreases(s, ThreadSleep(i));
      actions := PostCanHappen(Apply(s, ThreadSleep(i)));
      actions := [ThreadSleep(i)] + actions;
    }
  }

  lemma PostIsProductive(s: State, post: Action)
    requires post.PostOne? || post.ExitPostOne?
    ensures !NewCall(post) && !Noise(s, post)
  {
  }

  lemma OneStep(s: State, a: Action) returns (actions: seq<Action>)
    requires Inv(s) && Enabled(s, a) && !NewCall(a) && !Noise(s, a)
    ensures actions == [a] && ValidRun(s, actions) && RunTo(s, actions) == Apply(s, a)
    ensures Rank(RunTo(s, actions)) < Rank(s)
  {
    actions := [a];
    MeasureDecreases(s, a);
    assert ValidRun(Apply(s, a), actions[1..]);
  }

  /** Outside the critical section the dispatcher can move, or the thread it waits for can. */
  lemma SomeoneCanMove(s: State) returns (a: Action)
    requires Inv(s) && !s.main.Idle? && !s.main.Destroyed? && !s.main.Crashed? && !Posting(s.main)
    ensures Enabled(s, a) && !NewCall(a) && !Noise(s, a)
  {
    match s.main
    case Write(_, _) => a := WriteField;
    case Notify(_) => a := NotifyOne;
    case ExitNotify(_) => a := ExitNotifyOne;
    case Own(_) => a := OwnStep;
    case Returned => a := CallWait;
    case Wait(i) =>
      a := WaitOne;
      if !Enabled(s, WaitOne) { a := ToldThreadCanMove(s, i); }
    case Join(i) =>
      a := JoinOne;
      if !Enabled(s, JoinOne) {
        assert ThreadOk(s.main, s.workerCount, i, s.cells[i]);
        a := ToldThreadCanMove(s, i);
      }
  }

  /**
   Deadlock freedom: while a call is in progress, or the pool is being destroyed, the threads by themselves can make
   the measure drop within three steps.
   */
  lemma CallCanProgress(s: State) returns (actions: seq<Action>)
    requires Inv(s) && !s.main.Idle? && !s.main.Destroyed? && !s.main.Crashed?
    ensures |actions| <= 3 && ValidRun(s, actions) && Rank(RunTo(s, actions)) < Rank(s)
    ensures forall i | 0 <= i < |actions| :: !NewCall(actions[i])
  {
    hide Inv, Apply, Enabled, Rank, ValidRun, RunTo;
    if Posting(s.main) {
      actions := PostCanHappen(s);
    } else {
      var a := SomeoneCanMove(s);
      actions := OneStep(s, a);
    }
  }

  // ---------- a pool of no threads ----------

  /** A call has begun and neither returned nor crashed. */
  predicate InCall(m: Main) {
    m.Write? || m.Post? || m.Own?
  }

  /** Nothing runs but the caller, and each of its steps lowers the measure. */
  lemma EmptyLowersRank(s: State, a: Action)
    requires EmptyOk(s) && InCall(s.main) && Enabled(s, a) && !NewCall(a)
    ensures 0 <= Rank(Apply(s, a)) < Rank(s) && EmptyOk(Apply(s, a))
    ensures InCall(Apply(s, a).main) || Apply(s, a).main.Crashed?
    ensures Apply(s, a).hist.limit == s.hist.limit && Apply(s, a).hist.asked == s.hist.asked
  {
  }

  lemma EmptyCanMove(s: State) returns (a: Action)
    requires EmptyOk(s) && InCall(s.main)
    ensures Enabled(s, a) && !NewCall(a)
  {
    a := if s.main.Write? then WriteField else if s.main.Post? then PostOne else OwnStep;
  }

  lemma CrashedStays(s: State, a: Action)
    requires EmptyOk(s) && s.main.Crashed?
    ensures !Enabled(s, a)
  {
  }

  /** However a call on an empty pool is scheduled, it takes no more steps than the measure says. */
  lemma {:induction false} EmptyWorkIsBounded(s: State, actions: seq<Action>)
    requires EmptyOk(s) && InCall(s.main) && ValidRun(s, actions)
    requires forall i | 0 <= i < |actions| :: !NewCall(actions[i])
    ensures |actions| <= Rank(s)
    ensures InCall(RunTo(s, actions).main) || RunTo(s, actions).main.Crashed?
    decreases |actions|
  {
    if actions == [] {
      EmptyRankNonneg(s);
    } else {
      var s' := Apply(s, actions[0]);
      EmptyLowersRank(s, actions[0]);
      hide EmptyOk, Enabled, Apply, Rank;
      if InCall(s'.main) {
        EmptyWorkIsBounded(s', actions[1..]);
      } else if actions[1..] != [] {
        CrashedStays(s', actions[1]);
        assert false;
      }
    }
  }

  lemma EmptyRankNonneg(s: State)
    requires EmptyOk(s) && InCall(s.main)
    ensures Rank(s) >= 0
  {
    var a := EmptyCanMove(s);
    EmptyLowersRank(s, a);
  }

  lemma EmptyCrash(s: State)
    requires EmptyOk(s) && s.main.Crashed?
    ensures WhyCrash(s.hist.limit, s.hist.asked, 0) == Some(s.main.why)
  {
  }

  /** Every call on an empty pool ends, and it ends in a crash. */
  lemma {:induction false} EmptyCallCrashes(s: State) returns (actions: seq<Action>)
    requires EmptyOk(s) && InCall(s.main)
    ensures ValidRun(s, actions) && DisciplinedRun(actions)
    ensures var s' := RunTo(s, actions);
            s'.main == Crashed(WhyCrash(s.hist.limit, s.hist.asked, 0).value)
    decreases Rank(s)
  {
    EmptyRankNonneg(s);
    hide EmptyOk, Enabled, Apply, Rank;
    var a := EmptyCanMove(s);
    EmptyLowersRank(s, a);
    actions := [];
    if InCall(Apply(s, a).main) {
      actions := EmptyCallCrashes(Apply(s, a));
    } else {
      EmptyCrash(Apply(s, a));
    }
    actions := [a] + actions;
  }

  /** From start-up: a pool of no threads divides by zero on its first job that has a task. */
  lemma EmptyPoolCrashes() returns (actions: seq<Action>)
    ensures ValidRun(InitState(0), actions) && RunTo(InitState(0), actions).main == Crashed(DivideByZero)
  {
    var s := Apply(InitState(0), StartJob(1));
    actions := EmptyCallCrashes(s);
    actions := [StartJob(1)] + actions;
  }
}
