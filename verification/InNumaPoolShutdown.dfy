/**
 Destroying a pool whose asynchronous job nobody waited for. EXIT is stored over WORKING, and a thread still inside the
 job stores WAITING over EXIT when it reports; the destructor then joins a thread that never leaves its loop. The exact
 condition for this not to happen is the one `wait` establishes: no other thread's status reads WORKING.
 */
module InNumaPoolShutdown {
  import opened Handshake
  import opened InNumaPool
  import opened InNumaPoolSafety
  import opened InNumaPoolTheorems

  /** Some schedule ends the destruction. */
  ghost predicate CanFinish(s: State) {
    exists more :: ValidRun(s, more) && RunTo(s, more).main.Destroyed?
  }

  lemma {:induction false} RunConcat(s: State, first: seq<Action>, second: seq<Action>)
    requires ValidRun(s, first) && ValidRun(RunTo(s, first), second)
    ensures ValidRun(s, first + second) && RunTo(s, first + second) == RunTo(RunTo(s, first), second)
    decreases |first|
  {
    if first == [] {
      assert first + second == second;
    } else {
      assert (first + second)[1..] == first[1..] + second;
      hide Apply, Enabled;
      RunConcat(Apply(s, first[0]), first[1..], second);
    }
  }

  lemma RunOne(s: State, a: Action)
    requires Enabled(s, a)
    ensures ValidRun(s, [a]) && RunTo(s, [a]) == Apply(s, a)
  {
    assert ValidRun(Apply(s, a), [a][1..]);
  }

  // ---------- a stranded thread ----------

  /** Thread `t` is being waited for, reads WAITING, and will never be told anything again. */
  predicate Stranded(s: State, t: nat) {
    && s.main.Join? && IsThread(s, t) && s.main.i <= t && s.workerCount != 0
    && s.cells[t].status.WAITING? && !s.cells[t].pc.Gone? && !s.cells[t].pc.In?
  }

  lemma {:induction false} StrandedStays(s: State, t: nat, actions: seq<Action>)
    requires Stranded(s, t) && ValidRun(s, actions)
    ensures Stranded(RunTo(s, actions), t)
    decreases |actions|
  {
    if actions != [] {
      assert Stranded(Apply(s, actions[0]), t);
      hide Stranded, Apply, Enabled;
      StrandedStays(Apply(s, actions[0]), t, actions[1..]);
    }
  }

  /** No schedule at all ends the destruction of a pool with a stranded thread. */
  lemma StrandedCannotFinish(s: State, t: nat)
    requires Stranded(s, t)
    ensures !CanFinish(s)
  {
    forall more | ValidRun(s, more) ensures !RunTo(s, more).main.Destroyed? {
      StrandedStays(s, t, more);
    }
  }

  // ---------- all other threads waiting: destruction ends ----------

  lemma OutsideWhenExiting(s: State, t: nat)
    requires Inv(s) && Exiting(s.main) && IsThread(s, t)
    ensures !s.cells[t].pc.In?
  {
    assert ThreadOk(s.main, s.workerCount, t, s.cells[t]);
  }

  lemma ExitingStays(s: State, a: Action)
    requires Inv(s) && Exiting(s.main) && Enabled(s, a)
    ensures Disciplined(a) && Exiting(Apply(s, a).main)
  {
    if ThreadAction(a) { OutsideWhenExiting(s, a.t); }
    hide JobOk, FieldsOk, ThreadsOk;
  }

  lemma {:induction false} ExitRunKeeps(s: State, actions: seq<Action>)
    requires Inv(s) && Exiting(s.main) && ValidRun(s, actions)
    ensures Inv(RunTo(s, actions)) && Exiting(RunTo(s, actions).main)
    decreases |actions|
  {
    if actions != [] {
      ExitingStays(s, actions[0]);
      StepKeeps(s, actions[0]);
      hide Inv, Apply, Enabled, Exiting;
      ExitRunKeeps(Apply(s, actions[0]), actions[1..]);
    }
  }

  /** A destruction that keeps the invariant can always be brought to its end. */
  lemma {:induction false} DestructionEnds(s: State)
    requires Inv(s) && Exiting(s.main)
    ensures CanFinish(s)
    decreases Rank(s)
  {
    hide Inv, Apply, Enabled, Rank, RunTo, ValidRun;
    ThreadsRankNonneg(s);
    if s.main.Destroyed? {
      NoSteps(s);
      assert ValidRun(s, []) && RunTo(s, []).main.Destroyed?;
    } else {
      var some := CallCanProgress(s);
      var s' := RunTo(s, some);
      ExitRunKeeps(s, some);
      ThreadsRankNonneg(s');
      DestructionEnds(s');
      var more :| ValidRun(s', more) && RunTo(s', more).main.Destroyed?;
      RunConcat(s, some, more);
      assert ValidRun(s, some + more) && RunTo(s, some + more).main.Destroyed?;
    }
  }

  lemma NoSteps(s: State)
    ensures ValidRun(s, []) && RunTo(s, []) == s
  {
  }

  predicate OthersWaiting(s: State) {
    forall t | 1 <= t < |s.cells| :: s.cells[t].status.WAITING?
  }

  lemma WaitingIsEnough(s: State)
    requires Inv(s) && s.main.Returned? && OthersWaiting(s)
    ensures Inv(Apply(s, DestroyEarly)) && Exiting(Apply(s, DestroyEarly).main)
  {
    var s' := Apply(s, DestroyEarly);
    forall t | 1 <= t < |s.cells| ensures ThreadOk(s'.main, s'.workerCount, t, s'.cells[t]) {
      assert ThreadOk(s.main, s.workerCount, t, s.cells[t]);
    }
  }

  // ---------- some thread working: a schedule strands it ----------

  /** Thread `t` is inside the job, or on its way there, with the destructor about to start. */
  predicate Busy(s: State, t: nat) {
    && s.main == ExitPost(0) && IsThread(s, t) && s.cells[0].pc.Poll? && s.workerCount > 0
    && s.cells[t].status.WORKING?
    && !s.cells[t].pc.Drowse? && !s.cells[t].pc.Asleep? && !s.cells[t].pc.Gone?
  }

  function Work(s: State, t: nat): nat
    requires t < |s.cells|
  {
    CellRank(s.cells[t]) + 3 * Positive(s.end - s.curr)
  }

  lemma BusyMoves(s: State, t: nat) returns (a: Action)
    requires Busy(s, t) && s.cells[t].pc != In(Report)
    ensures Enabled(s, a) && Busy(Apply(s, a), t) && Work(Apply(s, a), t) < Work(s, t)
  {
    var pc := s.cells[t].pc;
    a := if pc.In? then ThreadStep(t) else if pc.Poll? then ThreadPoll(t, false) else ThreadSleep(t);
    if a.ThreadStep? {
      PhaseRankStep(s, t);
    }
  }

  /** Let alone, it comes to its report. */
  lemma {:induction false} ReachReport(s: State, t: nat) returns (run: seq<Action>)
    requires Busy(s, t)
    ensures ValidRun(s, run) && Busy(RunTo(s, run), t) && RunTo(s, run).cells[t].pc == In(Report)
    decreases Work(s, t)
  {
    hide Enabled, Apply;
    if s.cells[t].pc == In(Report) {
      run := [];
    } else {
      var a := BusyMoves(s, t);
      run := ReachReport(Apply(s, a), t);
      run := [a] + run;
    }
  }

  /** Exits are being posted while thread `t` is about to report. */
  predicate Posting(s: State, t: nat) {
    && s.main.ExitPost? && s.main.i <= |s.cells| && IsThread(s, t) && s.cells[0].pc.Poll? && s.workerCount > 0
    && s.cells[t].pc == In(Report)
  }

  function HeldFor(s: State): nat
    requires s.main.ExitPost?
  {
    if s.main.i < |s.cells| then HoldTime(s.cells[s.main.i]) else 0
  }

  lemma {:induction false} PostExits(s: State, t: nat) returns (run: seq<Action>)
    requires Posting(s, t)
    ensures ValidRun(s, run)
    ensures var s' := RunTo(s, run);
            s'.main == Join(0) && IsThread(s', t) && s'.cells[t].pc == In(Report) && s'.workerCount > 0
    decreases |s.cells| - s.main.i, HeldFor(s)
  {
    var i := s.main.i;
    if i == |s.cells| {
      run := [ExitPostOne];
      RunOne(s, ExitPostOne);
    } else if LockFree(s.cells[i]) {
      var s1 := Apply(s, ExitPostOne);
      var s2 := Apply(s1, ExitNotifyOne);
      RunOne(s, ExitPostOne);
      RunOne(s1, ExitNotifyOne);
      RunConcat(s, [ExitPostOne], [ExitNotifyOne]);
      assert Posting(s2, t);
      run := PostExits(s2, t);
      RunConcat(s, [ExitPostOne] + [ExitNotifyOne], run);
      run := [ExitPostOne] + [ExitNotifyOne] + run;
    } else {
      HoldEnds(s.cells[i]);
      RunOne(s, ThreadSleep(i));
      run := PostExits(Apply(s, ThreadSleep(i)), t);
      RunConcat(s, [ThreadSleep(i)], run);
      run := [ThreadSleep(i)] + run;
    }
  }

  /** The report overwrites EXIT. */
  lemma ReportStrands(s: State, t: nat)
    requires s.main == Join(0) && IsThread(s, t) && s.cells[t].pc == In(Report) && s.workerCount > 0
    ensures Enabled(s, ThreadStep(t)) && Stranded(Apply(s, ThreadStep(t)), t)
  {
  }

  lemma WorkingIsBusy(s: State, t: nat)
    requires Inv(s) && s.main.Returned? && IsThread(s, t) && !s.cells[t].status.WAITING?
    ensures Enabled(s, DestroyEarly) && Busy(Apply(s, DestroyEarly), t)
  {
    assert ThreadOk(s.main, s.workerCount, t, s.cells[t]);
    WorkingIsPosted(s, t);
    hide JobOk, ThreadsOk;
  }

  /** A schedule after which nothing ends the destruction any more. */
  lemma EarlyDestroyStrands(s: State, t: nat) returns (more: seq<Action>)
    requires Inv(s) && s.main.Returned? && IsThread(s, t) && !s.cells[t].status.WAITING?
    ensures ValidRun(s, [DestroyEarly] + more) && Stranded(RunTo(s, [DestroyEarly] + more), t)
  {
    hide Inv, Busy, Apply, Enabled, RunTo, ValidRun, Stranded, IsThread;
    WorkingIsBusy(s, t);
    RunOne(s, DestroyEarly);
    var s1 := Apply(s, DestroyEarly);
    more := ReachReport(s1, t);
    RunConcat(s, [DestroyEarly], more);
    var s2 := RunTo(s1, more);
    BusyIsPosting(s2, t);
    var posts := PostExits(s2, t);
    var s3 := RunTo(s2, posts);
    RunConcat(s1, more, posts);
    ReportStrands(s3, t);
    RunOne(s3, ThreadStep(t));
    RunConcat(s1, more + posts, [ThreadStep(t)]);
    more := more + posts + [ThreadStep(t)];
    RunConcat(s, [DestroyEarly], more);
  }

  lemma BusyIsPosting(s: State, t: nat)
    requires Busy(s, t) && s.cells[t].pc == In(Report)
    ensures Posting(s, t)
  {
  }

  // ---------- the exact condition ----------

  /**
   After an asynchronous dispatch, destroying the pool without waiting is safe if and only if every other thread's
   status already reads WAITING: then every schedule can still be brought to an end, and otherwise some schedule cannot.
   */
  lemma EarlyDestroyIsSafeIff(total: nat, actions: seq<Action>)
    requires Reachable(total, actions) && Reached(total, actions).main.Returned?
    ensures var s := Reached(total, actions);
            OthersWaiting(s) <==>
            forall more | ValidRun(s, [DestroyEarly] + more) :: CanFinish(RunTo(s, [DestroyEarly] + more))
  {
    ReachedInv(total, actions);
    SafeIff(Reached(total, actions));
  }

  lemma SafeIff(s: State)
    requires Inv(s) && s.main.Returned?
    ensures OthersWaiting(s) <==>
            forall more | ValidRun(s, [DestroyEarly] + more) :: CanFinish(RunTo(s, [DestroyEarly] + more))
  {
    hide Inv, Apply, Enabled, CanFinish, Stranded;
    if OthersWaiting(s) {
      forall more | ValidRun(s, [DestroyEarly] + more) ensures CanFinish(RunTo(s, [DestroyEarly] + more)) {
        assert ([DestroyEarly] + more)[1..] == more;
        WaitingIsEnough(s);
        ExitRunKeeps(Apply(s, DestroyEarly), more);
        DestructionEnds(RunTo(s, [DestroyEarly] + more));
      }
    } else {
      var t :| 1 <= t < |s.cells| && !s.cells[t].status.WAITING?;
      var more := EarlyDestroyStrands(s, t);
      StrandedCannotFinish(RunTo(s, [DestroyEarly] + more), t);
    }
  }

  // ---------- it happens ----------

  /** The calling thread can finish its own part first. */
  lemma {:induction false} OwnPartEnds(s: State) returns (run: seq<Action>)
    requires s.main.Own? && |s.cells| > 0 && s.workerCount > 0
    ensures ValidRun(s, run) && forall i | 0 <= i < |run| :: run[i] == OwnStep
    ensures RunTo(s, run).main.Returned? && |RunTo(s, run).cells| == |s.cells|
    ensures RunTo(s, run).cells[1..] == s.cells[1..]
    decreases PhaseRank(s.main.phase) + 3 * Positive(s.end - s.curr)
  {
    var s' := Apply(s, OwnStep);
    RunOne(s, OwnStep);
    if s.main.phase.Report? {
      run := [OwnStep];
    } else {
      run := OwnPartEnds(s');
      RunConcat(s, [OwnStep], run);
      run := [OwnStep] + run;
    }
  }

  /** A job of two tasks, as far as the dispatcher's first post. */
  lemma WriteFields() returns (run: seq<Action>)
    ensures ValidRun(InitState(2), run) && DisciplinedRun(run)
    ensures var s := RunTo(InitState(2), run);
            s.main == Post(0) && s.workerCount == 2 && s.cells == InitState(2).cells
  {
    run := [StartJob(2), WriteField, WriteField, WriteField, WriteField];
    var s := Apply(InitState(2), StartJob(2));
    assert run[1..][1..][1..][1..][1..] == [];
    assert Apply(Apply(s, WriteField), WriteField).main == Write(2, 2);
  }

  lemma PostBoth(s: State) returns (run: seq<Action>)
    requires s.main == Post(0) && s.workerCount == 2 && s.cells == InitState(2).cells
    ensures ValidRun(s, run) && DisciplinedRun(run)
    ensures var s' := RunTo(s, run);
            s'.main == Own(Init) && s'.workerCount == 2 && |s'.cells| == 2 && s'.cells[1] == Cell(WORKING, Poll)
  {
    run := [PostOne, NotifyOne, PostOne, NotifyOne, PostOne];
    assert run[1..][1..][1..][1..][1..] == [];
    assert Apply(Apply(s, PostOne), NotifyOne).main == Post(1);
  }

  /** From start-up: a pool of two threads whose asynchronous job has returned, the other thread still told to work. */
  lemma AsynchronousJob() returns (actions: seq<Action>)
    ensures Reachable(2, actions)
    ensures var s := Reached(2, actions); s.main.Returned? && |s.cells| == 2 && s.cells[1] == Cell(WORKING, Poll)
  {
    hide Apply, Enabled, RunTo, ValidRun;
    var start := InitState(2);
    var written := WriteFields();
    var posted := PostBoth(RunTo(start, written));
    RunConcat(start, written, posted);
    var own := OwnPartEnds(RunTo(start, written + posted));
    RunConcat(start, written + posted, own);
    actions := written + posted + own;
    var s := RunTo(start, actions);
    assert s.cells[1] == s.cells[1..][0] == RunTo(start, written + posted).cells[1..][0];
  }

  /** One asynchronous job, destroyed at once, and it never ends. */
  lemma EarlyDestroyCanHang() returns (actions: seq<Action>)
    ensures ValidRun(InitState(2), actions) && Stranded(RunTo(InitState(2), actions), 1)
    ensures !CanFinish(RunTo(InitState(2), actions))
  {
    hide Apply, Enabled, RunTo, ValidRun, CanFinish, Stranded, Inv, IsThread;
    actions := AsynchronousJob();
    ReachedInv(2, actions);
    var s := Reached(2, actions);
    OneIsThread(s);
    var more := EarlyDestroyStrands(s, 1);
    RunConcat(InitState(2), actions, [DestroyEarly] + more);
    StrandedCannotFinish(RunTo(s, [DestroyEarly] + more), 1);
    actions := actions + ([DestroyEarly] + more);
  }

  lemma OneIsThread(s: State)
    ensures |s.cells| == 2 ==> IsThread(s, 1)
  {
  }
}
