/**
 A second job dispatched before the first, asynchronous one was waited for. The dispatcher writes the functions, the
 counter and the end at once, whoever is still inside. The exact condition for no field to change under a thread is
 again the one `wait` establishes: no other thread's status reads WORKING.
 */
module InNumaPoolOverlap {
  import opened Handshake
  import opened InNumaPool
  import opened InNumaPoolSafety
  import opened InNumaPoolTheorems
  import opened InNumaPoolShutdown

  /** A second call followed by anything that waits for its jobs from then on. */
  ghost predicate SecondCall(s: State, n: int, more: seq<Action>) {
    ValidRun(s, [StartEarly(n)] + more) && DisciplinedRun(more)
  }

  // ---------- all other threads waiting: as good as having waited ----------

  lemma AsIfWaitedFor(s: State)
    requires Inv(s) && s.main.Returned? && OthersWaiting(s)
    ensures Inv(s.(main := Idle))
  {
    var s' := s.(main := Idle);
    assert Stages(s') == Stages(s);
    hide MembersOk, ClaimsOk, CounterOk;
    forall t | 1 <= t < |s.cells| ensures ThreadOk(s'.main, s'.workerCount, t, s'.cells[t]) {
      assert ThreadOk(s.main, s.workerCount, t, s.cells[t]);
    }
  }

  /** Every guarantee of a job that was waited for then holds of the second call and of all that follow. */
  lemma SecondCallKeepsInv(s: State, n: int, more: seq<Action>)
    requires Inv(s) && s.main.Returned? && OthersWaiting(s) && SecondCall(s, n, more)
    ensures Inv(RunTo(s, [StartEarly(n)] + more))
  {
    assert ([StartEarly(n)] + more)[1..] == more;
    AsIfWaitedFor(s);
    assert Apply(s, StartEarly(n)) == Apply(s.(main := Idle), StartJob(n));
    StepKeeps(s.(main := Idle), StartJob(n));
    hide Inv, Apply, Enabled;
    RunKeepsInv(Apply(s, StartEarly(n)), more);
  }

  // ---------- some thread working: a schedule races ----------

  /** The second call is about to write its first field, and thread `t` has been told to work on the first job. */
  predicate Entering(s: State, t: nat) {
    && s.main.Write? && IsThread(s, t) && s.cells[t].status.WORKING?
    && !s.cells[t].pc.Drowse? && !s.cells[t].pc.Asleep? && !s.cells[t].pc.Gone?
  }

  /** Thread `t` comes to be inside the job, and the field is written under it. */
  lemma {:induction false} EnterAndWrite(s: State, t: nat) returns (run: seq<Action>)
    requires Entering(s, t)
    ensures ValidRun(s, run) && DisciplinedRun(run) && RunTo(s, run).hist.race
    decreases Distance(s.cells[t])
  {
    if s.cells[t].pc.In? {
      run := [WriteField];
      assert SomeoneInside(s);
      RunOne(s, WriteField);
    } else {
      var a := if s.cells[t].pc.Poll? then ThreadPoll(t, false) else ThreadSleep(t);
      run := EnterAndWrite(Apply(s, a), t);
      RunOne(s, a);
      RunConcat(s, [a], run);
      run := [a] + run;
    }
  }

  lemma WorkingWillEnter(s: State, t: nat, n: int)
    requires Inv(s) && s.main.Returned? && IsThread(s, t) && !s.cells[t].status.WAITING?
    ensures Enabled(s, StartEarly(n)) && Entering(Apply(s, StartEarly(n)), t)
  {
    assert ThreadOk(s.main, s.workerCount, t, s.cells[t]);
    hide JobOk, ThreadsOk;
  }

  lemma SecondCallRaces(s: State, t: nat, n: int) returns (more: seq<Action>)
    requires Inv(s) && s.main.Returned? && IsThread(s, t) && !s.cells[t].status.WAITING?
    ensures SecondCall(s, n, more) && RunTo(s, [StartEarly(n)] + more).hist.race
  {
    hide Inv, Apply, Enabled, Entering, RunTo, ValidRun, DisciplinedRun;
    WorkingWillEnter(s, t, n);
    RunOne(s, StartEarly(n));
    more := EnterAndWrite(Apply(s, StartEarly(n)), t);
    RunConcat(s, [StartEarly(n)], more);
  }

  // ---------- the exact condition ----------

  /**
   After an asynchronous dispatch, a second call is safe if and only if every other thread's status already reads
   WAITING: then no schedule ever changes a job field under a thread, and otherwise some schedule does.
   */
  lemma SecondCallIsSafeIff(total: nat, actions: seq<Action>, n: int)
    requires Reachable(total, actions) && Reached(total, actions).main.Returned?
    ensures var s := Reached(total, actions);
            OthersWaiting(s) <==>
            forall more | SecondCall(s, n, more) :: !RunTo(s, [StartEarly(n)] + more).hist.race
  {
    ReachedInv(total, actions);
    var s := Reached(total, actions);
    hide Inv, Apply, Enabled, RunTo, SecondCall;
    if OthersWaiting(s) {
      forall more | SecondCall(s, n, more) ensures !RunTo(s, [StartEarly(n)] + more).hist.race {
        SecondCallKeepsInv(s, n, more);
        InvHasNoRace(RunTo(s, [StartEarly(n)] + more));
      }
    } else {
      var t :| 1 <= t < |s.cells| && !s.cells[t].status.WAITING?;
      var more := SecondCallRaces(s, t, n);
    }
  }

  lemma InvHasNoRace(s: State)
    requires Inv(s)
    ensures !s.hist.race
  {
  }

  /** From start-up: a pool of two threads, one asynchronous job and a second one at once. */
  lemma SecondCallCanRace(n: int) returns (actions: seq<Action>)
    ensures ValidRun(InitState(2), actions) && RunTo(InitState(2), actions).hist.race
  {
    hide Apply, Enabled, RunTo, ValidRun, Inv, IsThread;
    actions := AsynchronousJob();
    ReachedInv(2, actions);
    var s := Reached(2, actions);
    OneIsThread(s);
    var more := SecondCallRaces(s, 1, n);
    RunConcat(InitState(2), actions, [StartEarly(n)] + more);
    actions := actions + ([StartEarly(n)] + more);
  }
}
