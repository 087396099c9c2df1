/**
 The distributor never hangs: start-up, every `do_numa_job` and destruction come to an end, because a measure drops with
 every step other than a waiting thread's idling, and some step that lowers it is always near.
 */
module NumaJobDistributorProgress {
  import opened FiniteSets
  import opened Options
  import opened Handshake
  import opened NumaJobDistributor

  function BootRank(b: Boot): nat {
    match b
    case Creating => 3
    case Arriving => 2
    case Blocked => 1
    case Past => 0
  }

  function CellRank(c: Cell<Phase>): nat {
    if c.pc.In? then (if c.pc.phase.Calling? then 2 else 1)
    else if c.status.WAITING? || c.pc.Gone? then 0
    else 3 + Distance(c)
  }

  function ThreadRank(th: Thread): nat {
    BootRank(th.boot) + if th.cell.Some? then CellRank(th.cell.value) else 0
  }

  function ThreadsRank(threads: seq<Thread>): nat {
    if threads == [] then 0 else ThreadsRank(threads[..|threads| - 1]) + ThreadRank(threads[|threads| - 1])
  }

  function MainRank(m: Main, n: nat): int {
    match m
    case Starting => 2
    case AtBarrier => 1
    case Idle => 0
    case WriteFunction => 11 * n + 3
    case Post(i) => 10 * (n - i) + n + 2
    case Notify(i) => 10 * (n - i - 1) + n + 4
    case Wait(i) => n - i + 1
    case ExitPost(i) => 10 * (n - i) + n + 2
    case ExitNotify(i) => 10 * (n - i - 1) + n + 4
    case Join(i) => n - i + 1
    case Destroyed => 0
  }

  function Rank(s: State): int {
    MainRank(s.main, |s.threads|) + ThreadsRank(s.threads)
  }

  predicate NewCall(a: Action) {
    a.StartJob? || a.Destroy?
  }

  /** A waiting thread polls, dozes off or wakes spuriously. */
  predicate Noise(s: State, a: Action) {
    (a.Look? || a.Sleep? || a.Spurious?) && Has(s, a.t) && s.threads[a.t].cell.value.status.WAITING?
  }

  lemma {:induction false} RankUpdate(threads: seq<Thread>, t: nat, th: Thread)
    requires t < |threads|
    ensures ThreadsRank(threads[t := th]) == ThreadsRank(threads) - ThreadRank(threads[t]) + ThreadRank(th)
  {
    var last := |threads| - 1;
    if t == last {
      assert threads[t := th][..last] == threads[..last];
    } else {
      assert threads[t := th][..last] == threads[..last][t := th];
      RankUpdate(threads[..last], t, th);
    }
  }

  lemma {:induction false} SameRank(threads: seq<Thread>, threads': seq<Thread>)
    requires |threads| == |threads'|
    requires forall t | 0 <= t < |threads| :: ThreadRank(threads[t]) == ThreadRank(threads'[t])
    ensures ThreadsRank(threads) == ThreadsRank(threads')
  {
    if threads != [] {
      SameRank(threads[..|threads| - 1], threads'[..|threads| - 1]);
    }
  }

  lemma OnlyThreadChanges(s: State, a: Action)
    requires Enabled(s, a) && ThreadAction(a)
    ensures a.t < |s.threads| && |Apply(s, a).threads| == |s.threads| && Apply(s, a).main == s.main
    ensures Apply(s, a).threads == s.threads[a.t := Apply(s, a).threads[a.t]]
  {
  }

  lemma BootStepRank(s: State, a: Action)
    requires Enabled(s, a) && BootAction(a) && a.t < |s.threads| == |Apply(s, a).threads|
    requires s.threads[a.t].boot.Creating? <==> s.threads[a.t].cell.None?
    ensures ThreadRank(Apply(s, a).threads[a.t]) < ThreadRank(s.threads[a.t])
  {
  }

  lemma LoopStepRank(s: State, a: Action)
    requires Enabled(s, a) && ThreadAction(a) && !BootAction(a) && a.t < |s.threads| == |Apply(s, a).threads|
    requires ThreadOk(s.main, |s.threads|, s.jobs, s.arrivals, Open(s), a.t, s.threads[a.t])
    ensures var r, r' := ThreadRank(s.threads[a.t]), ThreadRank(Apply(s, a).threads[a.t]);
            if Noise(s, a) then r' == r else r' < r
  {
    hide CallsOk;
  }

  lemma ThreadStepChanges(s: State, a: Action)
    requires Inv(s) && Enabled(s, a) && ThreadAction(a)
    ensures a.t < |s.threads| && |Apply(s, a).threads| == |s.threads| && Apply(s, a).main == s.main
    ensures Apply(s, a).threads == s.threads[a.t := Apply(s, a).threads[a.t]]
    ensures var r, r' := ThreadRank(s.threads[a.t]), ThreadRank(Apply(s, a).threads[a.t]);
            if Noise(s, a) then r' == r else r' < r
  {
    hide Apply, Enabled, ThreadRank, MainOk, StatusOk, CallsOk;
    OnlyThreadChanges(s, a);
    assert ThreadOk(s.main, |s.threads|, s.jobs, s.arrivals, Open(s), a.t, s.threads[a.t]);
    if BootAction(a) { BootStepRank(s, a); } else { LoopStepRank(s, a); }
  }

  predicate TouchesThread(s: State, a: Action) {
    a.NotifyOne? || a.ExitNotifyOne? || ((a.PostOne? || a.ExitPostOne?) && Enabled(s, a) && s.main.i < |s.threads|)
  }

  /** Posting raises the rank of one thread by at most seven; notifying does not raise it. */
  lemma MainTouches(s: State, a: Action)
    requires Inv(s) && Enabled(s, a) && TouchesThread(s, a)
    ensures var i := s.main.i;
            && i < |s.threads| && |Apply(s, a).threads| == |s.threads|
            && Apply(s, a).threads == s.threads[i := Apply(s, a).threads[i]]
            && ThreadRank(Apply(s, a).threads[i]) <=
               ThreadRank(s.threads[i]) + if a.PostOne? || a.ExitPostOne? then 7 else 0
  {
    var i := s.main.i;
    AllReady(s);
    assert ThreadOk(s.main, |s.threads|, s.jobs, s.arrivals, Open(s), i, s.threads[i]);
    hide ThreadsOk;
  }

  lemma MainLeavesThreads(s: State, a: Action)
    requires Inv(s) && Enabled(s, a) && !ThreadAction(a) && !TouchesThread(s, a)
    ensures |Apply(s, a).threads| == |s.threads|
    ensures forall t | 0 <= t < |s.threads| :: ThreadRank(Apply(s, a).threads[t]) == ThreadRank(s.threads[t])
  {
    if a.WaitOne? { AllReady(s); }
    hide ThreadsOk;
  }

  lemma MainLowersRank(s: State, a: Action)
    requires Inv(s) && Enabled(s, a) && !ThreadAction(a) && !NewCall(a)
    ensures var n := |s.threads|;
            MainRank(Apply(s, a).main, n) + (if TouchesThread(s, a) && (a.PostOne? || a.ExitPostOne?) then 7 else 0)
            < MainRank(s.main, n)
  {
    hide ThreadsOk;
  }

  lemma RankNonneg(s: State)
    requires Inv(s)
    ensures Rank(s) >= 0
  {
    hide ThreadsOk, ThreadsRank;
  }

  /**
   Every step until the caller's next call lowers a measure that is never negative, unless it is a waiting thread's
   idling, which leaves it alone.
   */
  lemma MeasureDecreases(s: State, a: Action)
    requires Inv(s) && Enabled(s, a) && !NewCall(a)
    ensures Rank(s) >= 0
    ensures if Noise(s, a) then Rank(Apply(s, a)) == Rank(s) else Rank(Apply(s, a)) < Rank(s)
  {
    RankNonneg(s);
    var s' := Apply(s, a);
    if ThreadAction(a) {
      ThreadStepChanges(s, a);
      RankUpdate(s.threads, a.t, s'.threads[a.t]);
    } else {
      MainLowersRank(s, a);
      if TouchesThread(s, a) {
        MainTouches(s, a);
        RankUpdate(s.threads, s.main.i, s'.threads[s.main.i]);
      } else {
        MainLeavesThreads(s, a);
        SameRank(s.threads, s'.threads);
      }
    }
    hide Inv, Enabled, Apply, ThreadRank, ThreadsRank, MainRank, TouchesThread;
  }

  /** While the barrier is shut, some thread has yet to arrive and can move towards it. */
  lemma ShutMeansSomeoneComes(s: State) returns (a: Action)
    requires Inv(s) && s.main.AtBarrier? && !Open(s)
    ensures Enabled(s, a) && ThreadAction(a) && !Noise(s, a)
  {
    var n := |s.threads|;
    if t: nat :| t < n && t !in s.arrivals {
      assert ThreadOk(s.main, n, s.jobs, s.arrivals, Open(s), t, s.threads[t]);
      a := if s.threads[t].boot.Creating? then Create(t) else Arrive(t);
    } else {
      LargeSet(s.arrivals, n + 1);
      SmallSet(s.arrivals, n + 1);
      assert false;
    }
  }

  /** A thread told to work or exit can act on it at once. */
  lemma ToldThreadCanMove(s: State, t: nat) returns (a: Action)
    requires Inv(s) && (s.main.Wait? || s.main.Join?) && t < |s.threads|
    requires Has(s, t) && !s.threads[t].cell.value.status.WAITING? && !s.threads[t].cell.value.pc.Gone?
    ensures Enabled(s, a) && ThreadAction(a) && !Noise(s, a)
  {
    var th := s.threads[t];
    AllReady(s);
    assert ThreadOk(s.main, |s.threads|, s.jobs, s.arrivals, Open(s), t, th);
    var pc := th.cell.value.pc;
    assert StatusOk(s.main, |s.threads|, t, th.cell.value) && !pc.Asleep?;
    assert pc.In? ==> pc.phase.Calling? || pc.phase.Reporting?;
    a := if th.boot.Arriving? then Arrive(t) else if th.boot.Blocked? then Pass(t)
         else if pc == In(Calling) then Call(t) else if pc == In(Reporting) then Report(t)
         else if pc.Poll? then Look(t, false) else Sleep(t);
  }

  lemma OneStep(s: State, a: Action) returns (actions: seq<Action>)
    requires Inv(s) && Enabled(s, a) && !NewCall(a) && !Noise(s, a)
    ensures actions == [a] && ValidRun(s, actions) && RunTo(s, actions) == Apply(s, a)
    ensures Rank(RunTo(s, actions)) < Rank(s)
  {
    actions := [a];
    MeasureDecreases(s, a);
    assert ValidRun(Apply(s, a), actions[1..]);
  }

  predicate Posting(m: Main) {
    m.Post? || m.ExitPost?
  }

  function HeldFor(s: State): nat {
    if Posting(s.main) && Has(s, s.main.i) then HoldTime(s.threads[s.main.i].cell.value) else 0
  }

  /** The mutex the dispatcher waits for is held by a thread on its way to sleep. */
  lemma HolderCanSleep(s: State)
    requires Inv(s) && Posting(s.main)
    requires !Enabled(s, if s.main.Post? then PostOne else ExitPostOne)
    ensures Enabled(s, Sleep(s.main.i)) && Apply(s, Sleep(s.main.i)).main == s.main
    ensures HeldFor(Apply(s, Sleep(s.main.i))) < HeldFor(s) <= 2
  {
    AllReady(s);
    assert ThreadOk(s.main, |s.threads|, s.jobs, s.arrivals, Open(s), s.main.i, s.threads[s.main.i]);
    HoldEnds(s.threads[s.main.i].cell.value);
  }

  /** Only such a thread keeps the dispatcher from posting, and it lets go within two steps. */
  lemma {:induction false} PostCanHappen(s: State) returns (actions: seq<Action>)
    requires Inv(s) && Posting(s.main)
    ensures |actions| <= 1 + HeldFor(s) && ValidRun(s, actions) && Rank(RunTo(s, actions)) < Rank(s)
    ensures forall i | 0 <= i < |actions| :: !NewCall(actions[i])
    decreases HeldFor(s)
  {
    hide Inv, Enabled, Apply, Rank, HeldFor;
    var post, i := if s.main.Post? then PostOne else ExitPostOne, s.main.i;
    if Enabled(s, post) {
      actions := OneStep(s, post);
    } else {
      HolderCanSleep(s);
      ThreadStepKeeps(s, Sleep(i));
      MeasureDecreases(s, Sleep(i));
      actions := PostCanHappen(Apply(s, Sleep(i)));
      actions := [Sleep(i)] + actions;
    }
  }

  lemma HeldForAtMostTwo(s: State)
    ensures HeldFor(s) <= 2
  {
  }

  /**
   Deadlock freedom: during start-up, a job or destruction, the threads by themselves can lower the measure within three
   steps. With `MeasureDecreases`, each of the three ends, and a destroyed distributor has no thread left.
   */
  lemma CallCanProgress(n: nat, run: seq<Action>) returns (actions: seq<Action>)
    requires ValidRun(InitState(n), run)
    requires var s := RunTo(InitState(n), run); !s.main.Idle? && !s.main.Destroyed?
    ensures var s := RunTo(InitState(n), run);
            |actions| <= 3 && ValidRun(s, actions) && Rank(RunTo(s, actions)) < Rank(s)
    ensures forall i | 0 <= i < |actions| :: !NewCall(actions[i])
  {
    InitInv(n);
    RunKeepsInv(InitState(n), run);
    actions := InvCanProgress(RunTo(InitState(n), run));
  }

  lemma InvCanProgress(s: State) returns (actions: seq<Action>)
    requires Inv(s) && !s.main.Idle? && !s.main.Destroyed?
    ensures |actions| <= 3 && ValidRun(s, actions) && Rank(RunTo(s, actions)) < Rank(s)
    ensures forall i | 0 <= i < |actions| :: !NewCall(actions[i])
  {
    match s.main
    case Starting => actions := OneStep(s, MainArrive);
    case AtBarrier =>
      if Open(s) {
        actions := OneStep(s, MainPass);
      } else {
        var a := ShutMeansSomeoneComes(s);
        actions := OneStep(s, a);
      }
    case WriteFunction => actions := OneStep(s, WriteOne);
    case Post(_) =>
      HeldForAtMostTwo(s);
      actions := PostCanHappen(s);
    case ExitPost(_) =>
      HeldForAtMostTwo(s);
      actions := PostCanHappen(s);
    case Notify(_) => actions := OneStep(s, NotifyOne);
    case ExitNotify(_) => actions := OneStep(s, ExitNotifyOne);
    case Wait(i) =>
      if Enabled(s, WaitOne) {
        actions := OneStep(s, WaitOne);
      } else {
        AllReady(s);
        assert ThreadOk(s.main, |s.threads|, s.jobs, s.arrivals, Open(s), i, s.threads[i]);
        var a := ToldThreadCanMove(s, i);
        actions := OneStep(s, a);
      }
    case Join(i) =>
      if Enabled(s, JoinOne) {
        actions := OneStep(s, JoinOne);
      } else {
        AllReady(s);
        assert ThreadOk(s.main, |s.threads|, s.jobs, s.arrivals, Open(s), i, s.threads[i]);
        var a := ToldThreadCanMove(s, i);
        actions := OneStep(s, a);
      }
  }
}
