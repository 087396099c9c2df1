/**
 Why `sync` must not overlap an `enqueue`: whatever else is going on, a client in `sync(0)` and another one that has
 counted its task but not yet linked it can always be scheduled so that the notification is lost. Together with
 `NoLostWakeup` this says that the discipline is not only sufficient.
 */
module TaskQueueOverlap {
  import opened Options
  import opened TaskQueue
  import opened TaskQueueSafety
  import opened TaskQueueWakeup
  import opened TaskQueueProgress

  predicate BeforeLink(c: Client) {
    c.Counted? || c.Allocated? || c.Exchanged?
  }

  /** Client `c` is in `sync(0)` while client `d` has an enqueue under way, and no shutdown was requested. */
  predicate Overlapping(s: State, c: ClientId, d: ClientId) {
    && s.destructor.NotStarted?
    && c in s.clients && InSync(s.clients[c]) && s.clients[c].allow == 0
    && d in s.clients && BeforeLink(s.clients[d])
  }

  /** A task published and not linked keeps `pending` up. */
  lemma UnlinkedIsPending(s: State, d: ClientId)
    requires Inv(s) && s.destructor.NotStarted? && d in s.clients && s.clients[d].Exchanged?
    ensures s.pending >= 1 && !s.done
    ensures s.hist.taken + 1 < |s.hist.order|
  {
    var j := s.hist.pos[s.clients[d].prev];
    assert WillLink(s.clients, s.hist.order, d, j);
    hide ListOk, RanOk, LockOk;
  }

  /** Nothing but its own link takes client `d` on, and nothing lets client `c` out. */
  lemma OverlapUnderClients(s: State, a: Action, c: ClientId, d: ClientId)
    requires Overlapping(s, c, d) && s.clients[d].Exchanged? && s.pending >= 1 && !s.done
    requires Enabled(s, a) && Internal(a) && a != Link(d) && ClientAction(a) && !Apply(s, a).fault
    ensures Overlapping(Apply(s, a), c, d) && Apply(s, a).clients[d] == s.clients[d]
  {
  }

  lemma OverlapUnderOthers(s: State, a: Action, c: ClientId, d: ClientId)
    requires Overlapping(s, c, d) && s.clients[d].Exchanged?
    requires Enabled(s, a) && Internal(a) && !ClientAction(a)
    ensures Overlapping(Apply(s, a), c, d) && Apply(s, a).clients[d] == s.clients[d]
  {
    hide TasksOf;
  }

  lemma OverlapKept(s: State, a: Action, c: ClientId, d: ClientId)
    requires Inv(s) && Overlapping(s, c, d) && s.clients[d].Exchanged?
    requires Enabled(s, a) && Internal(a) && a != Link(d)
    ensures Overlapping(Apply(s, a), c, d) && Apply(s, a).clients[d] == s.clients[d]
  {
    hide Inv, Apply, Enabled;
    UnlinkedIsPending(s, d);
    StepKeeps(s, a);
    InvHasNoFault(Apply(s, a));
    if ClientAction(a) { OverlapUnderClients(s, a, c, d); } else { OverlapUnderOthers(s, a, c, d); }
  }

  /** Everyone but client `d` sleeps, and nobody holds the mutex. */
  ghost predicate OthersAsleep(s: State, d: ClientId) {
    s.holder == None && s.worker.Waiting? && forall e | e in s.clients && e != d :: s.clients[e].SyncWaiting?
  }

  lemma MutexOk(s: State)
    requires Inv(s)
    ensures LockOk(s.holder, s.worker, s.clients) && (s.worker.Exited? ==> s.done)
  {
    hide ListOk, EndsOk, CountsOk, RanOk;
  }

  lemma SomeoneElseCanMove(s: State, d: ClientId) returns (a: Action)
    requires Inv(s) && !s.done && !OthersAsleep(s, d)
    ensures Internal(a) && Enabled(s, a) && a != Link(d)
  {
    MutexOk(s);
    hide Inv, Enabled, Internal, LockOk;
    if s.holder.Some? {
      a := HolderCanMove(s);
    } else if !s.worker.Waiting? {
      a := WorkerCanMove(s);
    } else {
      var e :| e in s.clients && e != d && !s.clients[e].SyncWaiting?;
      a := ClientCanMove(s, e);
    }
  }

  /** Client `d` is held back before its link, standing at `x`. */
  ghost predicate HeldBack(s: State, c: ClientId, d: ClientId, x: Client) {
    Inv(s) && Overlapping(s, c, d) && s.clients[d] == x && x.Exchanged?
  }

  lemma OthersMove(s: State, c: ClientId, d: ClientId, x: Client) returns (a: Action)
    requires HeldBack(s, c, d, x) && !OthersAsleep(s, d)
    ensures Internal(a) && Enabled(s, a) && HeldBack(Apply(s, a), c, d, x)
    ensures 0 <= CallWork(Apply(s, a)) && 0 <= CallWork(s) && Lower(s, Apply(s, a))
  {
    hide Inv, Apply, Enabled, Internal, CallWork, WorkerWork, SyncWork, OthersAsleep;
    UnlinkedIsPending(s, d);
    CountLeft(s);
    a := SomeoneElseCanMove(s, d);
    StepLowers(s, a);
    OverlapKept(s, a, c, d);
  }

  lemma OneAfterAnother(s: State, a: Action, more: seq<Action>)
    requires Enabled(s, a) && Internal(a) && ValidRun(Apply(s, a), more) && AllInternal(more)
    ensures ValidRun(s, [a] + more) && AllInternal([a] + more) && RunTo(s, [a] + more) == RunTo(Apply(s, a), more)
  {
    assert ([a] + more)[1..] == more;
  }

  lemma NoSteps(s: State)
    ensures ValidRun(s, []) && RunTo(s, []) == s && AllInternal([])
  {
  }

  /** Let everybody run but client `d`, until all are asleep. */
  lemma {:induction false} PutToSleep(s: State, c: ClientId, d: ClientId, x: Client) returns (run: seq<Action>)
    requires HeldBack(s, c, d, x) && CallWork(s) >= 0
    ensures ValidRun(s, run) && AllInternal(run)
    ensures HeldBack(RunTo(s, run), c, d, x) && OthersAsleep(RunTo(s, run), d)
    decreases CallWork(s), WorkerWork(s), SyncWork(s)
  {
    hide HeldBack, Apply, Enabled, Internal, AllInternal, CallWork, WorkerWork, SyncWork, OthersAsleep, RunTo, ValidRun;
    if OthersAsleep(s, d) {
      NoSteps(s);
      run := [];
    } else {
      var a := OthersMove(s, c, d, x);
      run := PutToSleep(Apply(s, a), c, d, x);
      OneAfterAnother(s, a, run);
      run := [a] + run;
    }
  }

  /** With all others asleep, the link that client `d` owes is the one the worker waits for. */
  lemma WorkerWaitsForLink(s: State, d: ClientId)
    requires Inv(s) && s.destructor.NotStarted? && d in s.clients && s.clients[d].Exchanged? && OthersAsleep(s, d)
    requires !LinkedTask(s)
    ensures s.clients[d].prev == s.curr && s.curr in s.heap
  {
    UnlinkedIsPending(s, d);
    CurrentNode(s);
    LinkerIsExchanged(s, s.hist.taken);
    assert WillLink(s.clients, s.hist.order, s.hist.linker[s.hist.taken], s.hist.taken);
    hide ListOk, CountsOk, RanOk, LockOk, SyncOk;
  }

  /** Link, pass through the mutex, and notify client `c`. */
  lemma NotifyTheWrongOne(s: State, c: ClientId, d: ClientId) returns (run: seq<Action>)
    requires Overlapping(s, c, d) && s.clients[d].Exchanged? && OthersAsleep(s, d) && !s.done
    requires s.clients[d].prev == s.curr && s.curr in s.heap
    ensures ValidRun(s, run) && AllInternal(run) && LostWakeup(RunTo(s, run))
  {
    assert ValidRun(s, []) && RunTo(s, []) == s;
    hide RunTo, ValidRun;
    Extend(s, [], Link(d));
    run := [] + [Link(d)];
    Extend(s, run, PassLock(d));
    run := run + [PassLock(d)];
    Extend(s, run, NotifyOne(d, Some(ClientWaiter(c))));
    run := run + [NotifyOne(d, Some(ClientWaiter(c)))];
  }

  lemma FromExchanged(s: State, c: ClientId, d: ClientId) returns (run: seq<Action>)
    requires Inv(s) && Overlapping(s, c, d) && s.clients[d].Exchanged?
    ensures ValidRun(s, run) && AllInternal(run) && LostWakeup(RunTo(s, run))
  {
    hide Inv, Apply, Enabled, OthersAsleep, Overlapping, LostWakeup, RunTo, ValidRun;
    OverlapHasClients(s, c, d);
    CountLeft(s);
    run := PutToSleep(s, c, d, s.clients[d]);
    var s' := RunTo(s, run);
    OverlapHasClients(s', c, d);
    UnlinkedIsPending(s', d);
    if LinkedTask(s') {
      AlreadyLost(s', d);
    } else {
      WorkerWaitsForLink(s', d);
      var last := NotifyTheWrongOne(s', c, d);
      RunConcat(s, run, last);
      run := run + last;
    }
  }

  lemma OverlapHasClients(s: State, c: ClientId, d: ClientId)
    requires Overlapping(s, c, d)
    ensures s.destructor.NotStarted? && d in s.clients
  {
  }

  lemma AlreadyLost(s: State, d: ClientId)
    requires OthersAsleep(s, d) && LinkedTask(s) && d in s.clients && s.clients[d].Exchanged? && !s.done
    ensures LostWakeup(s)
  {
  }

  /** Client `d` makes its node and publishes it. */
  lemma ToExchange(s: State, c: ClientId, d: ClientId) returns (run: seq<Action>)
    requires Inv(s) && Overlapping(s, c, d)
    ensures ValidRun(s, run) && AllInternal(run)
    ensures Inv(RunTo(s, run)) && Overlapping(RunTo(s, run), c, d) && RunTo(s, run).clients[d].Exchanged?
    decreases EnqueueStage(s.clients[d])
  {
    hide Inv;
    if s.clients[d].Exchanged? {
      run := [];
    } else {
      var a := Exchange(d);
      if s.clients[d].Counted? {
        var addr := FreshAddress(s.heap);
        a := Alloc(d, addr);
      }
      StepKeeps(s, a);
      run := ToExchange(Apply(s, a), c, d);
      OneAfterAnother(s, a, run);
      run := [a] + run;
    }
  }

  /**
   In any reachable state in which some client is in `sync(0)` while another has counted its task and not yet linked it,
   the threads can be scheduled so that the wake-up is lost.
   */
  lemma OverlapLosesWakeup(dummy: Addr, actions: seq<Action>, c: ClientId, d: ClientId) returns (more: seq<Action>)
    requires ValidRun(Init(dummy), actions) && Overlapping(RunTo(Init(dummy), actions), c, d)
    ensures ValidRun(RunTo(Init(dummy), actions), more) && AllInternal(more)
    ensures LostWakeup(RunTo(RunTo(Init(dummy), actions), more))
  {
    hide *;
    InitInv(dummy);
    RunKeepsInv(Init(dummy), actions);
    var s := RunTo(Init(dummy), actions);
    more := ToExchange(s, c, d);
    var rest := FromExchanged(RunTo(s, more), c, d);
    RunConcat(s, more, rest);
    InternalConcat(more, rest);
    more := more + rest;
  }

  lemma InternalConcat(first: seq<Action>, second: seq<Action>)
    requires AllInternal(first) && AllInternal(second)
    ensures AllInternal(first + second)
  {
  }
}
