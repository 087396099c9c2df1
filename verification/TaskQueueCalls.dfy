/**
 What callers hand over is what the queue works with: the task given to `enqueue` is the one published and called, and
 the argument of `sync` is the one its test uses. Both sides are read off the calls a run makes.
 */
module TaskQueueCalls {
  import opened Options
  import opened TaskQueue
  import opened TaskQueueSafety
  import opened TaskQueueTheorems

  // ---------- the argument of enqueue ----------

  ghost function GivenBy(a: Action, c: ClientId): seq<Option<Task>> {
    if a.Count? && a.c == c then [a.task] else []
  }

  /** The tasks client `c` calls `enqueue` with, in call order. */
  ghost function Given(actions: seq<Action>, c: ClientId): seq<Option<Task>> {
    if actions == [] then [] else GivenBy(actions[0], c) + Given(actions[1..], c)
  }

  ghost function SentBy(s: State, a: Action, c: ClientId): seq<Option<Task>>
    requires Enabled(s, a)
  {
    if a.Exchange? && a.c == c then [Publishes(s, a)[0].task] else []
  }

  /** The tasks of the nodes client `c` swaps into `tail`, in that order. */
  ghost function Sent(s: State, actions: seq<Action>, c: ClientId): seq<Option<Task>>
    requires ValidRun(s, actions)
    decreases |actions|
  {
    if actions == [] then [] else SentBy(s, actions[0], c) + Sent(Apply(s, actions[0]), actions[1..], c)
  }

  /** The task of a call of `c` that has not reached its exchange. */
  ghost function Carried(s: State, c: ClientId): seq<Option<Task>> {
    if c in s.clients && (s.clients[c].Counted? || s.clients[c].Allocated?) then [s.clients[c].task] else []
  }

  lemma CarriedUnderEnqueue(s: State, a: Action, c: ClientId)
    requires Enabled(s, a) && EnqueueAction(a)
    ensures Carried(s, c) + GivenBy(a, c) == SentBy(s, a, c) + Carried(Apply(s, a), c)
  {
  }

  lemma CarriedUnderSync(s: State, a: Action, c: ClientId)
    requires Enabled(s, a) && SyncAction(a)
    ensures Carried(s, c) + GivenBy(a, c) == SentBy(s, a, c) + Carried(Apply(s, a), c)
  {
  }

  lemma CarriedUnderOthers(s: State, a: Action, c: ClientId)
    requires Enabled(s, a) && !ClientAction(a)
    ensures Carried(s, c) + GivenBy(a, c) == SentBy(s, a, c) + Carried(Apply(s, a), c)
  {
    hide TasksOf;
  }

  lemma CarriedStep(s: State, a: Action, c: ClientId)
    requires Enabled(s, a)
    ensures Carried(s, c) + GivenBy(a, c) == SentBy(s, a, c) + Carried(Apply(s, a), c)
  {
    hide Apply, Enabled, Carried, GivenBy, SentBy;
    if EnqueueAction(a) {
      CarriedUnderEnqueue(s, a, c);
    } else if SyncAction(a) {
      CarriedUnderSync(s, a, c);
    } else {
      CarriedUnderOthers(s, a, c);
    }
  }

  lemma Splice<T>(before: seq<T>, given: seq<T>, sent: seq<T>, middle: seq<T>, moreGiven: seq<T>, moreSent: seq<T>,
                  after: seq<T>)
    requires before + given == sent + middle && middle + moreGiven == moreSent + after
    ensures before + (given + moreGiven) == (sent + moreSent) + after
  {
    assert before + (given + moreGiven) == (before + given) + moreGiven;
    assert (sent + middle) + moreGiven == sent + (middle + moreGiven);
    assert sent + (moreSent + after) == (sent + moreSent) + after;
  }

  lemma {:induction false} CarriedAlong(s: State, actions: seq<Action>, c: ClientId)
    requires ValidRun(s, actions)
    ensures Carried(s, c) + Given(actions, c) == Sent(s, actions, c) + Carried(RunTo(s, actions), c)
    decreases |actions|
  {
    if actions != [] {
      var a, rest := actions[0], actions[1..];
      var s' := Apply(s, a);
      CarriedStep(s, a, c);
      hide Apply, Enabled, Carried, GivenBy, SentBy;
      CarriedAlong(s', rest, c);
      Splice(Carried(s, c), GivenBy(a, c), SentBy(s, a, c), Carried(s', c), Given(rest, c), Sent(s', rest, c),
             Carried(RunTo(s, actions), c));
    }
  }

  /**
   No task is lost, changed or reordered on its way in: in every run, the tasks a client passes to `enqueue` are, in
   order, those of the nodes it has published, followed by the one it is still carrying.
   */
  lemma TasksArriveInOrder(dummy: Addr, actions: seq<Action>, c: ClientId)
    requires ValidRun(Init(dummy), actions)
    ensures Given(actions, c) == Sent(Init(dummy), actions, c) + Carried(RunTo(Init(dummy), actions), c)
  {
    CarriedAlong(Init(dummy), actions, c);
    assert Carried(Init(dummy), c) == [];
    hide *;
    assert Given(actions, c) == [] + Given(actions, c);
  }

  // ---------- nothing open means everything ran ----------

  lemma NothingPending(s: State)
    requires CountsOk(s) && s.pending == 0 && RunCount(s) < |s.hist.order|
    ensures RunCount(s) == |s.hist.order| - 1
    ensures forall c :: Carried(s, c) == []
  {
    assert s.hist.uncommitted == {};
    hide TasksOf, Unpaid;
  }

  lemma AllRan(order: seq<Entry>, ran: seq<Task>, first: Entry, published: seq<Entry>)
    requires order == [first] + published && RanOk(order, |order| - 1, ran)
    ensures ran == TasksOf(published)
  {
    AfterFirst(first, published, order, |published|);
    assert published[..|published|] == published;
  }

  lemma NothingCarried(dummy: Addr, actions: seq<Action>, c: ClientId)
    requires ValidRun(Init(dummy), actions) && Carried(RunTo(Init(dummy), actions), c) == []
    ensures Given(actions, c) == Sent(Init(dummy), actions, c)
  {
    TasksArriveInOrder(dummy, actions, c);
    hide *;
  }

  /**
   When `pending` is zero, every task any client passed to `enqueue` has been published, and the tasks called are
   exactly those of the published nodes, in exchange order.
   */
  lemma DrainedRanEverything(dummy: Addr, actions: seq<Action>)
    requires ValidRun(Init(dummy), actions) && RunTo(Init(dummy), actions).pending == 0
    ensures Executed(Init(dummy), actions) == TasksOf(Published(Init(dummy), actions))
    ensures forall c :: Given(actions, c) == Sent(Init(dummy), actions, c)
  {
    var s := RunTo(Init(dummy), actions);
    InitInv(dummy);
    RunKeepsInv(Init(dummy), actions);
    HistoryIsRun(Init(dummy), actions);
    assert CountsOk(s) && RanOk(s.hist.order, RunCount(s), s.hist.ran);
    assert RunCount(s) < |s.hist.order|;
    assert Init(dummy).hist.order == [Entry(dummy, None)] && Init(dummy).hist.ran == [];
    hide *;
    NothingPending(s);
    forall c ensures Given(actions, c) == Sent(Init(dummy), actions, c) {
      NothingCarried(dummy, actions, c);
    }
    AllRan(s.hist.order, s.hist.ran, Entry(dummy, None), Published(Init(dummy), actions));
    assert s.hist.ran == [] + Executed(Init(dummy), actions) == Executed(Init(dummy), actions);
  }

  // ---------- enqueue waits for nobody ----------

  /** The steps of `enqueue` up to and including the link. */
  function Steps(c: ClientId, task: Option<Task>, node: Addr): seq<Action> {
    [Count(c, task), Alloc(c, node), Exchange(c), Link(c)]
  }

  lemma OneStep(s: State, a: Action, rest: seq<Action>)
    requires Enabled(s, a) && ValidRun(Apply(s, a), rest)
    ensures ValidRun(s, [a] + rest) && RunTo(s, [a] + rest) == RunTo(Apply(s, a), rest)
  {
    hide Apply, Enabled;
    assert ([a] + rest)[1..] == rest;
  }

  lemma StepsRun(s: State, c: ClientId, task: Option<Task>, node: Addr)
    requires Alive(s) && c !in s.clients && node !in s.heap
    ensures ValidRun(s, Steps(c, task, node))
    ensures s.tail in s.heap ==>
              c in RunTo(s, Steps(c, task, node)).clients && RunTo(s, Steps(c, task, node)).clients[c].Linked?
  {
    var s1 := Apply(s, Count(c, task));
    var s2 := Apply(s1, Alloc(c, node));
    var s3 := Apply(s2, Exchange(c));
    var s4 := Apply(s3, Link(c));
    assert s.tail in s.heap ==> c in s4.clients && s4.clients[c].Linked?;
    hide Apply, Enabled;
    assert ValidRun(s4, []) && RunTo(s4, []) == s4;
    OneStep(s3, Link(c), []);
    OneStep(s2, Exchange(c), [Link(c)] + []);
    OneStep(s1, Alloc(c, node), [Exchange(c)] + ([Link(c)] + []));
    OneStep(s, Count(c, task), [Alloc(c, node)] + ([Exchange(c)] + ([Link(c)] + [])));
    assert Steps(c, task, node) == [Count(c, task)] + ([Alloc(c, node)] + ([Exchange(c)] + ([Link(c)] + [])));
  }

  /**
   Lock freedom: wherever the other threads stand, a client outside a call can start one, and can take its `enqueue`
   past the link with no step of anyone else, lock held or not.
   */
  lemma EnqueueWaitsForNobody(dummy: Addr, actions: seq<Action>, c: ClientId, task: Option<Task>, node: Addr, n: nat)
    requires ValidRun(Init(dummy), actions)
    requires var s := RunTo(Init(dummy), actions); Alive(s) && c !in s.clients && node !in s.heap
    ensures var s := RunTo(Init(dummy), actions);
            && Enabled(s, SyncCall(c, n)) && ValidRun(s, Steps(c, task, node))
            && c in RunTo(s, Steps(c, task, node)).clients && RunTo(s, Steps(c, task, node)).clients[c].Linked?
  {
    ReachableNodesAreLive(dummy, actions);
    StepsRun(RunTo(Init(dummy), actions), c, task, node);
  }

  // ---------- the argument of sync ----------

  /** The argument of the last `sync` client `c` calls. */
  ghost function LastAllow(actions: seq<Action>, c: ClientId, before: Option<nat>): Option<nat> {
    if actions == [] then before
    else
      var a := actions[0];
      LastAllow(actions[1..], c, if a.SyncCall? && a.c == c then Some(a.allow) else before)
  }

  predicate Syncing(c: Client) {
    c.SyncEntered? || c.SyncHolding? || c.SyncDozing? || c.SyncWaiting?
  }

  ghost predicate Allows(s: State, c: ClientId, last: Option<nat>) {
    c in s.clients && Syncing(s.clients[c]) ==> last == Some(s.clients[c].allow)
  }

  lemma AllowUnderEnqueue(s: State, a: Action, c: ClientId, last: Option<nat>)
    requires Enabled(s, a) && EnqueueAction(a) && Allows(s, c, last)
    ensures Allows(Apply(s, a), c, last)
  {
  }

  lemma AllowUnderSync(s: State, a: Action, c: ClientId, last: Option<nat>)
    requires Enabled(s, a) && SyncAction(a) && Allows(s, c, last)
    ensures Allows(Apply(s, a), c, if a.SyncCall? && a.c == c then Some(a.allow) else last)
  {
  }

  lemma AllowUnderOthers(s: State, a: Action, c: ClientId, last: Option<nat>)
    requires Enabled(s, a) && !ClientAction(a) && Allows(s, c, last)
    ensures Allows(Apply(s, a), c, last)
  {
    hide TasksOf;
  }

  lemma {:induction false} AllowAlong(s: State, actions: seq<Action>, c: ClientId, before: Option<nat>)
    requires ValidRun(s, actions) && Allows(s, c, before)
    ensures Allows(RunTo(s, actions), c, LastAllow(actions, c, before))
    decreases |actions|
  {
    if actions != [] {
      hide Apply, Enabled, Allows;
      var a := actions[0];
      if EnqueueAction(a) {
        AllowUnderEnqueue(s, a, c, before);
      } else if SyncAction(a) {
        AllowUnderSync(s, a, c, before);
      } else {
        AllowUnderOthers(s, a, c, before);
      }
      AllowAlong(Apply(s, a), actions[1..], c, if a.SyncCall? && a.c == c then Some(a.allow) else before);
    }
  }

  /**
   `sync(n)` keeps its promise to the caller, whose `n` it is: when the test of a client's latest `sync(n)` succeeds
   and no shutdown was requested, at most `n` of the tasks counted in are not yet finished.
   */
  lemma SyncHonoursItsArgument(dummy: Addr, actions: seq<Action>, c: ClientId)
    requires ValidRun(Init(dummy), actions)
    requires var s := RunTo(Init(dummy), actions); Enabled(s, SyncTest(c)) && !s.done
    ensures LastAllow(actions, c, None).Some?
    ensures c !in Apply(RunTo(Init(dummy), actions), SyncTest(c)).clients ==>
              Increments(actions) - Finished(actions) <= LastAllow(actions, c, None).value
    ensures c in Apply(RunTo(Init(dummy), actions), SyncTest(c)).clients ==>
              Increments(actions) - Finished(actions) > LastAllow(actions, c, None).value
  {
    AllowAlong(Init(dummy), actions, c, None);
    PendingIsExact(dummy, actions);
  }
}
