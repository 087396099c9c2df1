/**
 The lock-free queue and the pipeline's view of it agree: both are the same first-in first-out queue with one worker.
 An exchange enqueues, running a node's task takes it, the decrement of `pending` finishes it, nothing else shows, and
 a `sync` that returns has seen what the pipeline's synchronisation waits for.
 */
module TaskQueueFifo {
  import opened Options
  import opened TaskQueue
  import opened TaskQueueSafety
  import Theorems = TaskQueueTheorems
  import Overlap = StreamOverlap

  datatype Fifo<T> = Fifo(queue: seq<T>, running: Option<T>)

  datatype Step<T> = Enqueue(task: T) | Take | Finish

  predicate CanStep<T>(f: Fifo<T>, step: Step<T>) {
    match step
    case Enqueue(_) => true
    case Take => f.queue != [] && f.running.None?
    case Finish => f.running.Some?
  }

  function After<T>(f: Fifo<T>, step: Step<T>): Fifo<T>
    requires CanStep(f, step)
  {
    match step
    case Enqueue(task) => f.(queue := f.queue + [task])
    case Take => Fifo(f.queue[1..], Some(f.queue[0]))
    case Finish => f.(running := None)
  }

  ghost predicate CanRun<T>(f: Fifo<T>, steps: seq<Step<T>>)
    decreases |steps|
  {
    steps == [] || (CanStep(f, steps[0]) && CanRun(After(f, steps[0]), steps[1..]))
  }

  ghost function Final<T>(f: Fifo<T>, steps: seq<Step<T>>): Fifo<T>
    requires CanRun(f, steps)
    decreases |steps|
  {
    if steps == [] then f else Final(After(f, steps[0]), steps[1..])
  }

  /** Tasks queued or running. */
  function Open<T>(f: Fifo<T>): nat {
    |f.queue| + if f.running.Some? then 1 else 0
  }

  // ---------- what the lock-free queue shows ----------

  function TaskOf(entries: seq<Entry>): (r: seq<Option<Task>>)
    ensures |r| == |entries|
  {
    seq(|entries|, i requires 0 <= i < |entries| => entries[i].task)
  }

  /** Published nodes whose task has not been called wait; one called and not yet counted off is running. */
  function View(order: seq<Entry>, finished: nat, count: nat): Fifo<Option<Task>>
    requires count < |order|
  {
    Fifo(TaskOf(order[count + 1..]), if count > finished then Some(order[count].task) else None)
  }

  ghost function Shown(s: State): Fifo<Option<Task>>
    requires RunCount(s) < |s.hist.order|
  {
    View(s.hist.order, s.hist.finished, RunCount(s))
  }

  /** What an outside observer sees of one action. */
  function StepOf(s: State, a: Action): seq<Step<Option<Task>>>
    requires Enabled(s, a)
  {
    match a
    case Exchange(c) => [Enqueue(s.clients[c].task)]
    case WRun => [Take]
    case WFinish => [Finish]
    case _ => []
  }

  lemma InvShows(s: State)
    requires Inv(s)
    ensures RunCount(s) < |s.hist.order|
  {
    hide ListOk, EndsOk, CountsOk, LockOk, SyncOk, RunCount, TasksOf;
  }

  lemma ExchangeEnqueues(order: seq<Entry>, finished: nat, count: nat, e: Entry)
    requires count < |order|
    ensures View(order + [e], finished, count) == After(View(order, finished, count), Enqueue(e.task))
  {
    assert (order + [e])[count + 1..] == order[count + 1..] + [e];
  }

  lemma RunTakes(order: seq<Entry>, count: nat)
    requires count + 1 < |order|
    ensures CanStep(View(order, count, count), Take)
    ensures View(order, count, count + 1) == After(View(order, count, count), Take)
  {
    assert order[count + 1..][1..] == order[count + 2..];
  }

  lemma RunAdvances(s: State)
    requires EndsOk(s) && CountsOk(s) && Enabled(s, WRun) && !DoRun(s).fault && !s.fault
    ensures RunCount(s) == s.hist.finished && RunCount(s) + 1 < |s.hist.order|
    ensures RunCount(DoRun(s)) == RunCount(s) + 1 && DoRun(s).hist.finished == s.hist.finished
    ensures DoRun(s).hist.order == s.hist.order && Apply(s, WRun) == DoRun(s)
  {
    hide TasksOf;
  }

  lemma FinishFinishes(order: seq<Entry>, finished: nat)
    requires finished + 1 < |order|
    ensures CanStep(View(order, finished, finished + 1), Finish)
    ensures View(order, finished + 1, finished + 1) == After(View(order, finished, finished + 1), Finish)
  {
  }

  lemma ExchangeShows(s: State, c: ClientId)
    requires Enabled(s, Exchange(c))
    ensures |Theorems.Publishes(s, Exchange(c))| == 1
    ensures StepOf(s, Exchange(c)) == [Enqueue(Theorems.Publishes(s, Exchange(c))[0].task)]
  {
  }

  lemma FinishCounts(s: State)
    requires Enabled(s, WFinish)
    ensures RunCount(s) == s.hist.finished + 1
  {
  }

  lemma StepIsFifo(s: State, a: Action)
    requires Inv(s) && Enabled(s, a) && Inv(Apply(s, a))
    requires RunCount(s) < |s.hist.order| && RunCount(Apply(s, a)) < |Apply(s, a).hist.order|
    ensures CanRun(Shown(s), StepOf(s, a))
    ensures Final(Shown(s), StepOf(s, a)) == Shown(Apply(s, a))
  {
    hide ListOk, LockOk, SyncOk, RanOk, Apply, Enabled, RunCount, View, DoRun, EndsOk, CountsOk;
    Theorems.HistoryStep(s, a);
    Theorems.CounterStep(s, a);
    if a.WRun? {
      assert a == WRun;
      RunIsDoRun(s);
      RunAdvances(s);
      RunTakes(s.hist.order, RunCount(s));
    } else {
      RanUntouched(s, a);
      assert s.hist.order + [] == s.hist.order;
      if a.Exchange? {
        assert a == Exchange(a.c);
        ExchangeShows(s, a.c);
        ExchangeEnqueues(s.hist.order, s.hist.finished, RunCount(s), Theorems.Publishes(s, a)[0]);
      } else if a.WFinish? {
        assert a == WFinish;
        FinishCounts(s);
        FinishFinishes(s.hist.order, s.hist.finished);
      }
    }
  }

  /** The steps an observer sees in a run. */
  ghost function StepsOf(s: State, actions: seq<Action>): seq<Step<Option<Task>>>
    requires ValidRun(s, actions)
    decreases |actions|
  {
    if actions == [] then [] else StepOf(s, actions[0]) + StepsOf(Apply(s, actions[0]), actions[1..])
  }

  lemma {:induction false} RunsCompose<T>(f: Fifo<T>, a: seq<Step<T>>, b: seq<Step<T>>)
    requires CanRun(f, a) && CanRun(Final(f, a), b)
    ensures CanRun(f, a + b) && Final(f, a + b) == Final(Final(f, a), b)
    decreases |a|
  {
    if a == [] {
      assert a + b == b;
    } else {
      assert (a + b)[0] == a[0] && (a + b)[1..] == a[1..] + b;
      RunsCompose(After(f, a[0]), a[1..], b);
    }
  }

  lemma {:induction false} RunIsFifo(s: State, actions: seq<Action>)
    requires Inv(s) && ValidRun(s, actions) && RunCount(s) < |s.hist.order|
    ensures RunCount(RunTo(s, actions)) < |RunTo(s, actions).hist.order|
    ensures CanRun(Shown(s), StepsOf(s, actions))
    ensures Final(Shown(s), StepsOf(s, actions)) == Shown(RunTo(s, actions))
    decreases |actions|
  {
    if actions != [] {
      hide Inv, Apply, Enabled, Shown, StepOf, RunCount;
      var a, s' := actions[0], Apply(s, actions[0]);
      StepKeeps(s, a);
      InvShows(s');
      StepIsFifo(s, a);
      RunIsFifo(s', actions[1..]);
      RunsCompose(Shown(s), StepOf(s, a), StepsOf(s', actions[1..]));
    }
  }

  /** The tasks that go in, in order. */
  ghost function Entering<T>(steps: seq<Step<T>>): seq<T> {
    if steps == [] then []
    else (if steps[0].Enqueue? then [steps[0].task] else []) + Entering(steps[1..])
  }

  lemma EntersPublished(s: State, a: Action)
    requires Enabled(s, a)
    ensures |StepOf(s, a)| <= 1 && Entering(StepOf(s, a)) == TaskOf(Theorems.Publishes(s, a))
  {
    hide Apply;
    if a.Exchange? {
      ExchangeShows(s, a.c);
      assert a == Exchange(a.c);
      assert Entering(StepOf(s, a)) == [Theorems.Publishes(s, a)[0].task];
    }
  }

  lemma EnteringJoins<T>(first: seq<Step<T>>, rest: seq<Step<T>>)
    requires |first| <= 1
    ensures Entering(first + rest) == Entering(first) + Entering(rest)
  {
    if first == [] {
      assert first + rest == rest;
    } else {
      assert (first + rest)[1..] == rest && first[1..] == [];
    }
  }

  lemma TaskOfJoins(first: seq<Entry>, rest: seq<Entry>)
    ensures TaskOf(first + rest) == TaskOf(first) + TaskOf(rest)
  {
  }

  lemma {:induction false} EnteringIsPublished(s: State, actions: seq<Action>)
    requires ValidRun(s, actions)
    ensures Entering(StepsOf(s, actions)) == TaskOf(Theorems.Published(s, actions))
    decreases |actions|
  {
    if actions != [] {
      var a, rest := actions[0], actions[1..];
      EntersPublished(s, a);
      hide Apply, Enabled, StepOf, Theorems.Publishes, TaskOf, Entering;
      EnteringIsPublished(Apply(s, a), rest);
      EnteringJoins(StepOf(s, a), StepsOf(Apply(s, a), rest));
      TaskOfJoins(Theorems.Publishes(s, a), Theorems.Published(Apply(s, a), rest));
    } else {
      hide Theorems.Publishes, StepOf;
    }
  }

  /**
   Whatever the threads do, an observer sees a first-in first-out queue with one worker, empty at the start. What goes
   in are the tasks of the published nodes, in exchange order.
   */
  lemma QueueIsFifo(dummy: Addr, actions: seq<Action>)
    requires ValidRun(Init(dummy), actions)
    ensures RunCount(RunTo(Init(dummy), actions)) < |RunTo(Init(dummy), actions).hist.order|
    ensures CanRun(Fifo([], None), StepsOf(Init(dummy), actions))
    ensures Final(Fifo([], None), StepsOf(Init(dummy), actions)) == Shown(RunTo(Init(dummy), actions))
    ensures Entering(StepsOf(Init(dummy), actions)) == TaskOf(Theorems.Published(Init(dummy), actions))
  {
    InitInv(dummy);
    assert Shown(Init(dummy)) == Fifo([], None);
    RunIsFifo(Init(dummy), actions);
    EnteringIsPublished(Init(dummy), actions);
  }

  /**
   With no enqueue on its way to the exchange and no shutdown, `sync(n)` returns from its test if and only if at most
   `n` tasks are queued or running.
   */
  lemma SyncReturnsIff(dummy: Addr, actions: seq<Action>, c: ClientId)
    requires ValidRun(Init(dummy), actions)
    requires var s := RunTo(Init(dummy), actions); Enabled(s, SyncTest(c)) && s.hist.uncommitted == {} && !s.done
    ensures var s := RunTo(Init(dummy), actions);
            && RunCount(s) < |s.hist.order|
            && (c !in Apply(s, SyncTest(c)).clients <==> Open(Shown(s)) <= s.clients[c].allow)
  {
    hide Apply, Open, Shown, RunCount, Init, RunTo, ValidRun, ListOk, EndsOk, CountsOk, RanOk, LockOk, SyncOk;
    InitInv(dummy);
    RunKeepsInv(Init(dummy), actions);
    var s := RunTo(Init(dummy), actions);
    InvShows(s);
    OpenIsPending(s);
    TestReturns(s, c);
  }

  lemma TestReturns(s: State, c: ClientId)
    requires Enabled(s, SyncTest(c)) && !s.done
    ensures c !in Apply(s, SyncTest(c)).clients <==> s.pending <= s.clients[c].allow
  {
  }

  lemma OpenIsPending(s: State)
    requires CountsOk(s) && RunCount(s) < |s.hist.order|
    ensures s.pending == Open(Shown(s)) + |s.hist.uncommitted|
  {
    hide TasksOf;
  }

  // ---------- what the pipeline assumes ----------

  function Assumed<V, K>(s: Overlap.State<V, K>): Fifo<nat> {
    Fifo(s.queue, s.running)
  }

  function AssumedStep<V, K>(u: Overlap.Setup<V, K>, s: Overlap.State<V, K>, a: Overlap.Action): seq<Step<nat>>
    requires Overlap.Enabled(u, s, a)
  {
    match a
    case Execute => if s.stream[0].Submit? then [Enqueue(s.stream[0].layer)] else []
    case Take => [Step.Take]
    case Finish => [Step.Finish]
    case _ => []
  }

  /**
   The pipeline's queue takes the same steps: submitting enqueues, its worker takes and finishes, and synchronising
   waits until nothing is open.
   */
  lemma PipelineUsesFifo<V, K>(u: Overlap.Setup<V, K>, s: Overlap.State<V, K>, a: Overlap.Action)
    requires Overlap.Two(u, s.mem)
    ensures Overlap.Enabled(u, s, a) ==>
              && CanRun(Assumed(s), AssumedStep(u, s, a))
              && Final(Assumed(s), AssumedStep(u, s, a)) == Assumed(Overlap.Apply(u, s, a))
    ensures s.stream != [] && s.stream[0].Sync? ==> (Overlap.Enabled(u, s, Overlap.Execute) <==> Open(Assumed(s)) == 0)
  {
    hide Overlap.Effect, Overlap.Compute, Overlap.Busy;
    if Overlap.Enabled(u, s, a) {
      assert |AssumedStep(u, s, a)| <= 1;
    }
  }
}
