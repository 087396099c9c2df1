/**
 What the overlap guarantees: whatever the interleaving, memory is that of the serial run, at most one task is in
 flight, nothing deadlocks, and the runner's own pipeline leaves each microbatch as running it alone would.
 */
module StreamOverlapTheorems {
  import opened Options
  import opened DualBatchRunner
  import opened StreamOverlap

  // ---------- any disciplined program ----------

  /** Whenever every submitted task has been waited for, memory is exactly the serial run's. */
  lemma SyncedMeansSerial<V, K>(u: Setup<V, K>, mem: Memory<V, K>, actions: seq<Action>)
    requires Two(u, mem) && Disciplined(Flat(u.program)) && ValidRun(u, Initial(mem), actions)
    ensures var s := RunTo(u, Initial(mem), actions);
            && AllOk(s.done)
            && (OpenTask(s.done).None? ==> Pending(s) == 0 && s.mem == SerialRun(u, mem, s.done))
  {
    InitialInv(u, mem);
    RunKeepsInv(u, mem, Initial(mem), actions);
  }

  /** Confluence: all complete runs end in the same memory. */
  lemma EveryInterleavingIsSerial<V, K>(u: Setup<V, K>, mem: Memory<V, K>, actions: seq<Action>)
    requires Two(u, mem) && Disciplined(Flat(u.program)) && OpenTask(Flat(u.program)).None?
    requires ValidRun(u, Initial(mem), actions) && Finished(u, RunTo(u, Initial(mem), actions))
    ensures AllOk(Flat(u.program))
    ensures RunTo(u, Initial(mem), actions).mem == SerialRun(u, mem, Flat(u.program))
  {
    InitialInv(u, mem);
    RunKeepsInv(u, mem, Initial(mem), actions);
    var s := RunTo(u, Initial(mem), actions);
    assert s.done == s.done + s.stream == Flat(u.program);
  }

  /** One task at most is in flight, nothing touches its buffers, and copies either way find memory as it should be. */
  lemma OneTaskAtATime<V, K>(u: Setup<V, K>, mem: Memory<V, K>, actions: seq<Action>)
    requires Two(u, mem) && Disciplined(Flat(u.program)) && ValidRun(u, Initial(mem), actions)
    ensures var s := RunTo(u, Initial(mem), actions);
            && Pending(s) <= 1 && !s.race
            && (s.stream != [] && (s.stream[0].CopyIn? || s.stream[0].CopyOut?) ==>
                  Pending(s) == 0 && AllOk(s.done) && s.mem == SerialRun(u, mem, s.done))
  {
    InitialInv(u, mem);
    RunKeepsInv(u, mem, Initial(mem), actions);
    var s := RunTo(u, Initial(mem), actions);
    if s.stream != [] && (s.stream[0].CopyIn? || s.stream[0].CopyOut?) {
      NextOpWaits(u, s);
    }
  }

  /** The discipline is needed: a program that does not wait for its task overwrites the task's input under it. */
  lemma UnwaitedTaskRaces<V, K>(u: Setup<V, K>, mem: Memory<V, K>) returns (actions: seq<Action>)
    requires Two(u, mem) && u.program == [[Submit(0), CopyIn(0, 0)]]
    ensures !Disciplined(Flat(u.program))
    ensures ValidRun(u, Initial(mem), actions) && RunTo(u, Initial(mem), actions).race
  {
    actions := [Issue, Issue, Execute, Execute];
    var ops := u.program[0];
    assert Flat(u.program) == ops by {
      assert u.program[..0] == [] && Flat([]) + ops == ops;
    }
    assert !Waits(ops, 1) by {
      assert ops[..1][..0] == [] && OpenTask(ops[..1]) == Some(0);
    }
    hide Effect, Flat, Waits, OpenTask;
    var s0 := Initial(mem);
    var s1 := Apply(u, s0, Issue);
    var s2 := Apply(u, s1, Issue);
    var s3 := Apply(u, s2, Execute);
    var s4 := Apply(u, s3, Execute);
    assert s3.queue[0] == 0 && Busy(s3, 0) && s4.race;
    assert actions[1..] == [Issue, Execute, Execute] && actions[1..][1..] == [Execute, Execute];
    assert actions[1..][1..][1..] == [Execute];
    hide Apply, Enabled, Busy;
    assert ValidRun(u, s4, []);
    assert ValidRun(u, s3, [Execute]) && RunTo(u, s3, [Execute]) == s4;
    assert ValidRun(u, s2, [Execute, Execute]) && RunTo(u, s2, [Execute, Execute]) == s4;
    assert ValidRun(u, s1, actions[1..]) && RunTo(u, s1, actions[1..]) == s4;
  }

  function Unissued<V, K>(u: Setup<V, K>, s: State<V, K>): int {
    |Flat(u.program)| - |s.done| - |s.stream|
  }

  function Left<V, K>(u: Setup<V, K>, s: State<V, K>): int {
    5 * Unissued(u, s) + 4 * |s.stream| + 2 * |s.queue| + (if s.running.Some? then 1 else 0) + (|u.program| - s.slot)
  }

  lemma LeftNonneg<V, K>(u: Setup<V, K>, mem: Memory<V, K>, s: State<V, K>)
    requires Two(u, mem) && Inv(u, mem, s) && s.slot <= |u.program|
    ensures Left(u, s) >= 0
  {
    IssuedIsPrefix(u, s);
    assert |s.done + s.stream| <= |Flat(u.program)|;
  }

  /** Until the last slot has been waited for and the worker is idle, something can happen. */
  lemma SomethingCanHappen<V, K>(u: Setup<V, K>, mem: Memory<V, K>, s: State<V, K>) returns (a: Action)
    requires Two(u, mem) && Inv(u, mem, s) && (!Finished(u, s) || Pending(s) > 0)
    ensures Enabled(u, s, a)
  {
    if s.running.Some? {
      a := Finish;
    } else if s.queue != [] {
      a := Take;
    } else if s.stream != [] {
      NextOpWaits(u, s);
      a := Execute;
      assert (s.done + [s.stream[0]])[|s.done|] == s.stream[0];
    } else if s.issued < |u.program[s.slot]| {
      a := Issue;
    } else {
      a := NextSlot;
    }
  }

  /** No slot deadlocks and every run ends: some step is possible until the end, and a run has at most `Left` steps. */
  lemma LessLeft<V, K>(u: Setup<V, K>, s: State<V, K>, a: Action)
    requires Two(u, s.mem) && Enabled(u, s, a)
    ensures Left(u, Apply(u, s, a)) < Left(u, s)
    ensures s.slot <= |u.program| ==> Apply(u, s, a).slot <= |u.program|
  {
    hide Flat, Effect, Compute, Busy;
  }

  lemma {:induction false} RunsEnd<V, K>(u: Setup<V, K>, mem: Memory<V, K>, s: State<V, K>, actions: seq<Action>)
    requires Two(u, mem) && Inv(u, mem, s) && s.slot <= |u.program| && ValidRun(u, s, actions)
    ensures |actions| <= Left(u, s)
    decreases |actions|
  {
    if actions == [] {
      LeftNonneg(u, mem, s);
    } else {
      StepKeeps(u, mem, s, actions[0]);
      LessLeft(u, s, actions[0]);
      hide Inv, Apply, Enabled, Left;
      RunsEnd(u, mem, Apply(u, s, actions[0]), actions[1..]);
    }
  }

  // ---------- the runner's program ----------

  function Before(mb: nat, layer: nat): seq<Op> {
    [CopyIn(mb, layer % 2), Submit(layer)]
  }

  function After(mb: nat, layer: nat): seq<Op> {
    [Sync, CopyOut(layer % 2), Clone(mb, layer % 2)]
  }

  function SlotOps(layers: nat, i: nat): seq<Op>
    requires layers > 0
  {
    if i == 0 then [Attn(0, 0)]
    else if i == 2 * layers then Before(1, layers - 1) + After(1, layers - 1)
    else Before(1 - i % 2, (i - 1) / 2) + [Attn(i % 2, i / 2)] + After(1 - i % 2, (i - 1) / 2)
  }

  function Slots(layers: nat, n: nat): seq<seq<Op>>
    requires layers > 0
  {
    seq(n, i requires 0 <= i => SlotOps(layers, i))
  }

  function Pipeline(layers: nat): seq<seq<Op>>
    requires layers > 0
  {
    Slots(layers, 2 * layers + 1)
  }

  lemma FlatSlots(layers: nat, n: nat)
    requires layers > 0
    ensures Flat(Slots(layers, n + 1)) == Flat(Slots(layers, n)) + SlotOps(layers, n)
  {
    assert Slots(layers, n + 1)[..n] == Slots(layers, n);
  }

  /** `ops` is disciplined, leaves no task open and takes `mem` to `r`. */
  ghost predicate Leads<V, K>(u: Setup<V, K>, mem: Memory<V, K>, ops: seq<Op>, task: Option<nat>, r: Memory<V, K>)
    requires Two(u, mem)
  {
    Disciplined(ops) && AllOk(ops) && OpenTask(ops) == task && SerialRun(u, mem, ops) == r
  }

  lemma Append<V, K>(u: Setup<V, K>, mem: Memory<V, K>, ops: seq<Op>, op: Op, task: Option<nat>, r: Memory<V, K>)
    requires Two(u, mem) && Two(u, r) && Leads(u, mem, ops, task, r)
    requires OpOk(op) && (op.Submit? || op.CopyIn? || op.CopyOut? ==> task.None?)
    ensures var task' := if op.Submit? then Some(op.layer) else if op.Sync? then None else task;
            Leads(u, mem, ops + [op], task', Serial(u, r, op))
  {
    SerialSnoc(u, mem, ops, op);
    forall k | 0 <= k < |ops + [op]| ensures Waits(ops + [op], k) {
      assert (ops + [op])[..k] == ops[..k];
      if k < |ops| { assert Waits(ops, k); } else { assert ops[..k] == ops; }
    }
  }

  /** The experts of one microbatch, with any attention of the other in between, by way of the staging buffers. */
  lemma ExpertsSlot<V, K>(u: Setup<V, K>, mem: Memory<V, K>, ops: seq<Op>, r: Memory<V, K>, mb: nat, layer: nat,
                          between: Option<nat>)
    returns (r': Memory<V, K>)
    requires Two(u, mem) && Two(u, r) && Leads(u, mem, ops, None, r) && mb < 2 && r.micro[mb].topk.Some?
    ensures Two(u, r')
    ensures Leads(u, mem, ops + (Before(mb, layer) + (if between.Some? then [Attn(1 - mb, between.value)] else []) +
                                 After(mb, layer)), None, r')
    ensures r'.micro[mb] == Experts(u.m, layer, r.micro[mb])
    ensures r'.micro[1 - mb] == if between.Some?
              then Attention(u.m, between.value, u.positions[1 - mb], r.micro[1 - mb]) else r.micro[1 - mb]
    ensures r'.outputGpu[layer % 2] == r'.micro[mb].hidden
  {
    hide Leads, Attention;
    Append(u, mem, ops, CopyIn(mb, layer % 2), None, r);
    var r1 := Serial(u, r, CopyIn(mb, layer % 2));
    var o1 := ops + [CopyIn(mb, layer % 2)];
    Append(u, mem, o1, Submit(layer), None, r1);
    var r2, o2 := Serial(u, r1, Submit(layer)), o1 + [Submit(layer)];
    var r3, o3 := r2, o2;
    if between.Some? {
      Append(u, mem, o2, Attn(1 - mb, between.value), Some(layer), r2);
      r3, o3 := Serial(u, r2, Attn(1 - mb, between.value)), o2 + [Attn(1 - mb, between.value)];
    }
    Append(u, mem, o3, Sync, Some(layer), r3);
    Append(u, mem, o3 + [Sync], CopyOut(layer % 2), None, r3);
    var r4 := Serial(u, r3, CopyOut(layer % 2));
    Append(u, mem, o3 + [Sync] + [CopyOut(layer % 2)], Clone(mb, layer % 2), None, r4);
    r' := Serial(u, r4, Clone(mb, layer % 2));
    assert o3 + [Sync] + [CopyOut(layer % 2)] + [Clone(mb, layer % 2)] ==
           ops + (Before(mb, layer) + (if between.Some? then [Attn(1 - mb, between.value)] else []) + After(mb, layer));
  }

  function First(layers: nat, n: nat): nat {
    if n < 2 * layers then n else 2 * layers
  }

  function Second(n: nat): nat {
    if n == 0 then 0 else n - 1
  }

  /** After `n` slots of the serial run, the first microbatch has done `n` half layers and the second one fewer. */
  ghost predicate Reached<V, K>(u: Setup<V, K>, mem: Memory<V, K>, n: nat, r: Memory<V, K>)
    requires Two(u, mem) && Two(u, r)
  {
    && r.micro[0] == Halves(u.m, u.positions[0], mem.micro[0], First(u.m.layers, n))
    && r.micro[1] == Halves(u.m, u.positions[1], mem.micro[1], Second(n))
  }

  lemma {:induction false} SerialSlots<V, K>(u: Setup<V, K>, mem: Memory<V, K>, n: nat) returns (r: Memory<V, K>)
    requires Two(u, mem) && u.m.layers > 0 && n <= 2 * u.m.layers + 1
    ensures Two(u, r) && Leads(u, mem, Flat(Slots(u.m.layers, n)), None, r) && Reached(u, mem, n, r)
    ensures n == 2 * u.m.layers + 1 ==> r.outputGpu[(u.m.layers - 1) % 2] == r.micro[1].hidden
  {
    hide Leads, Reached, Flat, Slots, SlotOps, Serial, Halves;
    if n == 0 {
      r := NoSlotsSerial(u, mem);
    } else {
      var p := SerialSlots(u, mem, n - 1);
      FlatSlots(u.m.layers, n - 1);
      r := SlotAdvances(u, mem, n - 1, p);
    }
  }

  lemma NoSlotsSerial<V, K>(u: Setup<V, K>, mem: Memory<V, K>) returns (r: Memory<V, K>)
    requires Two(u, mem) && u.m.layers > 0
    ensures Two(u, r) && Leads(u, mem, Flat(Slots(u.m.layers, 0)), None, r) && Reached(u, mem, 0, r)
  {
    r := mem;
    assert Slots(u.m.layers, 0) == [];
  }

  lemma SlotAdvances<V, K>(u: Setup<V, K>, mem: Memory<V, K>, i: nat, p: Memory<V, K>) returns (r: Memory<V, K>)
    requires Two(u, mem) && Two(u, p) && u.m.layers > 0 && i <= 2 * u.m.layers
    requires Leads(u, mem, Flat(Slots(u.m.layers, i)), None, p) && Reached(u, mem, i, p)
    ensures Two(u, r) && Leads(u, mem, Flat(Slots(u.m.layers, i)) + SlotOps(u.m.layers, i), None, r)
    ensures Reached(u, mem, i + 1, r)
    ensures i == 2 * u.m.layers ==> r.outputGpu[(u.m.layers - 1) % 2] == r.micro[1].hidden
  {
    hide Leads, Attention, Experts, Halves, Flat, Slots, SlotOps;
    NextHalf(u.m, u.positions[0], mem.micro[0], 0, i);
    if i == 0 {
      r := FirstSlotSerial(u, mem, p);
    } else {
      NextHalf(u.m, u.positions[1], mem.micro[1], 1, i - 1);
      r := NextSlotSerial(u, mem, i, p);
    }
  }

  lemma FirstSlotSerial<V, K>(u: Setup<V, K>, mem: Memory<V, K>, p: Memory<V, K>) returns (r: Memory<V, K>)
    requires Two(u, mem) && Two(u, p) && u.m.layers > 0
    requires Leads(u, mem, Flat(Slots(u.m.layers, 0)), None, p)
    ensures Two(u, r) && Leads(u, mem, Flat(Slots(u.m.layers, 0)) + SlotOps(u.m.layers, 0), None, r)
    ensures r.micro[0] == Attention(u.m, 0, u.positions[0], p.micro[0]) && r.micro[1] == p.micro[1]
  {
    hide Leads, Attention, Flat;
    Append(u, mem, Flat(Slots(u.m.layers, 0)), Attn(0, 0), None, p);
    r := Serial(u, p, Attn(0, 0));
  }

  lemma NextSlotSerial<V, K>(u: Setup<V, K>, mem: Memory<V, K>, i: nat, p: Memory<V, K>) returns (r: Memory<V, K>)
    requires Two(u, mem) && Two(u, p) && u.m.layers > 0 && 0 < i <= 2 * u.m.layers
    requires var mb := if i == 2 * u.m.layers then 1 else 1 - i % 2; p.micro[mb].topk.Some?
    requires Leads(u, mem, Flat(Slots(u.m.layers, i)), None, p)
    ensures Two(u, r) && Leads(u, mem, Flat(Slots(u.m.layers, i)) + SlotOps(u.m.layers, i), None, r)
    ensures i == 2 * u.m.layers ==>
              && r.micro[1] == Experts(u.m, u.m.layers - 1, p.micro[1]) && r.micro[0] == p.micro[0]
              && r.outputGpu[(u.m.layers - 1) % 2] == r.micro[1].hidden
    ensures i < 2 * u.m.layers ==>
              && r.micro[1 - i % 2] == Experts(u.m, (i - 1) / 2, p.micro[1 - i % 2])
              && r.micro[i % 2] == Attention(u.m, i / 2, u.positions[i % 2], p.micro[i % 2])
  {
    hide Leads, Attention, Experts, Flat;
    var ops := Flat(Slots(u.m.layers, i));
    if i == 2 * u.m.layers {
      r := ExpertsSlot(u, mem, ops, p, 1, u.m.layers - 1, None);
      assert Before(1, u.m.layers - 1) + [] + After(1, u.m.layers - 1) == SlotOps(u.m.layers, i);
    } else {
      r := ExpertsSlot(u, mem, ops, p, 1 - i % 2, (i - 1) / 2, Some(i / 2));
      assert 1 - (1 - i % 2) == i % 2;
    }
  }

  /** The whole pipeline, run serially. */
  lemma SerialPipeline<V, K>(u: Setup<V, K>, mem: Memory<V, K>) returns (r: Memory<V, K>)
    requires Two(u, mem) && u.m.layers > 0 && u.program == Pipeline(u.m.layers)
    ensures Disciplined(Flat(u.program)) && OpenTask(Flat(u.program)).None? && AllOk(Flat(u.program))
    ensures Two(u, r) && SerialRun(u, mem, Flat(u.program)) == r
    ensures forall mb | 0 <= mb < 2 :: r.micro[mb] == Layers(u.m, u.positions[mb], mem.micro[mb], u.m.layers)
    ensures r.outputGpu[(u.m.layers - 1) % 2] == r.micro[1].hidden
  {
    hide Leads, Halves, Layers, SerialRun, Flat, Slots, OpenTask, AllOk, Disciplined;
    r := SerialSlots(u, mem, 2 * u.m.layers + 1);
    LeadsMeans(u, mem, Flat(u.program), None, r);
    HalvesAreLayers(u.m, u.positions[0], mem.micro[0], u.m.layers);
    HalvesAreLayers(u.m, u.positions[1], mem.micro[1], u.m.layers);
  }

  lemma LeadsMeans<V, K>(u: Setup<V, K>, mem: Memory<V, K>, ops: seq<Op>, task: Option<nat>, r: Memory<V, K>)
    requires Two(u, mem) && Leads(u, mem, ops, task, r)
    ensures Disciplined(ops) && AllOk(ops) && OpenTask(ops) == task && SerialRun(u, mem, ops) == r
  {
  }

  /**
   However the host, the stream and the worker interleave, the pipeline ends with each microbatch as running it alone,
   layer by layer, leaves it.
   */
  lemma OverlapIsHarmless<V, K>(u: Setup<V, K>, mem: Memory<V, K>, actions: seq<Action>)
    requires Two(u, mem) && u.m.layers > 0 && u.program == Pipeline(u.m.layers)
    requires ValidRun(u, Initial(mem), actions) && Finished(u, RunTo(u, Initial(mem), actions))
    ensures forall mb | 0 <= mb < 2 ::
              RunTo(u, Initial(mem), actions).mem.micro[mb] == Layers(u.m, u.positions[mb], mem.micro[mb], u.m.layers)
  {
    hide Pipeline, Flat, Disciplined, OpenTask, AllOk, SerialRun, Layers, ValidRun, RunTo, Finished;
    var r := SerialPipeline(u, mem);
    EveryInterleavingIsSerial(u, mem, actions);
  }

  /** The pipeline waits for every task, so what holds of any disciplined program holds of it. */
  lemma PipelineIsDisciplined<V, K>(u: Setup<V, K>, mem: Memory<V, K>)
    requires Two(u, mem) && u.m.layers > 0 && u.program == Pipeline(u.m.layers)
    ensures Disciplined(Flat(u.program)) && OpenTask(Flat(u.program)).None? && Inv(u, mem, Initial(mem))
  {
    hide Pipeline, Flat, Disciplined, OpenTask, AllOk, SerialRun, Layers;
    var r := SerialPipeline(u, mem);
    InitialInv(u, mem);
  }

  /** No slot of the pipeline deadlocks: a run that has not finished can go on, and no run is longer than its work. */
  lemma PipelineNeverSticks<V, K>(u: Setup<V, K>, mem: Memory<V, K>, actions: seq<Action>) returns (a: Action)
    requires Two(u, mem) && u.m.layers > 0 && u.program == Pipeline(u.m.layers) && ValidRun(u, Initial(mem), actions)
    ensures !Finished(u, RunTo(u, Initial(mem), actions)) ==> Enabled(u, RunTo(u, Initial(mem), actions), a)
    ensures |actions| <= 5 * |Flat(u.program)| + |u.program|
  {
    hide Pipeline, Disciplined, Flat, Inv, RunTo, ValidRun, Enabled, Finished;
    PipelineIsDisciplined(u, mem);
    RunsEnd(u, mem, Initial(mem), actions);
    RunKeepsInv(u, mem, Initial(mem), actions);
    a := Issue;
    if !Finished(u, RunTo(u, Initial(mem), actions)) {
      a := SomethingCanHappen(u, mem, RunTo(u, Initial(mem), actions));
    }
  }

  /**
   Why results are copied out of the wrapper's buffer: both microbatches' last results come through the same buffer, and
   at the end it holds the second one's.
   */
  lemma BufferIsReused<V, K>(u: Setup<V, K>, mem: Memory<V, K>, actions: seq<Action>)
    requires Two(u, mem) && u.m.layers > 0 && u.program == Pipeline(u.m.layers)
    requires ValidRun(u, Initial(mem), actions) && Finished(u, RunTo(u, Initial(mem), actions))
    ensures RunTo(u, Initial(mem), actions).mem.outputGpu[(u.m.layers - 1) % 2] ==
            Layers(u.m, u.positions[1], mem.micro[1], u.m.layers).hidden
    ensures CopyOut((u.m.layers - 1) % 2) in SlotOps(u.m.layers, 2 * u.m.layers - 1)
    ensures Clone(0, (u.m.layers - 1) % 2) in SlotOps(u.m.layers, 2 * u.m.layers - 1)
  {
    BothUseOneBuffer(u.m.layers);
    hide Pipeline, Flat, Disciplined, OpenTask, AllOk, SerialRun, Layers, ValidRun, RunTo, Finished, SlotOps;
    var r := SerialPipeline(u, mem);
    EveryInterleavingIsSerial(u, mem, actions);
  }

  lemma BothUseOneBuffer(layers: nat)
    requires layers > 0
    ensures CopyOut((layers - 1) % 2) in SlotOps(layers, 2 * layers - 1)
    ensures Clone(0, (layers - 1) % 2) in SlotOps(layers, 2 * layers - 1)
  {
    var ops := SlotOps(layers, 2 * layers - 1);
    assert ops[4] == CopyOut((layers - 1) % 2) && ops[5] == Clone(0, (layers - 1) % 2);
  }
}
