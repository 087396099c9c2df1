/**
 The pipeline as it really runs: the host only issues work and waits at the end of each time slot, a stream executes
 copies, kernels and host callbacks in order, and the task queue's worker computes experts beside it.
 */
module StreamOverlap {
  import opened Options
  import opened DualBatchRunner

  /** Work issued to the stream. `slot` is a staging slot; a submitted task uses the slot of its layer's parity. */
  datatype Op =
    | CopyIn(mb: nat, slot: nat)      // hidden states, ids and weights to the CPU
    | Submit(layer: nat)              // callback: enqueue the experts' task
    | Attn(mb: nat, layer: nat)
    | Sync                            // callback: block until no task is pending
    | CopyOut(slot: nat)              // the CPU result into the slot's GPU buffer
    | Clone(mb: nat, slot: nat)       // that buffer into the microbatch's own hidden states

  datatype Memory<V, K> = Memory(
    micro: seq<Micro<V, K>>, outputGpu: seq<V>, staged: seq<Staged<V>>, outputCpu: seq<V>)

  /** What never changes: the model, the two microbatches' positions, and the slots' operations. */
  datatype Setup<!V, !K> = Setup(m: Model<V, K>, positions: seq<V>, program: seq<seq<Op>>)

  /**
   `done` is what the stream has executed and `race` whether a buffer was touched under a task; both only state
   properties.
   */
  datatype State<V, K> = State(
    slot: nat, issued: nat, stream: seq<Op>, done: seq<Op>, mem: Memory<V, K>,
    queue: seq<nat>, running: Option<nat>, race: bool)

  datatype Action = Issue | NextSlot | Execute | Take | Finish

  predicate Two<V, K>(u: Setup<V, K>, mem: Memory<V, K>) {
    |u.positions| == |mem.micro| == |mem.outputGpu| == |mem.staged| == |mem.outputCpu| == 2
  }

  predicate OpOk(op: Op) {
    match op
    case CopyIn(mb, slot) => mb < 2 && slot < 2
    case Attn(mb, _) => mb < 2
    case CopyOut(slot) => slot < 2
    case Clone(mb, slot) => mb < 2 && slot < 2
    case _ => true
  }

  predicate AllOk(ops: seq<Op>) {
    forall i | 0 <= i < |ops| :: OpOk(ops[i])
  }

  // ---------- one operation ----------

  function Result<V, K>(u: Setup<V, K>, mem: Memory<V, K>, layer: nat): V
    requires Two(u, mem)
  {
    var s := mem.staged[layer % 2];
    u.m.experts(layer, s.input, s.ids, s.weights)
  }

  function Compute<V, K>(u: Setup<V, K>, mem: Memory<V, K>, layer: nat): Memory<V, K>
    requires Two(u, mem)
  {
    mem.(outputCpu := mem.outputCpu[layer % 2 := Result(u, mem, layer)])
  }

  /** What the stream itself does to memory. */
  function Effect<V, K>(u: Setup<V, K>, mem: Memory<V, K>, op: Op): Memory<V, K>
    requires Two(u, mem) && OpOk(op)
  {
    match op
    case CopyIn(mb, slot) =>
      var b := mem.micro[mb];
      if b.topk.None? then mem
      else mem.(staged := mem.staged[slot := Staged(b.hidden, b.topk.value.0, b.topk.value.1)])
    case Attn(mb, layer) =>
      mem.(micro := mem.micro[mb := Attention(u.m, layer, u.positions[mb], mem.micro[mb])])
    case CopyOut(slot) => mem.(outputGpu := mem.outputGpu[slot := mem.outputCpu[slot]])
    case Clone(mb, slot) =>
      mem.(micro := mem.micro[mb := mem.micro[mb].(hidden := mem.outputGpu[slot], topk := None)])
    case _ => mem
  }

  /** Without a worker: a submitted task is computed on the spot. */
  function Serial<V, K>(u: Setup<V, K>, mem: Memory<V, K>, op: Op): Memory<V, K>
    requires Two(u, mem) && OpOk(op)
  {
    if op.Submit? then Compute(u, mem, op.layer) else Effect(u, mem, op)
  }

  function SerialRun<V, K>(u: Setup<V, K>, mem: Memory<V, K>, ops: seq<Op>): (r: Memory<V, K>)
    requires Two(u, mem) && AllOk(ops)
    ensures Two(u, r)
  {
    if ops == [] then mem else Serial(u, SerialRun(u, mem, ops[..|ops| - 1]), ops[|ops| - 1])
  }

  // ---------- the machine ----------

  function Pending<V, K>(s: State<V, K>): nat {
    |s.queue| + if s.running.Some? then 1 else 0
  }

  /** A task on this slot is queued or running. */
  predicate Busy<V, K>(s: State<V, K>, slot: nat) {
    (exists i | 0 <= i < |s.queue| :: s.queue[i] % 2 == slot) || (s.running.Some? && s.running.value % 2 == slot)
  }

  predicate Enabled<V, K>(u: Setup<V, K>, s: State<V, K>, a: Action) {
    match a
    case Issue => s.slot < |u.program| && s.issued < |u.program[s.slot]|
    case NextSlot => s.slot < |u.program| && s.issued == |u.program[s.slot]| && s.stream == []
    case Execute => s.stream != [] && OpOk(s.stream[0]) && (s.stream[0].Sync? ==> Pending(s) == 0)
    case Take => s.queue != [] && s.running.None?
    case Finish => s.running.Some?
  }

  function Apply<V, K>(u: Setup<V, K>, s: State<V, K>, a: Action): (r: State<V, K>)
    requires Two(u, s.mem) && Enabled(u, s, a)
    ensures Two(u, r.mem)
  {
    match a
    case Issue => s.(issued := s.issued + 1, stream := s.stream + [u.program[s.slot][s.issued]])
    case NextSlot => s.(slot := s.slot + 1, issued := 0)
    case Execute =>
      var op := s.stream[0];
      s.(stream := s.stream[1..], done := s.done + [op], mem := Effect(u, s.mem, op),
         queue := if op.Submit? then s.queue + [op.layer] else s.queue,
         race := s.race || ((op.CopyIn? || op.CopyOut?) && Busy(s, op.slot)))
    case Take => s.(queue := s.queue[1..], running := Some(s.queue[0]))
    case Finish => s.(running := None, mem := Compute(u, s.mem, s.running.value))
  }

  function Initial<V, K>(mem: Memory<V, K>): State<V, K> {
    State(0, 0, [], [], mem, [], None, false)
  }

  ghost predicate ValidRun<V, K>(u: Setup<V, K>, s: State<V, K>, actions: seq<Action>)
    requires Two(u, s.mem)
    decreases |actions|
  {
    actions == [] || (Enabled(u, s, actions[0]) && ValidRun(u, Apply(u, s, actions[0]), actions[1..]))
  }

  ghost function RunTo<V, K>(u: Setup<V, K>, s: State<V, K>, actions: seq<Action>): (r: State<V, K>)
    requires Two(u, s.mem) && ValidRun(u, s, actions)
    ensures Two(u, r.mem)
    decreases |actions|
  {
    if actions == [] then s else RunTo(u, Apply(u, s, actions[0]), actions[1..])
  }

  /** The last slot's synchronisation has returned. */
  predicate Finished<V, K>(u: Setup<V, K>, s: State<V, K>) {
    s.slot >= |u.program|
  }

  // ---------- programs that wait for a task before touching its buffers ----------

  /** The task submitted and not yet waited for. */
  function OpenTask(ops: seq<Op>): Option<nat> {
    if ops == [] then None
    else
      var op := ops[|ops| - 1];
      if op.Submit? then Some(op.layer) else if op.Sync? then None else OpenTask(ops[..|ops| - 1])
  }

  predicate Waits(ops: seq<Op>, k: nat)
    requires k < |ops|
  {
    && OpOk(ops[k])
    && (ops[k].Submit? || ops[k].CopyIn? || ops[k].CopyOut? ==> OpenTask(ops[..k]).None?)
  }

  ghost predicate Disciplined(ops: seq<Op>) {
    forall k | 0 <= k < |ops| :: Waits(ops, k)
  }

  function Flat(program: seq<seq<Op>>): seq<Op> {
    if program == [] then [] else Flat(program[..|program| - 1]) + program[|program| - 1]
  }

  function Issued<V, K>(u: Setup<V, K>, s: State<V, K>): seq<Op>
    requires s.slot < |u.program| ==> s.issued <= |u.program[s.slot]|
  {
    if s.slot < |u.program| then Flat(u.program[..s.slot]) + u.program[s.slot][..s.issued] else Flat(u.program)
  }

  lemma {:induction false} FlatPrefix(program: seq<seq<Op>>, n: nat)
    requires n <= |program|
    ensures Flat(program[..n]) <= Flat(program)
    decreases |program|
  {
    if n == |program| {
      assert program[..n] == program;
    } else {
      FlatPrefix(program[..|program| - 1], n);
      assert program[..|program| - 1][..n] == program[..n];
    }
  }

  lemma FlatSnoc(program: seq<seq<Op>>, n: nat)
    requires n < |program|
    ensures Flat(program[..n + 1]) == Flat(program[..n]) + program[n]
  {
    assert program[..n + 1][..n] == program[..n];
  }

  // ---------- every interleaving is the serial run ----------

  /** The stream's memory is the serial one, but for the result of a task still pending. */
  ghost predicate Agrees<V, K>(u: Setup<V, K>, s: State<V, K>, serial: Memory<V, K>)
    requires Two(u, s.mem) && Two(u, serial)
  {
    && s.mem.(outputCpu := serial.outputCpu) == serial
    && (forall slot | 0 <= slot < 2 :: !Busy(s, slot) ==> s.mem.outputCpu[slot] == serial.outputCpu[slot])
  }

  /** At most one task is pending: the open one. Its result is what the serial run has already stored. */
  ghost predicate TaskOk<V, K>(u: Setup<V, K>, s: State<V, K>, serial: Memory<V, K>)
    requires Two(u, serial)
  {
    var task := OpenTask(s.done);
    && Pending(s) <= 1
    && (s.queue != [] ==> task == Some(s.queue[0]))
    && (s.running.Some? ==> task == s.running)
    && (task.Some? ==> serial.outputCpu[task.value % 2] == Result(u, serial, task.value))
  }

  ghost predicate Inv<V, K>(u: Setup<V, K>, mem: Memory<V, K>, s: State<V, K>)
    requires Two(u, mem)
  {
    && Two(u, s.mem) && Disciplined(Flat(u.program)) && AllOk(s.done)
    && (s.slot < |u.program| ==> s.issued <= |u.program[s.slot]|)
    && (Finished(u, s) ==> s.stream == [])
    && s.done + s.stream == Issued(u, s)
    && Agrees(u, s, SerialRun(u, mem, s.done))
    && TaskOk(u, s, SerialRun(u, mem, s.done))
    && !s.race
  }

  lemma IssuedIsPrefix<V, K>(u: Setup<V, K>, s: State<V, K>)
    requires s.slot < |u.program| ==> s.issued <= |u.program[s.slot]|
    ensures Issued(u, s) <= Flat(u.program)
  {
    if s.slot < |u.program| {
      FlatSnoc(u.program, s.slot);
      FlatPrefix(u.program, s.slot + 1);
    }
  }

  lemma SerialSnoc<V, K>(u: Setup<V, K>, mem: Memory<V, K>, ops: seq<Op>, op: Op)
    requires Two(u, mem) && AllOk(ops) && OpOk(op)
    ensures SerialRun(u, mem, ops + [op]) == Serial(u, SerialRun(u, mem, ops), op)
    ensures OpenTask(ops + [op]) == if op.Submit? then Some(op.layer) else if op.Sync? then None else OpenTask(ops)
  {
    assert (ops + [op])[..|ops|] == ops;
  }

  lemma DisciplinedOk(ops: seq<Op>)
    requires Disciplined(ops)
    ensures AllOk(ops)
  {
    forall i | 0 <= i < |ops| ensures OpOk(ops[i]) {
      assert Waits(ops, i);
    }
  }

  /** The next operation of the stream comes next in the program, so the program's discipline covers it. */
  lemma NextOpWaits<V, K>(u: Setup<V, K>, s: State<V, K>)
    requires Disciplined(Flat(u.program)) && (s.slot < |u.program| ==> s.issued <= |u.program[s.slot]|)
    requires s.done + s.stream == Issued(u, s) && s.stream != []
    ensures AllOk(s.done + [s.stream[0]])
    ensures s.stream[0].Submit? || s.stream[0].CopyIn? || s.stream[0].CopyOut? ==> OpenTask(s.done).None?
  {
    IssuedIsPrefix(u, s);
    var n := |s.done|;
    var all := Flat(u.program);
    assert all[..n + 1] == Issued(u, s)[..n + 1] == s.done + [s.stream[0]];
    DisciplinedOk(all);
    assert Waits(all, n) && all[..n] == s.done && all[n] == s.stream[0];
  }

  lemma ExecuteKeeps<V, K>(u: Setup<V, K>, mem: Memory<V, K>, s: State<V, K>)
    requires Two(u, mem) && Inv(u, mem, s) && Enabled(u, s, Execute)
    ensures Inv(u, mem, Apply(u, s, Execute))
  {
    hide Agrees, TaskOk, Serial, Effect, SerialRun, OpenTask, Disciplined, Waits, Flat;
    var s' := Apply(u, s, Execute);
    var op := s.stream[0];
    NextOpWaits(u, s);
    SerialSnoc(u, mem, s.done, op);
    assert s'.done + s'.stream == s.done + s.stream;
    ExecuteAgrees(u, s, SerialRun(u, mem, s.done));
  }

  lemma ExecuteAgrees<V, K>(u: Setup<V, K>, s: State<V, K>, serial: Memory<V, K>)
    requires Two(u, s.mem) && Two(u, serial) && Enabled(u, s, Execute)
    requires Agrees(u, s, serial) && TaskOk(u, s, serial)
    requires var op := s.stream[0]; op.Submit? || op.CopyIn? || op.CopyOut? ==> OpenTask(s.done).None?
    ensures var s', serial' := Apply(u, s, Execute), Serial(u, serial, s.stream[0]);
            Two(u, s'.mem) && Agrees(u, s', serial') && TaskOk(u, s', serial') && s'.race == s.race
  {
    hide Agrees, TaskOk, Apply, Serial, OpenTask;
    if s.stream[0].Submit? { SubmitAgrees(u, s, serial); } else { OtherOpAgrees(u, s, serial); }
  }

  lemma NothingBusy<V, K>(u: Setup<V, K>, s: State<V, K>, serial: Memory<V, K>)
    requires Two(u, serial) && TaskOk(u, s, serial) && OpenTask(s.done).None?
    ensures s.queue == [] && s.running.None? && !Busy(s, 0) && !Busy(s, 1)
  {
  }

  lemma SubmitAgrees<V, K>(u: Setup<V, K>, s: State<V, K>, serial: Memory<V, K>)
    requires Two(u, s.mem) && Two(u, serial) && Enabled(u, s, Execute) && s.stream[0].Submit?
    requires Agrees(u, s, serial) && TaskOk(u, s, serial) && OpenTask(s.done).None?
    ensures var s', serial' := Apply(u, s, Execute), Serial(u, serial, s.stream[0]);
            Two(u, s'.mem) && Agrees(u, s', serial') && TaskOk(u, s', serial') && s'.race == s.race
  {
    NothingBusy(u, s, serial);
    var op, s' := s.stream[0], Apply(u, s, Execute);
    assert (s.done + [op])[..|s.done|] == s.done;
    assert s'.queue[0] % 2 == op.layer % 2 && Busy(s', op.layer % 2);
  }

  lemma OtherOpAgrees<V, K>(u: Setup<V, K>, s: State<V, K>, serial: Memory<V, K>)
    requires Two(u, s.mem) && Two(u, serial) && Enabled(u, s, Execute) && !s.stream[0].Submit?
    requires Agrees(u, s, serial) && TaskOk(u, s, serial)
    requires s.stream[0].CopyIn? || s.stream[0].CopyOut? ==> OpenTask(s.done).None?
    ensures var s', serial' := Apply(u, s, Execute), Serial(u, serial, s.stream[0]);
            Two(u, s'.mem) && Agrees(u, s', serial') && TaskOk(u, s', serial') && s'.race == s.race
  {
    if OpenTask(s.done).None? { NothingBusy(u, s, serial); }
    assert (s.done + [s.stream[0]])[..|s.done|] == s.done;
  }

  lemma WorkerKeeps<V, K>(u: Setup<V, K>, mem: Memory<V, K>, s: State<V, K>, a: Action)
    requires Two(u, mem) && Inv(u, mem, s) && Enabled(u, s, a) && (a.Take? || a.Finish?)
    ensures Inv(u, mem, Apply(u, s, a))
  {
    var serial := SerialRun(u, mem, s.done);
    WorkerAgrees(u, s, serial, a);
    hide Agrees, TaskOk, Disciplined, SerialRun;
  }

  lemma WorkerAgrees<V, K>(u: Setup<V, K>, s: State<V, K>, serial: Memory<V, K>, a: Action)
    requires Two(u, s.mem) && Two(u, serial) && Enabled(u, s, a) && (a.Take? || a.Finish?)
    requires Agrees(u, s, serial) && TaskOk(u, s, serial)
    ensures var s' := Apply(u, s, a); Two(u, s'.mem) && Agrees(u, s', serial) && TaskOk(u, s', serial)
  {
    var s' := Apply(u, s, a);
    if a.Take? {
      assert Busy(s, s.queue[0] % 2);
    } else {
      assert s.queue == [];
    }
  }

  lemma HostKeeps<V, K>(u: Setup<V, K>, mem: Memory<V, K>, s: State<V, K>, a: Action)
    requires Two(u, mem) && Inv(u, mem, s) && Enabled(u, s, a) && (a.Issue? || a.NextSlot?)
    ensures Inv(u, mem, Apply(u, s, a))
  {
    hide Agrees, TaskOk, Disciplined, SerialRun, Flat;
    var s' := Apply(u, s, a);
    SameTask(u, s, a, SerialRun(u, mem, s.done));
    FlatSnoc(u.program, s.slot);
    if a.Issue? {
      var ops := u.program[s.slot];
      assert ops[..s.issued + 1] == ops[..s.issued] + [ops[s.issued]];
      assert s'.done + s'.stream == (s.done + s.stream) + [ops[s.issued]];
    } else {
      assert u.program[s.slot][..s.issued] == u.program[s.slot];
      if s.slot + 1 == |u.program| {
        assert u.program[..s.slot + 1] == u.program;
      }
    }
  }

  lemma SameTask<V, K>(u: Setup<V, K>, s: State<V, K>, a: Action, serial: Memory<V, K>)
    requires Two(u, s.mem) && Two(u, serial) && Enabled(u, s, a) && (a.Issue? || a.NextSlot?)
    requires Agrees(u, s, serial) && TaskOk(u, s, serial)
    ensures Agrees(u, Apply(u, s, a), serial) && TaskOk(u, Apply(u, s, a), serial)
  {
  }

  lemma StepKeeps<V, K>(u: Setup<V, K>, mem: Memory<V, K>, s: State<V, K>, a: Action)
    requires Two(u, mem) && Inv(u, mem, s) && Enabled(u, s, a)
    ensures Inv(u, mem, Apply(u, s, a))
  {
    hide Inv, Apply, Enabled;
    if a.Execute? {
      ExecuteKeeps(u, mem, s);
    } else if a.Take? || a.Finish? {
      WorkerKeeps(u, mem, s, a);
    } else {
      HostKeeps(u, mem, s, a);
    }
  }

  /** Every state of every interleaving. */
  lemma {:induction false} RunKeepsInv<V, K>(u: Setup<V, K>, mem: Memory<V, K>, s: State<V, K>, actions: seq<Action>)
    requires Two(u, mem) && Inv(u, mem, s) && ValidRun(u, s, actions)
    ensures Inv(u, mem, RunTo(u, s, actions))
    decreases |actions|
  {
    if actions != [] {
      StepKeeps(u, mem, s, actions[0]);
      hide Inv, Apply, Enabled;
      RunKeepsInv(u, mem, Apply(u, s, actions[0]), actions[1..]);
    }
  }

  lemma InitialInv<V, K>(u: Setup<V, K>, mem: Memory<V, K>)
    requires Two(u, mem) && Disciplined(Flat(u.program))
    ensures Inv(u, mem, Initial(mem))
  {
  }
}
