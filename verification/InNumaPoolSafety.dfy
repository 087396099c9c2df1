/** What every reachable state of the worker pool satisfies, over any sequence of jobs. */
module InNumaPoolSafety {
  import opened Handshake
  import opened InNumaPool

  /** Where a thread stands with respect to the current job. */
  datatype Stage = NotEntered | Inside(phase: Phase) | Finished

  predicate Exiting(m: Main) {
    m.ExitPost? || m.ExitNotify? || m.Join? || m.Destroyed?
  }

  /** How many threads have been told about the current job. */
  function Posted(m: Main, workerCount: int): int {
    match m
    case Post(i) => i
    case Notify(i) => i + 1
    case Write(_, _) => 0
    case _ => workerCount
  }

  function StageOf(m: Main, workerCount: int, t: nat, cell: Cell<Phase>): Stage {
    if t == 0 then
      match m
      case Write(_, _) => NotEntered
      case Post(_) => NotEntered
      case Notify(_) => NotEntered
      case Own(ph) => Inside(ph)
      case _ => Finished
    else if cell.pc.In? then Inside(cell.pc.phase)
    else if t < Posted(m, workerCount) && cell.status.WAITING? then Finished
    else NotEntered
  }

  // ---------- one thread ----------

  predicate ThreadOk(m: Main, workerCount: int, t: nat, c: Cell<Phase>) {
    && CellOk(c, m == Notify(t) || m == ExitNotify(t))
    && (Exiting(m) ==>
          && !c.pc.In?
          && c.status == (match m
                          case ExitPost(i) => if t < i then EXIT else WAITING
                          case ExitNotify(i) => if t <= i then EXIT else WAITING
                          case _ => EXIT)
          && (m.Join? && t < m.i ==> c.pc.Gone?)
          && (m.Destroyed? ==> c.pc.Gone?))
    && (!Exiting(m) ==>
          && !c.status.EXIT?
          && (c.status.WORKING? ==> t < Posted(m, workerCount))
          && (m.Idle? ==> c.status.WAITING?)
          && (m.Wait? && t < m.i ==> c.status.WAITING?))
  }

  ghost predicate ThreadsOk(m: Main, workerCount: int, cells: seq<Cell<Phase>>) {
    forall t | 1 <= t < |cells| :: ThreadOk(m, workerCount, t, cells[t])
  }

  /** The calling thread's own cell: nobody sleeps on it, and it reads WORKING only around its own part of the job. */
  predicate OwnCellOk(m: Main, c: Cell<Phase>) {
    && c.pc.Poll?
    && (m.Idle? || m.Write? || m.Returned? || m.Wait? ==> c.status.WAITING?)
  }

  function Smaller(a: int, b: int): int {
    if a <= b then a else b
  }

  /** Job fields as the dispatcher wrote them. */
  predicate FieldsOk(s: State) {
    && (s.main.Own? || s.main.Returned? || s.main.Wait? || s.main.Idle? ==> s.workerCount <= |s.cells|)
    && (s.main.Returned? || s.main.Wait? || s.main.Idle? ==> s.hist.jobs > 0 ==> !(s.workerCount == 0 && s.end > 0))
    && (s.main.Post? && s.workerCount == 0 ==> s.curr == 0)
    && (s.main.Own? && s.workerCount == 0 && s.end > 0 ==> s.curr == 0 && (s.main.phase.Init? || s.main.phase.Load?))
    && (s.main.Crashed? ==> s.main.why == if s.workerCount == 0 && s.end > 0 then DivideByZero else OutOfRange)
    && (s.main.Crashed? && s.main.why.OutOfRange? ==> s.workerCount > |s.cells|)
    && (s.main.Write? && s.main.step >= 3 ==> s.curr == 0)
    && (s.main.Write? ==> s.main.taskNum == s.hist.asked)
    && (s.main.Write? && s.main.step < 2 ==> s.restricted == s.hist.limit)
    && (s.main.Write? && s.main.step >= 2 ==> s.workerCount == Smaller(s.hist.limit, s.hist.asked))
    && (s.hist.jobs > 0 && !s.main.Write? ==>
          s.end == s.hist.asked && s.workerCount == Smaller(s.hist.limit, s.hist.asked))
    && (s.main.Write? ==> s.main.step <= 3)
    && (s.main.Post? ==> s.main.i <= |s.cells| && s.main.i <= (if s.workerCount > 0 then s.workerCount else 0))
    && (s.main.Notify? ==> s.main.i < |s.cells| && s.main.i < s.workerCount)
    && (s.main.Wait? ==> s.main.i <= (if s.workerCount > 0 then s.workerCount else 0))
    && (s.main.ExitPost? ==> s.main.i <= |s.cells|)
    && (s.main.ExitNotify? ==> s.main.i < |s.cells|)
    && (s.main.Join? ==> s.main.i <= |s.cells|)
    && (s.hist.jobs > 0 && !s.main.Write? ==> s.curr >= 0)
    && (s.hist.jobs == 0 ==> s.main.Idle? || Exiting(s.main) || (s.main.Write? && s.main.step == 0))
    && |s.hist.entered| == |s.cells|
  }

  // ---------- the job ----------

  function Stages(s: State): (r: seq<Stage>)
    ensures |r| == |s.cells|
    ensures forall t | 0 <= t < |r| :: r[t] == StageOf(s.main, s.workerCount, t, s.cells[t])
  {
    seq(|s.cells|, t requires 0 <= t < |s.cells| => StageOf(s.main, s.workerCount, t, s.cells[t]))
  }

  /** Init ran before anything else and once, finalize last and once; nobody leaves the loop with tasks remaining. */
  predicate MemberOk(h: History, curr: int, end: int, t: nat, stage: Stage) {
    && t < |h.entered|
    && h.entered[t] == (if t == 0 || stage.NotEntered? then 0 else 1)
    && match stage
       case NotEntered => t !in h.inited && t !in h.finalized && t !in h.over
       case Inside(ph) =>
         && (t in h.inited <==> !ph.Init?)
         && (t in h.finalized <==> ph.Report?)
         && (t in h.over ==> ph.Finalize? || ph.Report?)
         && (ph.Finalize? || ph.Report? ==> curr >= end)
         && (ph.Claim? ==> end > 0)
         && (ph.Compute? ==> ph.id in h.claimer && h.claimer[ph.id] == t)
       case Finished => t in h.inited && t in h.finalized && curr >= end
  }

  ghost predicate MembersOk(h: History, curr: int, end: int, stages: seq<Stage>) {
    forall t | 0 <= t < |stages| :: MemberOk(h, curr, end, t, stages[t])
  }

  predicate ClaimOk(h: History, curr: int, end: int, stages: seq<Stage>, id: int) {
    && id in h.claimer
    && h.claimer[id] < |stages|
    && 0 <= id < curr && id < end
    && stages[h.claimer[id]] == Inside(Compute(id))
  }

  function TimesComputed(h: History, curr: int, end: int, id: int): nat {
    if 0 <= id < curr && id < end && id !in h.claimer then 1 else 0
  }

  /** Each task id below the counter has been computed once, or is being computed by exactly one thread. */
  ghost predicate ClaimsOk(h: History, curr: int, end: int, stages: seq<Stage>) {
    && (forall id | id in h.claimer :: ClaimOk(h, curr, end, stages, id))
    && (forall id :: h.computed[id] == TimesComputed(h, curr, end, id))
  }

  /** A participant that will not push the counter past the end any more, and has not. */
  predicate Settled(h: History, stages: seq<Stage>, workerCount: int, t: nat) {
    && t < |stages| && (t == 0 || t < workerCount) && t !in h.over
    && match stages[t]
       case NotEntered => false
       case Inside(ph) => !ph.Init? && !ph.Claim?
       case Finished => true
  }

  /** Whoever claimed the last task is settled, so not every participant pushes the counter past the end. */
  ghost predicate SomeoneSettled(h: History, curr: int, end: int, stages: seq<Stage>, workerCount: int) {
    && (h.over != {} ==> end > 0)
    && (0 < end <= curr ==> exists t: nat :: Settled(h, stages, workerCount, t))
  }

  /** Only participants that found the counter past the end have pushed it further. */
  ghost predicate CounterOk(h: History, curr: int, end: int, stages: seq<Stage>, workerCount: int) {
    && 0 <= curr <= (if end > 0 then end else 0) + |h.over|
    && (forall t | t in h.over :: t < |stages| && (t == 0 || t < workerCount))
    && (forall t | t in h.inited :: t == 0 || t < workerCount)
    && (forall t | t in h.finalized :: t == 0 || t < workerCount)
    && SomeoneSettled(h, curr, end, stages, workerCount)
  }

  ghost predicate JobOk(s: State) {
    s.hist.jobs > 0 && !Exiting(s.main) && !s.main.Crashed? ==>
      && (!s.main.Write? ==>
           && MembersOk(s.hist, s.curr, s.end, Stages(s))
           && ClaimsOk(s.hist, s.curr, s.end, Stages(s))
           && CounterOk(s.hist, s.curr, s.end, Stages(s), s.workerCount))
      && (s.main.Write? && s.main.step > 0 ==> Fresh(s.hist))
  }

  ghost predicate Fresh(h: History) {
    && h.inited == h.finalized == h.over == {} && h.claimer == map[] && h.computed == multiset{}
    && forall t | 0 <= t < |h.entered| :: h.entered[t] == 0
  }

  ghost predicate Inv(s: State) {
    && |s.cells| >= 1
    && FieldsOk(s)
    && OwnCellOk(s.main, s.cells[0])
    && ThreadsOk(s.main, s.workerCount, s.cells)
    && JobOk(s)
    && !s.hist.race
  }

  // ---------- the job under one participant's steps ----------

  lemma StaysSettled(h: History, h': History, curr: int, end: int, stages: seq<Stage>, stages': seq<Stage>,
                     workerCount: int, t: nat)
    requires SomeoneSettled(h, curr, end, stages, workerCount) && h'.over == h.over
    requires |stages'| == |stages| && forall u | 0 <= u < |stages| && u != t :: stages'[u] == stages[u]
    requires Settled(h, stages, workerCount, t) ==> Settled(h', stages', workerCount, t)
    ensures SomeoneSettled(h', curr, end, stages', workerCount)
  {
    if 0 < end <= curr {
      var u: nat :| Settled(h, stages, workerCount, u);
      assert Settled(h', stages', workerCount, u);
    }
  }

  /** A participant entering, or the calling thread starting its own part. */
  lemma EnterKeepsJob(h: History, h': History, curr: int, end: int, stages: seq<Stage>, workerCount: int, t: nat)
    requires MembersOk(h, curr, end, stages) && ClaimsOk(h, curr, end, stages)
    requires CounterOk(h, curr, end, stages, workerCount)
    requires t < |stages| && stages[t] == NotEntered && |h.entered| == |stages|
    requires h' == if t == 0 then h else h.(entered := h.entered[t := h.entered[t] + 1])
    ensures MembersOk(h', curr, end, stages[t := Inside(Init)])
    ensures ClaimsOk(h', curr, end, stages[t := Inside(Init)])
    ensures CounterOk(h', curr, end, stages[t := Inside(Init)], workerCount)
  {
    var stages' := stages[t := Inside(Init)];
    assert MemberOk(h, curr, end, t, stages[t]);
    forall u | 0 <= u < |stages| ensures MemberOk(h', curr, end, u, stages'[u]) {
      assert MemberOk(h, curr, end, u, stages[u]);
    }
    forall id | id in h.claimer ensures ClaimOk(h', curr, end, stages', id) {
      assert ClaimOk(h, curr, end, stages, id);
    }
    forall id ensures h'.computed[id] == TimesComputed(h', curr, end, id) {
      assert h.computed[id] == TimesComputed(h, curr, end, id);
    }
    StaysSettled(h, h', curr, end, stages, stages', workerCount, t);
  }

  /** A participant reporting that it is done. */
  lemma ReportKeepsJob(h: History, curr: int, end: int, stages: seq<Stage>, workerCount: int, t: nat)
    requires MembersOk(h, curr, end, stages) && ClaimsOk(h, curr, end, stages)
    requires CounterOk(h, curr, end, stages, workerCount)
    requires t < |stages| && stages[t] == Inside(Report)
    ensures MembersOk(h, curr, end, stages[t := Finished])
    ensures ClaimsOk(h, curr, end, stages[t := Finished])
    ensures CounterOk(h, curr, end, stages[t := Finished], workerCount)
  {
    var stages' := stages[t := Finished];
    assert MemberOk(h, curr, end, t, stages[t]);
    forall u | 0 <= u < |stages| ensures MemberOk(h, curr, end, u, stages'[u]) {
      assert MemberOk(h, curr, end, u, stages[u]);
    }
    forall id | id in h.claimer ensures ClaimOk(h, curr, end, stages', id) {
      assert ClaimOk(h, curr, end, stages, id);
    }
    StaysSettled(h, h, curr, end, stages, stages', workerCount, t);
  }

  /** One step of `process_tasks` by participant `t`. */
  lemma PhaseKeepsMembers(s: State, stages: seq<Stage>, t: nat, ph: Phase)
    requires MembersOk(s.hist, s.curr, s.end, stages) && ClaimsOk(s.hist, s.curr, s.end, stages) && s.curr >= 0
    requires t < |stages| && stages[t] == Inside(ph) && !ph.Report?
    ensures var s' := PhaseEffect(s, t, ph);
            MembersOk(s'.hist, s'.curr, s'.end, stages[t := Inside(NextPhase(s, ph))])
  {
    var s' := PhaseEffect(s, t, ph);
    var stages' := stages[t := Inside(NextPhase(s, ph))];
    assert MemberOk(s.hist, s.curr, s.end, t, stages[t]);
    if ph.Compute? { assert ClaimOk(s.hist, s.curr, s.end, stages, ph.id); }
    forall u | 0 <= u < |stages| ensures MemberOk(s'.hist, s'.curr, s'.end, u, stages'[u]) {
      assert MemberOk(s.hist, s.curr, s.end, u, stages[u]);
    }
  }

  lemma PhaseKeepsClaims(s: State, stages: seq<Stage>, t: nat, ph: Phase)
    requires MembersOk(s.hist, s.curr, s.end, stages) && ClaimsOk(s.hist, s.curr, s.end, stages) && s.curr >= 0
    requires t < |stages| && stages[t] == Inside(ph) && !ph.Report?
    ensures var s' := PhaseEffect(s, t, ph);
            ClaimsOk(s'.hist, s'.curr, s'.end, stages[t := Inside(NextPhase(s, ph))])
  {
    var s' := PhaseEffect(s, t, ph);
    var stages' := stages[t := Inside(NextPhase(s, ph))];
    assert MemberOk(s.hist, s.curr, s.end, t, stages[t]);
    forall id | id in s'.hist.claimer ensures ClaimOk(s'.hist, s'.curr, s'.end, stages', id) {
      if id in s.hist.claimer { assert ClaimOk(s.hist, s.curr, s.end, stages, id); }
    }
    forall id ensures s'.hist.computed[id] == TimesComputed(s'.hist, s'.curr, s'.end, id) {
      assert s.hist.computed[id] == TimesComputed(s.hist, s.curr, s.end, id);
      if id in s.hist.claimer { assert ClaimOk(s.hist, s.curr, s.end, stages, id); }
      if ph.Compute? { assert ClaimOk(s.hist, s.curr, s.end, stages, ph.id); }
    }
  }

  lemma PhaseKeepsCounter(s: State, stages: seq<Stage>, t: nat, ph: Phase)
    requires MembersOk(s.hist, s.curr, s.end, stages)
    requires CounterOk(s.hist, s.curr, s.end, stages, s.workerCount)
    requires t < |stages| && stages[t] == Inside(ph) && !ph.Report? && (t == 0 || t < s.workerCount)
    ensures var s' := PhaseEffect(s, t, ph);
            CounterOk(s'.hist, s'.curr, s'.end, stages[t := Inside(NextPhase(s, ph))], s.workerCount)
  {
    assert MemberOk(s.hist, s.curr, s.end, t, stages[t]);
    PhaseSettles(s, stages, t, ph);
    hide SomeoneSettled, MemberOk, MembersOk;
  }

  /** The claim of the last task settles its thread; later claims are by others. */
  lemma PhaseSettles(s: State, stages: seq<Stage>, t: nat, ph: Phase)
    requires CounterOk(s.hist, s.curr, s.end, stages, s.workerCount)
    requires t < |stages| && MemberOk(s.hist, s.curr, s.end, t, stages[t])
    requires stages[t] == Inside(ph) && !ph.Report? && (t == 0 || t < s.workerCount)
    ensures var s' := PhaseEffect(s, t, ph);
            SomeoneSettled(s'.hist, s'.curr, s'.end, stages[t := Inside(NextPhase(s, ph))], s.workerCount)
  {
    var s' := PhaseEffect(s, t, ph);
    var stages' := stages[t := Inside(NextPhase(s, ph))];
    if ph.Claim? && s.curr < s.end {
      assert Settled(s'.hist, stages', s.workerCount, t);
    } else if 0 < s.end <= s.curr {
      var u: nat :| Settled(s.hist, stages, s.workerCount, u);
      assert Settled(s'.hist, stages', s.workerCount, u);
    }
  }

  // ---------- the threads under each action ----------

  /** A thread told to work belongs to the current job. */
  lemma WorkingIsPosted(s: State, t: nat)
    requires Inv(s) && IsThread(s, t) && s.cells[t].status.WORKING?
    ensures !Exiting(s.main) && t < Posted(s.main, s.workerCount) && t < s.workerCount
    ensures !s.main.Write? && !s.main.Idle? && s.hist.jobs > 0
  {
    assert ThreadOk(s.main, s.workerCount, t, s.cells[t]);
    hide JobOk;
  }

  predicate ThreadAction(a: Action) {
    a.ThreadPoll? || a.ThreadSleep? || a.ThreadSpurious? || a.ThreadStep?
  }

  lemma ThreadsUnderThread(s: State, a: Action)
    requires Inv(s) && Enabled(s, a) && ThreadAction(a)
    ensures ThreadsOk(s.main, s.workerCount, Apply(s, a).cells)
    ensures Apply(s, a).main == s.main && Apply(s, a).workerCount == s.workerCount
    ensures |Apply(s, a).cells| == |s.cells| && Apply(s, a).cells[0] == s.cells[0]
  {
    var s' := Apply(s, a);
    assert ThreadOk(s.main, s.workerCount, a.t, s.cells[a.t]);
    if a.ThreadStep? { WorkingIsPosted(s, a.t); }
    hide JobOk, FieldsOk;
    assert ThreadOk(s.main, s.workerCount, a.t, s'.cells[a.t]);
    forall u | 1 <= u < |s.cells| ensures ThreadOk(s.main, s.workerCount, u, s'.cells[u]) {
      assert ThreadOk(s.main, s.workerCount, u, s.cells[u]);
    }
  }

  predicate ExitAction(a: Action) {
    a.Destroy? || a.ExitPostOne? || a.ExitNotifyOne? || a.JoinOne?
  }

  lemma ThreadsUnderExit(s: State, a: Action)
    requires Inv(s) && Enabled(s, a) && ExitAction(a)
    ensures ThreadsOk(Apply(s, a).main, Apply(s, a).workerCount, Apply(s, a).cells)
    ensures OwnCellOk(Apply(s, a).main, Apply(s, a).cells[0])
  {
    var s' := Apply(s, a);
    hide JobOk;
    forall u | 1 <= u < |s.cells| ensures ThreadOk(s'.main, s'.workerCount, u, s'.cells[u]) {
      assert ThreadOk(s.main, s.workerCount, u, s.cells[u]);
    }
  }

  predicate PostAction(a: Action) {
    a.PostOne? || a.NotifyOne?
  }

  lemma ThreadsUnderPost(s: State, a: Action)
    requires Inv(s) && Enabled(s, a) && PostAction(a)
    ensures ThreadsOk(Apply(s, a).main, Apply(s, a).workerCount, Apply(s, a).cells)
    ensures OwnCellOk(Apply(s, a).main, Apply(s, a).cells[0])
  {
    var s' := Apply(s, a);
    hide JobOk;
    forall u | 1 <= u < |s.cells| ensures ThreadOk(s'.main, s'.workerCount, u, s'.cells[u]) {
      assert ThreadOk(s.main, s.workerCount, u, s.cells[u]);
    }
  }

  lemma ThreadsUnderRest(s: State, a: Action)
    requires Inv(s) && Enabled(s, a) && !ThreadAction(a) && Disciplined(a) && !ExitAction(a) && !PostAction(a)
    ensures ThreadsOk(Apply(s, a).main, Apply(s, a).workerCount, Apply(s, a).cells)
    ensures OwnCellOk(Apply(s, a).main, Apply(s, a).cells[0])
  {
    var s' := Apply(s, a);
    hide JobOk;
    forall u | 1 <= u < |s.cells| ensures ThreadOk(s'.main, s'.workerCount, u, s'.cells[u]) {
      assert ThreadOk(s.main, s.workerCount, u, s.cells[u]);
    }
  }

  lemma ThreadsUnderMain(s: State, a: Action)
    requires Inv(s) && Enabled(s, a) && !ThreadAction(a) && Disciplined(a)
    ensures ThreadsOk(Apply(s, a).main, Apply(s, a).workerCount, Apply(s, a).cells)
    ensures OwnCellOk(Apply(s, a).main, Apply(s, a).cells[0])
  {
    hide *;
    if ExitAction(a) {
      ThreadsUnderExit(s, a);
    } else if PostAction(a) {
      ThreadsUnderPost(s, a);
    } else {
      ThreadsUnderRest(s, a);
    }
  }

  lemma FieldsUnderStep(s: State, t: nat)
    requires Inv(s) && Enabled(s, ThreadStep(t))
    ensures FieldsOk(Apply(s, ThreadStep(t)))
  {
    assert ThreadOk(s.main, s.workerCount, t, s.cells[t]);
    WorkingIsPosted(s, t);
    hide JobOk, ThreadsOk, ThreadOk;
  }

  lemma FieldsUnderThread(s: State, a: Action)
    requires Inv(s) && Enabled(s, a) && ThreadAction(a)
    ensures FieldsOk(Apply(s, a))
  {
    hide JobOk, ThreadsOk;
    if a.ThreadStep? {
      hide FieldsOk, Apply, Enabled;
      FieldsUnderStep(s, a.t);
      assert a == ThreadStep(a.t);
    }
  }

  lemma FieldsUnderMain(s: State, a: Action)
    requires Inv(s) && Enabled(s, a) && Disciplined(a) && !ThreadAction(a)
    ensures FieldsOk(Apply(s, a))
  {
    hide JobOk, ThreadsOk;
  }

  /** No thread is inside a job while the fields are written. */
  lemma NobodyInsideDuringWrite(s: State)
    requires ThreadsOk(s.main, s.workerCount, s.cells) && s.main.Write?
    ensures !SomeoneInside(s)
  {
    forall t | 1 <= t < |s.cells| ensures !s.cells[t].pc.In? {
      assert ThreadOk(s.main, s.workerCount, t, s.cells[t]);
    }
  }

  lemma RaceKept(s: State, a: Action)
    requires Inv(s) && Enabled(s, a)
    ensures !Apply(s, a).hist.race
  {
    if s.main.Write? { NobodyInsideDuringWrite(s); }
    hide JobOk, ThreadsOk, SomeoneInside;
  }

  // ---------- the job under each action ----------

  lemma StagesKept(s: State, a: Action)
    requires Inv(s) && Enabled(s, a) && Disciplined(a) && !Exiting(s.main) && !Exiting(Apply(s, a).main)
    requires a.SetRestricted? || a.PostOne? || a.NotifyOne? || a.CallWait? || a.WaitOne?
    requires !Apply(s, a).main.Crashed?
    ensures Stages(Apply(s, a)) == if Apply(s, a).main == Own(Init) then Stages(s)[0 := Inside(Init)] else Stages(s)
  {
    var s' := Apply(s, a);
    hide JobOk;
    forall u: nat | 1 <= u < |s.cells| ensures Stages(s')[u] == Stages(s)[u] {
      assert ThreadOk(s.main, s.workerCount, u, s.cells[u]);
    }
  }

  lemma JobUnderDispatch(s: State, a: Action)
    requires Inv(s) && Enabled(s, a)
    requires a.SetRestricted? || a.PostOne? || a.NotifyOne? || a.CallWait? || a.WaitOne?
    ensures JobOk(Apply(s, a))
  {
    var s' := Apply(s, a);
    if s'.main.Crashed? { return; }
    StagesKept(s, a);
    hide ThreadsOk, Apply, Enabled, MembersOk, ClaimsOk, CounterOk;
    DispatchEffect(s, a);
    if s'.main == Own(Init) && s.hist.jobs > 0 {
      EnterKeepsJob(s.hist, s.hist, s.curr, s.end, Stages(s), s.workerCount, 0);
    }
    assert CounterOk(s.hist, s.curr, s.end, Stages(s), s.workerCount) ==>
      CounterOk(s'.hist, s'.curr, s'.end, Stages(s), s'.workerCount);
  }

  lemma DispatchEffect(s: State, a: Action)
    requires Enabled(s, a)
    requires a.SetRestricted? || a.PostOne? || a.NotifyOne? || a.CallWait? || a.WaitOne?
    ensures var s' := Apply(s, a);
            && s'.hist == s.hist && s'.curr == s.curr && s'.end == s.end && s'.workerCount == s.workerCount
            && |s'.cells| == |s.cells| && !s'.main.Write? && !s.main.Write? && !Exiting(s.main) && !Exiting(s'.main)
            && (s'.main == Own(Init) ==> s.main.Post?)
            && (s.main.Own? ==> false)
  {
  }

  lemma StagesUnderThread(s: State, a: Action)
    requires Inv(s) && Enabled(s, a) && ThreadAction(a)
    ensures a.ThreadSleep? || a.ThreadSpurious? ==> Stages(Apply(s, a)) == Stages(s)
    ensures a.ThreadPoll? ==>
      Stages(Apply(s, a)) == (if s.cells[a.t].status.WORKING? then Stages(s)[a.t := Inside(Init)] else Stages(s))
    ensures a.ThreadPoll? && s.cells[a.t].status.WORKING? ==> Stages(s)[a.t] == NotEntered
    ensures a.ThreadStep? ==> Stages(s)[a.t] == Inside(s.cells[a.t].pc.phase)
    ensures a.ThreadStep? ==> Stages(Apply(s, a)) == Stages(s)[a.t :=
      if s.cells[a.t].pc.phase.Report? then Finished else Inside(NextPhase(s, s.cells[a.t].pc.phase))]
  {
    var t := a.t;
    assert ThreadOk(s.main, s.workerCount, t, s.cells[t]);
    if s.cells[t].status.WORKING? { WorkingIsPosted(s, t); }
    hide JobOk, ThreadsOk;
  }

  lemma JobUnderPoll(s: State, t: nat, nap: bool)
    requires Inv(s) && Enabled(s, ThreadPoll(t, nap))
    ensures JobOk(DoThreadPoll(s, t, nap))
  {
    var s' := DoThreadPoll(s, t, nap);
    if s.main.Crashed? { return; }
    StagesUnderThread(s, ThreadPoll(t, nap));
    if s.cells[t].status.WORKING? {
      WorkingIsPosted(s, t);
      hide ThreadsOk, MembersOk, ClaimsOk, CounterOk;
      EnterKeepsJob(s.hist, s'.hist, s.curr, s.end, Stages(s), s.workerCount, t);
    } else {
      hide ThreadsOk, MembersOk, ClaimsOk, CounterOk;
      assert s'.hist == s.hist;
      assert CounterOk(s'.hist, s'.curr, s'.end, Stages(s'), s'.workerCount)
        == CounterOk(s.hist, s.curr, s.end, Stages(s), s.workerCount);
    }
  }

  lemma JobUnderSleep(s: State, a: Action)
    requires Inv(s) && Enabled(s, a) && (a.ThreadSleep? || a.ThreadSpurious?)
    ensures JobOk(Apply(s, a))
  {
    StagesUnderThread(s, a);
    hide ThreadsOk, MembersOk, ClaimsOk, CounterOk;
  }

  lemma JobUnderStep(s: State, t: nat)
    requires Inv(s) && Enabled(s, ThreadStep(t))
    ensures JobOk(DoThreadStep(s, t))
  {
    assert ThreadOk(s.main, s.workerCount, t, s.cells[t]);
    WorkingIsPosted(s, t);
    if s.main.Crashed? { return; }
    StagesUnderThread(s, ThreadStep(t));
    var ph := s.cells[t].pc.phase;
    hide ThreadsOk, MembersOk, ClaimsOk, CounterOk;
    if ph.Report? {
      ReportKeepsJob(s.hist, s.curr, s.end, Stages(s), s.workerCount, t);
    } else {
      PhaseKeepsMembers(s, Stages(s), t, ph);
      PhaseKeepsClaims(s, Stages(s), t, ph);
      PhaseKeepsCounter(s, Stages(s), t, ph);
    }
  }

  lemma JobUnderOwnStep(s: State)
    requires Inv(s) && Enabled(s, OwnStep)
    ensures JobOk(DoOwnStep(s))
  {
    var s' := DoOwnStep(s);
    var ph := s.main.phase;
    if s'.main.Crashed? { return; }
    assert Stages(s') == Stages(s)[0 := if ph.Report? then Finished else Inside(NextPhase(s, ph))] by {
      forall u: nat | 1 <= u < |s.cells| ensures Stages(s')[u] == Stages(s)[u] {
      }
    }
    assert s.hist.jobs > 0;
    hide ThreadsOk, MembersOk, ClaimsOk, CounterOk;
    if ph.Report? {
      ReportKeepsJob(s.hist, s.curr, s.end, Stages(s), s.workerCount, 0);
    } else {
      PhaseKeepsMembers(s, Stages(s), 0, ph);
      PhaseKeepsClaims(s, Stages(s), 0, ph);
      PhaseKeepsCounter(s, Stages(s), 0, ph);
    }
  }

  lemma JobUnderWrite(s: State)
    requires Inv(s) && Enabled(s, WriteField)
    ensures JobOk(DoWrite(s))
  {
    var s' := DoWrite(s);
    if s.main.step == 3 {
      assert s'.main == Post(0) && s'.curr == 0 && Fresh(s'.hist);
      forall t: nat | t < |s.cells| ensures MemberOk(s'.hist, s'.curr, s'.end, t, Stages(s')[t]) {
        if t > 0 { assert ThreadOk(s.main, s.workerCount, t, s.cells[t]); }
      }
    }
  }

  lemma JobKept(s: State, a: Action)
    requires Inv(s) && Enabled(s, a) && Disciplined(a)
    ensures JobOk(Apply(s, a))
  {
    match a
    case SetRestricted(_) => JobUnderDispatch(s, a);
    case PostOne => JobUnderDispatch(s, a);
    case NotifyOne => JobUnderDispatch(s, a);
    case CallWait => JobUnderDispatch(s, a);
    case WaitOne => JobUnderDispatch(s, a);
    case WriteField => JobUnderWrite(s);
    case OwnStep => JobUnderOwnStep(s);
    case ThreadPoll(t, nap) => JobUnderPoll(s, t, nap);
    case ThreadSleep(_) => JobUnderSleep(s, a);
    case ThreadSpurious(_) => JobUnderSleep(s, a);
    case ThreadStep(t) => JobUnderStep(s, t);
    case _ =>
      hide ThreadsOk, MembersOk, ClaimsOk, CounterOk, Fresh;
  }

  lemma StepKeeps(s: State, a: Action)
    requires Inv(s) && Enabled(s, a) && Disciplined(a)
    ensures Inv(Apply(s, a))
  {
    if ThreadAction(a) { FieldsUnderThread(s, a); } else { FieldsUnderMain(s, a); }
    RaceKept(s, a);
    JobKept(s, a);
    if ThreadAction(a) { ThreadsUnderThread(s, a); } else { ThreadsUnderMain(s, a); }
    SizeKept(s, a);
    hide FieldsOk, ThreadsOk, JobOk, Apply, Enabled, OwnCellOk;
  }

  lemma SizeKept(s: State, a: Action)
    requires Enabled(s, a)
    ensures |Apply(s, a).cells| == |s.cells|
  {
  }

  lemma InitInv(total: nat)
    requires total >= 1
    ensures Inv(InitState(total))
  {
  }

  ghost predicate DisciplinedRun(actions: seq<Action>) {
    forall i | 0 <= i < |actions| :: Disciplined(actions[i])
  }

  /** Every state of every run, over any number of jobs. */
  lemma {:induction false} RunKeepsInv(s: State, actions: seq<Action>)
    requires Inv(s) && ValidRun(s, actions) && DisciplinedRun(actions)
    ensures Inv(RunTo(s, actions))
    decreases |actions|
  {
    if actions != [] {
      StepKeeps(s, actions[0]);
      hide Inv, Apply, Enabled;
      assert DisciplinedRun(actions[1..]);
      RunKeepsInv(Apply(s, actions[0]), actions[1..]);
    }
  }
}
