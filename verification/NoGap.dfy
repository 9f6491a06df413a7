/** The ordering argument: a round of the loop reads inflight before it reads
    the cooldowns, an action writes its cooldown before it clears its slot, and
    so no useless action slips between the two. */
module NoGap {
  import opened Domain
  import opened Tables
  import opened World
  import opened SlotSafety

  // --------------------------------------------------------------- vocabulary

  predicate TookSlot(pc: WorkerPc) {
    HasSlot(pc) || pc == Released
  }

  predicate PastSnapshot(pc: PlannerPc) {
    pc in {InflightRead, ClockRead, Swept, Planned, Finished}
  }

  predicate PastSweep(pl: Planner) {
    Sweeps(pl.kind) && pl.pc in {Swept, Planned, Finished}
  }

  ghost predicate Marked(services: seq<ServiceState>, name: string) {
    forall s :: s in services && s.name == name ==> s.actionInFlight
  }

  ghost predicate Cooling(services: seq<ServiceState>, name: string) {
    forall s :: s in services && s.name == name ==> s.cooldownUntil.Some?
  }

  /** When the cooldown a useless action started comes to its end. */
  function Until(su: Setup, wk: Worker): Instant {
    wk.recClock + su.cfg.policy.actionCooldown
  }

  /** j is a later action on k's service that measurably worked. */
  predicate Clears(workers: seq<Worker>, k: nat, j: nat) {
    && k < |workers| && j < |workers|
    && workers[j].effect == Effective
    && workers[j].action.service == workers[k].action.service
    && workers[k].recAt < workers[j].recAt
  }

  ghost predicate Cleared(workers: seq<Worker>, k: nat) {
    exists j: nat :: Clears(workers, k, j)
  }

  ghost predicate ClearedBefore(workers: seq<Worker>, k: nat, step: nat) {
    exists j: nat :: Clears(workers, k, j) && workers[j].recAt < step
  }

  // --------------------------------------------------------------- invariants

  predicate WorkerTimes(w: World, wk: Worker) {
    && (TookSlot(wk.pc) ==> wk.acqAt < w.step)
    && (wk.pc == Released ==> wk.acqAt < wk.relAt < w.step)
    && (wk.effect != Pending ==>
          && wk.pc in {Closing, Released}
          && wk.acqAt < wk.recAt < w.step && wk.recClock <= w.clock
          && (wk.pc == Released ==> wk.recAt < wk.relAt))
  }

  predicate PlannerTimes(w: World, pl: Planner) {
    && (PastSnapshot(pl.pc) ==> pl.snapAt < w.step && pl.seen <= |w.workers|)
    && (pl.pc == ClockRead ==> pl.now <= w.clock)
    && (PastSweep(pl) ==> pl.snapAt < pl.sweptAt < w.step && pl.now <= pl.sweepClock <= w.clock)
  }

  ghost predicate Times(w: World) {
    && (forall k :: 0 <= k < |w.workers| ==> WorkerTimes(w, w.workers[k]))
    && (forall p :: 0 <= p < |w.planners| ==> PlannerTimes(w, w.planners[p]))
  }

  /** A slot taken before a snapshot is in it, or was given back before it. */
  predicate SlotSeen(pl: Planner, wk: Worker, marked: bool) {
    PastSnapshot(pl.pc) && TookSlot(wk.pc) && wk.acqAt < pl.snapAt ==>
      marked || (wk.pc == Released && wk.relAt < pl.snapAt)
  }

  ghost predicate SlotsSeen(w: World) {
    forall p, k :: 0 <= p < |w.planners| && 0 <= k < |w.workers| ==>
      SlotSeen(w.planners[p], w.workers[k], Marked(w.planners[p].obs.services, w.workers[k].action.service))
  }

  /** A useless action is still cooling, or over its cooldown, or cleared. */
  ghost predicate StillCooling(su: Setup, w: World, k: nat)
    requires k < |w.workers|
  {
    var wk := w.workers[k];
    var s := wk.action.service;
    wk.effect == Useless ==>
      || (s in w.tables.cooldowns && w.tables.cooldowns[s] >= Until(su, wk))
      || w.clock >= Until(su, wk)
      || Cleared(w.workers, k)
  }

  ghost predicate CooldownsKept(su: Setup, w: World) {
    forall k :: 0 <= k < |w.workers| ==> StillCooling(su, w, k)
  }

  /** What a sweep makes of a useless action recorded before it. */
  ghost predicate SweepSees(su: Setup, workers: seq<Worker>, pl: Planner, k: nat)
    requires k < |workers|
  {
    PastSweep(pl) && workers[k].effect == Useless && workers[k].recAt < pl.sweptAt ==>
      || Cooling(pl.obs.services, workers[k].action.service)
      || pl.sweepClock >= Until(su, workers[k])
      || ClearedBefore(workers, k, pl.sweptAt)
  }

  ghost predicate SweepsSee(su: Setup, w: World) {
    forall p, k :: 0 <= p < |w.planners| && 0 <= k < |w.workers| ==> SweepSees(su, w.workers, w.planners[p], k)
  }

  // -------------------------------------------------------------- quiet steps

  /** A planner that only moves on: its snapshot and its sweep, once made, stand. */
  predicate MovesOn(a: Planner, b: Planner) {
    && b.kind == a.kind
    && (PastSnapshot(b.pc) ==> PastSnapshot(a.pc) && b.snapAt == a.snapAt && b.seen == a.seen
                               && b.obs.services == a.obs.services)
    && (PastSweep(b) ==> PastSweep(a) && b.sweptAt == a.sweptAt && b.sweepClock == a.sweepClock && b.now == a.now)
  }

  predicate Quiet(c: Command) {
    !MovesWorker(c) && !c.ReadInflight? && !c.SweepCooldowns?
  }

  lemma {:induction false} QuietStep(su: Setup, w: World, c: Command)
    requires Enabled(su, w, c) && Quiet(c)
    ensures var w' := Apply(su, w, c);
      && w'.step == w.step + 1 && w'.clock >= w.clock && w'.tables.cooldowns == w.tables.cooldowns
      && |w.planners| <= |w'.planners|
      && (forall p :: 0 <= p < |w.planners| ==> MovesOn(w.planners[p], w'.planners[p]))
      && (forall p :: |w.planners| <= p < |w'.planners| ==> w'.planners[p].pc == Begun)
      && (forall p :: 0 <= p < |w'.planners| && w'.planners[p].pc == ClockRead ==>
            w'.planners[p].now == w.clock || (p < |w.planners| && w'.planners[p] == w.planners[p]))
  {
    hide StepWorker, PlanFor, AsksOnly, SnapshotOf;
  }

  /** A worker step leaves every planner's observation and clocks alone. */
  lemma {:induction false} WorkerStepTimes(su: Setup, w: World, c: Command)
    requires Enabled(su, w, c) && MovesWorker(c)
    ensures var w' := Apply(su, w, c);
      && w'.step == w.step + 1
      && (var a, b := w.workers[c.k], w'.workers[c.k];
          && (c.Acquire? ==> b.effect == a.effect && (b.pc == Skipped || (b.pc == Opening && b.acqAt == w.step)))
          && (c.ReleaseSlot? ==> b == a.(pc := Released, relAt := w.step))
          && (c.RecordEffect? ==> b == a.(pc := Closing, recAt := w.step, recClock := w.clock,
                                          effect := Judge(su.cfg.policy, a.result)))
          && (!c.Acquire? && !c.ReleaseSlot? && !c.RecordEffect? ==>
                && b.effect == a.effect && b.acqAt == a.acqAt && b.recAt == a.recAt && b.relAt == a.relAt
                && b.recClock == a.recClock && (b.pc == a.pc || (HasSlot(a.pc) && a.pc != Closing && HasSlot(b.pc)))))
  {
    hide StepPlanner, Judge, GateOf, Record;
  }

  // -------------------------------------------------------- times are in order

  lemma {:induction false} QuietStepKeepsTimes(su: Setup, w: World, c: Command)
    requires Times(w) && Enabled(su, w, c) && Quiet(c)
    ensures Times(Apply(su, w, c))
  {
    hide Apply, Enabled;
    var w' := Apply(su, w, c);
    OtherStepKeepsWorkers(su, w, c);
    QuietStep(su, w, c);
    forall k | 0 <= k < |w'.workers| ensures WorkerTimes(w', w'.workers[k]) {
      if k < |w.workers| {
        assert w'.workers[k] == w'.workers[..|w.workers|][k];
        assert WorkerTimes(w, w.workers[k]);
      }
    }
    forall p | 0 <= p < |w'.planners| ensures PlannerTimes(w', w'.planners[p]) {
      if p < |w.planners| {
        assert PlannerTimes(w, w.planners[p]) && MovesOn(w.planners[p], w'.planners[p]);
      }
    }
  }

  lemma {:induction false} WorkerStepKeepsTimes(su: Setup, w: World, c: Command)
    requires Times(w) && Enabled(su, w, c) && MovesWorker(c)
    ensures Times(Apply(su, w, c))
  {
    var w' := Apply(su, w, c);
    MoverKeepsTimes(su, w, c);
    WorkerStepMoves(su, w, c);
    WorkerStepTimes(su, w, c);
    hide Apply, Enabled;
    forall k | 0 <= k < |w'.workers| ensures WorkerTimes(w', w'.workers[k]) {
      assert WorkerTimes(w, w.workers[k]);
    }
    forall p | 0 <= p < |w'.planners| ensures PlannerTimes(w', w'.planners[p]) {
      assert PlannerTimes(w, w.planners[p]) && SameButResults(w.planners[p], w'.planners[p]);
    }
  }

  lemma {:induction false} MoverKeepsTimes(su: Setup, w: World, c: Command)
    requires Times(w) && Enabled(su, w, c) && MovesWorker(c)
    ensures c.k < |Apply(su, w, c).workers| && WorkerTimes(Apply(su, w, c), Apply(su, w, c).workers[c.k])
  {
    assert c.RecordEffect? ==> w.workers[c.k].pc == Measured;
    assert c.ReleaseSlot? ==> w.workers[c.k].pc == Closing;
    assert c.Acquire? ==> w.workers[c.k].pc == Spawned;
    WorkerStepMoves(su, w, c);
    WorkerStepTimes(su, w, c);
    hide Apply, Enabled;
    assert WorkerTimes(w, w.workers[c.k]);
  }

  lemma {:induction false} ReadingStepKeepsTimes(su: Setup, w: World, c: Command)
    requires Times(w) && Enabled(su, w, c) && (c.ReadInflight? || c.SweepCooldowns?)
    ensures Times(Apply(su, w, c))
  {
    var w' := Apply(su, w, c);
    forall k | 0 <= k < |w'.workers| ensures WorkerTimes(w', w'.workers[k]) {
      assert WorkerTimes(w, w.workers[k]);
    }
    forall p | 0 <= p < |w'.planners| ensures PlannerTimes(w', w'.planners[p]) {
      assert PlannerTimes(w, w.planners[p]);
    }
  }

  lemma {:induction false} StepKeepsTimes(su: Setup, w: World, c: Command)
    requires Times(w) && Enabled(su, w, c)
    ensures Times(Apply(su, w, c))
  {
    hide Apply, Enabled, Times;
    if MovesWorker(c) {
      WorkerStepKeepsTimes(su, w, c);
    } else if Quiet(c) {
      QuietStepKeepsTimes(su, w, c);
    } else {
      ReadingStepKeepsTimes(su, w, c);
    }
  }

  // ------------------------------------------------------ snapshots see slots

  lemma {:induction false} MarkedAfterMarking(inflight: set<string>, services: seq<ServiceState>, name: string)
    ensures name in inflight ==> Marked(MarkInflight(inflight, services), name)
  {
  }

  lemma {:induction false} CoolingKeepsMarks(cooldowns: map<string, Instant>, services: seq<ServiceState>, name: string)
    ensures Marked(services, name) ==> Marked(MarkCooling(cooldowns, services), name)
    ensures name in cooldowns ==> Cooling(MarkCooling(cooldowns, services), name)
  {
    var marked := MarkCooling(cooldowns, services);
    forall s | s in marked && s.name == name && Marked(services, name) ensures s.actionInFlight {
      var i :| 0 <= i < |marked| && marked[i] == s;
      assert services[i] in services;
    }
  }

  lemma {:induction false} WorkerStepKeepsSeen(su: Setup, w: World, c: Command)
    requires SlotsSeen(w) && Times(w) && Enabled(su, w, c) && MovesWorker(c)
    ensures SlotsSeen(Apply(su, w, c))
  {
    var w' := Apply(su, w, c);
    MoverKeepsSlots(su, w, c);
    WorkerStepMoves(su, w, c);
    hide Apply, Enabled, Marked;
    forall p, k | 0 <= p < |w'.planners| && 0 <= k < |w'.workers|
      ensures SlotSeen(w'.planners[p], w'.workers[k], Marked(w'.planners[p].obs.services, w'.workers[k].action.service))
    {
      assert SameButResults(w.planners[p], w'.planners[p]) && PlannerTimes(w, w.planners[p]);
      assert SlotSeen(w.planners[p], w.workers[k], Marked(w.planners[p].obs.services, w.workers[k].action.service));
    }
  }

  /** A worker's step takes a slot now, gives it back now, or leaves it be. */
  lemma {:induction false} MoverKeepsSlots(su: Setup, w: World, c: Command)
    requires Enabled(su, w, c) && MovesWorker(c)
    ensures c.k < |Apply(su, w, c).workers|
    ensures var a, b := w.workers[c.k], Apply(su, w, c).workers[c.k];
      && (TookSlot(b.pc) ==> (a.pc == Spawned && b.acqAt == w.step) || (TookSlot(a.pc) && b.acqAt == a.acqAt))
      && (b.pc == Spawned ==> a.pc == Spawned)
      && (a.pc == Released ==> b.pc == Released && b.relAt == a.relAt)
  {
    assert c.RecordEffect? ==> w.workers[c.k].pc == Measured;
    assert c.ReleaseSlot? ==> w.workers[c.k].pc == Closing;
    assert c.Acquire? ==> w.workers[c.k].pc == Spawned;
    WorkerStepMoves(su, w, c);
    WorkerStepTimes(su, w, c);
    hide Apply, Enabled;
  }

  lemma {:induction false} QuietStepKeepsSeen(su: Setup, w: World, c: Command)
    requires SlotsSeen(w) && Times(w) && Enabled(su, w, c) && Quiet(c)
    ensures SlotsSeen(Apply(su, w, c))
  {
    var w' := Apply(su, w, c);
    hide Apply, Enabled, Marked;
    OtherStepKeepsWorkers(su, w, c);
    QuietStep(su, w, c);
    forall p, k | 0 <= p < |w'.planners| && 0 <= k < |w'.workers|
      ensures SlotSeen(w'.planners[p], w'.workers[k], Marked(w'.planners[p].obs.services, w'.workers[k].action.service))
    {
      if p < |w.planners| && k < |w.workers| {
        assert w'.workers[k] == w'.workers[..|w.workers|][k];
        assert MovesOn(w.planners[p], w'.planners[p]);
        assert SlotSeen(w.planners[p], w.workers[k], Marked(w.planners[p].obs.services, w.workers[k].action.service));
      }
    }
  }

  lemma {:induction false} ReadingStepKeepsSeen(su: Setup, w: World, c: Command)
    requires SlotsSeen(w) && SlotsExact(w) && Times(w) && Enabled(su, w, c) && (c.ReadInflight? || c.SweepCooldowns?)
    ensures SlotsSeen(Apply(su, w, c))
  {
    var w' := Apply(su, w, c);
    hide Marked, MarkInflight, MarkCooling, Sweep;
    forall p, k | 0 <= p < |w'.planners| && 0 <= k < |w'.workers|
      ensures SlotSeen(w'.planners[p], w'.workers[k], Marked(w'.planners[p].obs.services, w'.workers[k].action.service))
    {
      var services, name := w.planners[p].obs.services, w.workers[k].action.service;
      assert WorkerTimes(w, w.workers[k]);
      assert SlotSeen(w.planners[p], w.workers[k], Marked(services, name));
      MarkedAfterMarking(w.tables.inflight, services, name);
      CoolingKeepsMarks(Sweep(w.tables.cooldowns, w.planners[p].now), services, name);
    }
  }

  lemma {:induction false} StepKeepsSeen(su: Setup, w: World, c: Command)
    requires SlotsSeen(w) && SlotsExact(w) && Times(w) && Enabled(su, w, c)
    ensures SlotsSeen(Apply(su, w, c))
  {
    hide Apply, Enabled, Times, SlotsSeen, SlotsExact;
    if MovesWorker(c) {
      WorkerStepKeepsSeen(su, w, c);
    } else if Quiet(c) {
      QuietStepKeepsSeen(su, w, c);
    } else {
      ReadingStepKeepsSeen(su, w, c);
    }
  }

  // ------------------------------------------------- useless actions stay cool

  /** Later workers and later records never take a clearing action away. */
  lemma {:induction false} ClearingStands(before: seq<Worker>, after: seq<Worker>, k: nat, step: nat)
    requires |before| <= |after| && k < |before|
    requires forall j :: 0 <= j < |before| && before[j].effect != Pending ==>
      after[j].effect == before[j].effect && after[j].action == before[j].action && after[j].recAt == before[j].recAt
    requires before[k].effect != Pending
    ensures Cleared(before, k) ==> Cleared(after, k)
    ensures ClearedBefore(before, k, step) ==> ClearedBefore(after, k, step)
  {
    if Cleared(before, k) {
      var j: nat :| Clears(before, k, j);
      assert Clears(after, k, j);
    }
    if ClearedBefore(before, k, step) {
      var j: nat :| Clears(before, k, j) && before[j].recAt < step;
      assert Clears(after, k, j);
    }
  }

  lemma {:induction false} WorkerRecordStands(su: Setup, w: World, c: Command)
    requires Times(w) && Enabled(su, w, c) && MovesWorker(c)
    ensures var w' := Apply(su, w, c);
      && |w.workers| == |w'.workers|
      && forall j :: 0 <= j < |w.workers| && w.workers[j].effect != Pending ==>
          && w'.workers[j].effect == w.workers[j].effect && w'.workers[j].action == w.workers[j].action
          && w'.workers[j].recAt == w.workers[j].recAt && w'.workers[j].recClock == w.workers[j].recClock
  {
    WorkerStepMoves(su, w, c);
    assert WorkerTimes(w, w.workers[c.k]);
    assert c.RecordEffect? ==> w.workers[c.k].pc == Measured;
    hide Apply, Enabled, Times;
    WorkerStepTimes(su, w, c);
  }

  /** No step unrecords an effect. */
  lemma {:induction false} RecordsStand(su: Setup, w: World, c: Command)
    requires Times(w) && Enabled(su, w, c)
    ensures var w' := Apply(su, w, c);
      && |w.workers| <= |w'.workers|
      && forall j :: 0 <= j < |w.workers| && w.workers[j].effect != Pending ==>
          && w'.workers[j].effect == w.workers[j].effect && w'.workers[j].action == w.workers[j].action
          && w'.workers[j].recAt == w.workers[j].recAt && w'.workers[j].recClock == w.workers[j].recClock
  {
    var w' := Apply(su, w, c);
    if MovesWorker(c) {
      WorkerRecordStands(su, w, c);
    } else {
      hide Times;
      OtherStepKeepsWorkers(su, w, c);
      hide Apply, Enabled;
      assert forall j :: 0 <= j < |w.workers| ==> w'.workers[j] == w'.workers[..|w.workers|][j];
    }
  }

  lemma {:induction false} RecordKeepsCooling(su: Setup, w: World, c: Command)
    requires CooldownsKept(su, w) && Times(w) && Shape(su, w) && Enabled(su, w, c) && c.RecordEffect?
    ensures CooldownsKept(su, Apply(su, w, c))
  {
    var w' := Apply(su, w, c);
    RecordsStand(su, w, c);
    assert WorkerOk(w.planners, w.workers[c.k]);
    var m := w'.workers[c.k];
    assert m.effect == Judge(su.cfg.policy, w.workers[c.k].result) && m.recAt == w.step && m.recClock == w.clock;
    assert w'.tables == Record(w.tables, su.cfg.policy, w.workers[c.k].result, w.clock);
    assert w'.clock == w.clock;
    assert forall j :: 0 <= j < |w.workers| && j != c.k ==> w'.workers[j] == w.workers[j];
    hide Apply, Enabled, Shape, WorkerOk;
    forall k | 0 <= k < |w'.workers| ensures StillCooling(su, w', k) {
      assert WorkerTimes(w, w.workers[k]) && StillCooling(su, w, k);
      if w'.workers[k].effect == Useless && k != c.k {
        ClearingStands(w.workers, w'.workers, k, 0);
        if m.effect == Effective && m.action.service == w.workers[k].action.service {
          assert Clears(w'.workers, k, c.k);
        }
      }
    }
  }

  lemma {:induction false} SweepKeepsCooling(su: Setup, w: World, c: Command)
    requires CooldownsKept(su, w) && Times(w) && Enabled(su, w, c) && c.SweepCooldowns?
    ensures CooldownsKept(su, Apply(su, w, c))
  {
    var w' := Apply(su, w, c);
    assert PlannerTimes(w, w.planners[c.p]);
    assert w'.workers == w.workers && w'.clock == w.clock;
    assert w'.tables.cooldowns == Sweep(w.tables.cooldowns, w.planners[c.p].now);
    hide Apply, Enabled;
    forall k | 0 <= k < |w'.workers| ensures StillCooling(su, w', k) {
      assert StillCooling(su, w, k);
    }
  }

  lemma {:induction false} OtherStepKeepsCooling(su: Setup, w: World, c: Command)
    requires CooldownsKept(su, w) && Times(w) && Enabled(su, w, c) && !c.RecordEffect? && !c.SweepCooldowns?
    ensures CooldownsKept(su, Apply(su, w, c))
  {
    var w' := Apply(su, w, c);
    CooldownsUntouched(su, w, c);
    RecordsStand(su, w, c);
    hide Apply, Enabled;
    forall k | 0 <= k < |w'.workers| ensures StillCooling(su, w', k) {
      if k < |w.workers| && w'.workers[k].effect == Useless {
        assert StillCooling(su, w, k);
        ClearingStands(w.workers, w'.workers, k, 0);
      }
    }
  }

  lemma {:induction false} CooldownsUntouched(su: Setup, w: World, c: Command)
    requires Enabled(su, w, c) && !c.RecordEffect? && !c.SweepCooldowns?
    ensures Apply(su, w, c).tables.cooldowns == w.tables.cooldowns
    ensures Apply(su, w, c).clock >= w.clock
    ensures forall k :: 0 <= k < |Apply(su, w, c).workers| && Apply(su, w, c).workers[k].effect != Pending ==>
      k < |w.workers| && w.workers[k].effect == Apply(su, w, c).workers[k].effect
  {
    if MovesWorker(c) {
      hide PlanFor, AsksOnly, SnapshotOf, GateOf, Judge, Record, StepPlanner;
    } else {
      hide StepWorker;
      OtherStepKeepsCooldowns(su, w, c);
      hide StepPlanner, Apply, Enabled;
    }
  }

  lemma {:induction false} OtherStepKeepsCooldowns(su: Setup, w: World, c: Command)
    requires Enabled(su, w, c) && !MovesWorker(c) && !c.SweepCooldowns?
    ensures var w' := Apply(su, w, c);
      && w'.tables.cooldowns == w.tables.cooldowns && w'.clock >= w.clock
      && forall k :: 0 <= k < |w'.workers| && w'.workers[k].effect != Pending ==>
           k < |w.workers| && w.workers[k].effect == w'.workers[k].effect
  {
    hide PlanFor, AsksOnly, SnapshotOf, StepWorker;
  }

  lemma {:induction false} StepKeepsCooling(su: Setup, w: World, c: Command)
    requires CooldownsKept(su, w) && Times(w) && Shape(su, w) && Enabled(su, w, c)
    ensures CooldownsKept(su, Apply(su, w, c))
  {
    hide Apply, Enabled, Times, CooldownsKept, Shape;
    match c {
      case RecordEffect(_) => RecordKeepsCooling(su, w, c);
      case SweepCooldowns(_) => SweepKeepsCooling(su, w, c);
      case _ => OtherStepKeepsCooling(su, w, c);
    }
  }

  // ----------------------------------------------------------- sweeps see them

  lemma {:induction false} SweepStepKeepsSweeps(su: Setup, w: World, c: Command)
    requires SweepsSee(su, w) && CooldownsKept(su, w) && Times(w) && Shape(su, w)
    requires Enabled(su, w, c) && c.SweepCooldowns?
    ensures SweepsSee(su, Apply(su, w, c))
  {
    var w' := Apply(su, w, c);
    SweepKeepsCooling(su, w, c);
    var pl := w.planners[c.p];
    assert w'.workers == w.workers;
    assert w'.planners == w.planners[c.p := w'.planners[c.p]];
    assert w'.planners[c.p].obs.services == MarkCooling(w'.tables.cooldowns, pl.obs.services);
    assert w'.planners[c.p].sweptAt == w.step && w'.planners[c.p].sweepClock == w'.clock;
    hide Apply, Enabled, Cooling, MarkCooling;
    forall p, k | 0 <= p < |w'.planners| && 0 <= k < |w'.workers| ensures SweepSees(su, w'.workers, w'.planners[p], k) {
      if p != c.p {
        assert SweepSees(su, w.workers, w.planners[p], k);
      } else {
        assert StillCooling(su, w', k);
        CoolingKeepsMarks(w'.tables.cooldowns, pl.obs.services, w.workers[k].action.service);
        if Cleared(w'.workers, k) {
          var j: nat :| Clears(w'.workers, k, j);
          assert WorkerTimes(w, w.workers[j]);
        }
      }
    }
  }

  lemma {:induction false} OtherStepKeepsSweeps(su: Setup, w: World, c: Command)
    requires SweepsSee(su, w) && Times(w) && Enabled(su, w, c) && !c.SweepCooldowns?
    ensures SweepsSee(su, Apply(su, w, c))
  {
    var w' := Apply(su, w, c);
    RecordsStand(su, w, c);
    SweepsStand(su, w, c);
    NewRecordsAreLate(su, w, c);
    hide Apply, Enabled, Cooling;
    forall p, k | 0 <= p < |w'.planners| && 0 <= k < |w'.workers| ensures SweepSees(su, w'.workers, w'.planners[p], k) {
      if PastSweep(w'.planners[p]) && w'.workers[k].effect == Useless && w'.workers[k].recAt < w'.planners[p].sweptAt {
        assert PlannerTimes(w, w.planners[p]);
        assert k < |w.workers| && w.workers[k].effect != Pending;
        assert SweepSees(su, w.workers, w.planners[p], k);
        ClearingStands(w.workers, w'.workers, k, w.planners[p].sweptAt);
      }
    }
  }

  lemma {:induction false} NewRecordsAreLate(su: Setup, w: World, c: Command)
    requires Enabled(su, w, c)
    ensures forall k :: 0 <= k < |Apply(su, w, c).workers| && Apply(su, w, c).workers[k].effect != Pending ==>
      (k < |w.workers| && w.workers[k].effect != Pending) || Apply(su, w, c).workers[k].recAt == w.step
  {
    hide PlanFor, AsksOnly, SnapshotOf, GateOf, Judge, Record;
  }

  lemma {:induction false} SweepsStand(su: Setup, w: World, c: Command)
    requires Enabled(su, w, c) && !c.SweepCooldowns?
    ensures var w' := Apply(su, w, c);
      forall p :: 0 <= p < |w'.planners| && PastSweep(w'.planners[p]) ==>
        && p < |w.planners| && PastSweep(w.planners[p])
        && w'.planners[p].sweptAt == w.planners[p].sweptAt && w'.planners[p].sweepClock == w.planners[p].sweepClock
        && w'.planners[p].obs.services == w.planners[p].obs.services
  {
    var w' := Apply(su, w, c);
    if MovesWorker(c) {
      WorkerStepMoves(su, w, c);
      hide Apply, Enabled;
      assert forall p :: 0 <= p < |w.planners| ==> SameButResults(w.planners[p], w'.planners[p]);
    } else if Quiet(c) {
      QuietStep(su, w, c);
      hide Apply, Enabled;
      assert forall p :: 0 <= p < |w.planners| ==> MovesOn(w.planners[p], w'.planners[p]);
    }
  }

  lemma {:induction false} StepKeepsSweeps(su: Setup, w: World, c: Command)
    requires SweepsSee(su, w) && CooldownsKept(su, w) && Times(w) && Shape(su, w) && Enabled(su, w, c)
    ensures SweepsSee(su, Apply(su, w, c))
  {
    hide Apply, Enabled, Times, CooldownsKept, SweepsSee, Shape;
    if c.SweepCooldowns? {
      SweepStepKeepsSweeps(su, w, c);
    } else {
      OtherStepKeepsSweeps(su, w, c);
    }
  }
}
