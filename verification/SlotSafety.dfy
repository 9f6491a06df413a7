/** What every interleaving keeps: the shape of the threads, one action per
    service at a time, and no adapter call outside its slot or its permission. */
module SlotSafety {
  import opened Machine
  import opened Domain
  import opened Tables
  import opened World
  import Greedy
  import Observe
  import Ordering
  import PlainTerms
  import Scheduler
  import Sorting

  // ------------------------------------------------------- shape of the threads

  predicate HasProbed(pc: PlannerPc) {
    !pc.Begun? && !pc.Claimed?
  }

  predicate Decided(pc: PlannerPc) {
    pc.Planned? || pc.Finished?
  }

  /** What a planner sees is the configured services, in order. */
  ghost predicate SeesConfig(cfg: Config, services: seq<ServiceState>) {
    && |services| == |cfg.services|
    && forall i :: 0 <= i < |services| ==>
        && services[i].name == cfg.services[i].name
        && services[i].priority == cfg.services[i].priority
        && services[i].allowStop == cfg.services[i].allowStop
        && SeesAdapter(cfg.services[i].adapter, services[i])
  }

  /** ... with what its adapter can do, and no memory it does not measure. */
  predicate SeesAdapter(kind: AdapterKind, s: ServiceState) {
    && s.canRelease == Observe.CanRelease(kind) && s.stopUnit == Observe.CanStop(kind)
    && (s.up ==> !kind.UnknownAdapter?)
    && (s.heldMiB > 0 ==> Observe.Measures(kind))
  }

  ghost predicate PlannerOk(su: Setup, pl: Planner) {
    && Askable(su, pl.kind)
    && (HasProbed(pl.pc) ==> SeesConfig(su.cfg, pl.obs.services))
    && (Decided(pl.pc) ==> pl.plan == PlanFor(su, pl.kind, pl.obs) && |pl.results| == |pl.plan.actions|)
    && (if pl.pc.Planned? then pl.spawned <= |pl.plan.actions| && !AsksOnly(su, pl.kind)
        else if pl.pc.Finished? then pl.spawned == if AsksOnly(su, pl.kind) then 0 else |pl.plan.actions|
        else pl.spawned == 0)
  }

  ghost predicate WorkerOk(planners: seq<Planner>, wk: Worker) {
    && wk.planner < |planners|
    && Decided(planners[wk.planner].pc)
    && wk.index < planners[wk.planner].spawned <= |planners[wk.planner].plan.actions|
    && wk.action == planners[wk.planner].plan.actions[wk.index]
    && wk.result.service == wk.action.service && wk.result.verb == wk.action.verb
    && (wk.reported ==> wk.pc in {Released, Skipped})
  }

  ghost predicate Shape(su: Setup, w: World) {
    && (forall p :: 0 <= p < |w.planners| ==> PlannerOk(su, w.planners[p]))
    && (forall k :: 0 <= k < |w.workers| ==> WorkerOk(w.planners, w.workers[k]))
    && (forall j, k :: 0 <= j < k < |w.workers| && w.workers[j].planner == w.workers[k].planner ==>
          w.workers[j].index != w.workers[k].index)
  }

  // --------------------------------------------------- what one step may touch

  predicate MovesPlanner(c: Command) {
    c.FileClaim? || c.Probe? || c.ReadClaims? || c.ReadInflight? || c.ReadClock? || c.SweepCooldowns?
    || c.MakePlan? || c.Finish?
  }

  predicate MovesWorker(c: Command) {
    c.Acquire? || c.Open? || c.Return? || c.Measure? || c.RecordEffect? || c.ReleaseSlot? || c.Report?
  }

  /** Only planner p changes, and not its plan once that is made. */
  ghost predicate PlannerMoved(w: World, w': World, p: nat) {
    && w'.workers == w.workers && w'.clock == w.clock && w'.tables.inflight == w.tables.inflight
    && |w'.planners| == |w.planners| && p < |w.planners|
    && (forall q :: 0 <= q < |w.planners| && q != p ==> w'.planners[q] == w.planners[q])
    && (Decided(w.planners[p].pc) ==>
          && Decided(w'.planners[p].pc) && w'.planners[p].plan == w.planners[p].plan
          && w'.planners[p].spawned == w.planners[p].spawned)
  }

  /** Only worker k changes, and it stays on its action; planners change in
      their results at most. */
  ghost predicate WorkerMoved(w: World, w': World, k: nat) {
    && w'.clock == w.clock && w'.tables.claims == w.tables.claims
    && |w'.workers| == |w.workers| && k < |w.workers|
    && (forall j :: 0 <= j < |w.workers| && j != k ==> w'.workers[j] == w.workers[j])
    && SameErrand(w.workers[k], w'.workers[k])
    && |w'.planners| == |w.planners|
    && forall q :: 0 <= q < |w.planners| ==> SameButResults(w.planners[q], w'.planners[q])
  }

  predicate SameErrand(a: Worker, b: Worker) {
    && b.planner == a.planner && b.index == a.index && b.action == a.action
    && b.result.service == a.result.service && b.result.verb == a.result.verb
  }

  predicate SameButResults(a: Planner, b: Planner) {
    b == a.(results := b.results) && |b.results| == |a.results|
  }

  lemma {:induction false} PlannerStepMoves(su: Setup, w: World, c: Command)
    requires Enabled(su, w, c) && MovesPlanner(c)
    ensures PlannerMoved(w, Apply(su, w, c), c.p)
  {
    hide PlanFor, AsksOnly, SnapshotOf, Sweeps, StepWorker;
  }

  lemma {:induction false} WorkerStepMoves(su: Setup, w: World, c: Command)
    requires Enabled(su, w, c) && MovesWorker(c)
    ensures WorkerMoved(w, Apply(su, w, c), c.k)
    ensures !c.Report? ==> Apply(su, w, c).planners == w.planners
    ensures Apply(su, w, c).workers[c.k].reported ==> c.Report? || w.workers[c.k].reported
    ensures c.Report? ==> Apply(su, w, c).workers[c.k] == w.workers[c.k].(reported := true)
  {
    if c.Report? {
      ReportMoves(su, w, c);
    } else {
      SectionMoves(su, w, c);
    }
    hide Apply, Enabled;
  }

  lemma {:induction false} ReportMoves(su: Setup, w: World, c: Command)
    requires Enabled(su, w, c) && c.Report?
    ensures WorkerMoved(w, Apply(su, w, c), c.k)
    ensures Apply(su, w, c).workers[c.k] == w.workers[c.k].(reported := true)
  {
    hide StepPlanner, Opened, Record, Take, GiveBack, Judge;
  }

  lemma {:induction false} SectionMoves(su: Setup, w: World, c: Command)
    requires Enabled(su, w, c) && MovesWorker(c) && !c.Report?
    ensures WorkerMoved(w, Apply(su, w, c), c.k)
    ensures Apply(su, w, c).planners == w.planners
    ensures Apply(su, w, c).workers[c.k].reported == w.workers[c.k].reported
  {
    hide GateOf, Judge, StepPlanner;
  }

  // -------------------------------------------------------- the shape is kept

  lemma {:induction false} PlannerStepKeepsPlanner(su: Setup, w: World, c: Command)
    requires Enabled(su, w, c) && MovesPlanner(c)
    requires PlannerOk(su, w.planners[c.p])
    ensures PlannerOk(su, Apply(su, w, c).planners[c.p])
  {
    hide PlanFor, AsksOnly, Askable, SnapshotOf, StepWorker;
  }

  lemma {:induction false} PlannerStepKeepsShape(su: Setup, w: World, c: Command)
    requires Shape(su, w) && Enabled(su, w, c) && MovesPlanner(c)
    ensures Shape(su, Apply(su, w, c))
  {
    hide PlannerOk, Apply, Enabled;
    var w' := Apply(su, w, c);
    PlannerStepMoves(su, w, c);
    PlannerStepKeepsPlanner(su, w, c);
    forall k | 0 <= k < |w.workers| ensures WorkerOk(w'.planners, w'.workers[k]) {
      assert WorkerOk(w.planners, w.workers[k]);
    }
  }

  lemma {:induction false} SpawnKeepsShape(su: Setup, w: World, c: Command)
    requires Shape(su, w) && Enabled(su, w, c) && c.Spawn?
    ensures Shape(su, Apply(su, w, c))
  {
    hide PlanFor, AsksOnly;
    var w' := Apply(su, w, c);
    assert PlannerOk(su, w.planners[c.p]);
    forall k | 0 <= k < |w'.workers| ensures WorkerOk(w'.planners, w'.workers[k]) {
      if k < |w.workers| {
        assert WorkerOk(w.planners, w.workers[k]);
      }
    }
    forall j, k | 0 <= j < k < |w'.workers| && w'.workers[j].planner == w'.workers[k].planner
      ensures w'.workers[j].index != w'.workers[k].index
    {
      assert WorkerOk(w.planners, w.workers[j]);
    }
  }

  lemma {:induction false} ResultsKeepWorker(before: seq<Planner>, after: seq<Planner>, wk: Worker, wk': Worker)
    requires WorkerOk(before, wk) && SameErrand(wk, wk')
    requires |after| == |before| && SameButResults(before[wk.planner], after[wk.planner])
    requires wk'.reported ==> wk'.pc in {Released, Skipped}
    ensures WorkerOk(after, wk')
  {
  }

  lemma {:induction false} WorkerMoveKeepsShape(su: Setup, w: World, w': World, k: nat)
    requires Shape(su, w) && WorkerMoved(w, w', k)
    requires w'.workers[k].reported ==> w'.workers[k].pc in {Released, Skipped}
    ensures Shape(su, w')
  {
    hide PlanFor, AsksOnly, WorkerOk;
    forall p | 0 <= p < |w'.planners| ensures PlannerOk(su, w'.planners[p]) {
      assert PlannerOk(su, w.planners[p]) && SameButResults(w.planners[p], w'.planners[p]);
    }
    forall j | 0 <= j < |w'.workers| ensures WorkerOk(w'.planners, w'.workers[j]) {
      var wk := w.workers[j];
      assert WorkerOk(w.planners, wk);
      ReportedIsDone(w.planners, wk);
      assert SameButResults(w.planners[wk.planner], w'.planners[wk.planner]);
      ResultsKeepWorker(w.planners, w'.planners, wk, w'.workers[j]);
    }
  }

  lemma {:induction false} ReportedIsDone(planners: seq<Planner>, wk: Worker)
    requires WorkerOk(planners, wk)
    ensures wk.planner < |planners|
    ensures wk.reported ==> wk.pc in {Released, Skipped}
  {
  }

  lemma {:induction false} ReportedStaysDone(su: Setup, w: World, c: Command)
    requires Shape(su, w) && Enabled(su, w, c) && MovesWorker(c)
    ensures c.k < |Apply(su, w, c).workers|
    ensures Apply(su, w, c).workers[c.k].reported ==> Apply(su, w, c).workers[c.k].pc in {Released, Skipped}
  {
    hide Apply;
    WorkerStepMoves(su, w, c);
    assert WorkerOk(w.planners, w.workers[c.k]);
  }

  lemma {:induction false} WorkerStepKeepsShape(su: Setup, w: World, c: Command)
    requires Shape(su, w) && Enabled(su, w, c) && MovesWorker(c)
    ensures Shape(su, Apply(su, w, c))
  {
    hide Apply;
    WorkerStepMoves(su, w, c);
    ReportedStaysDone(su, w, c);
    hide Shape;
    WorkerMoveKeepsShape(su, w, Apply(su, w, c), c.k);
  }

  lemma {:induction false} OtherStepKeepsShape(su: Setup, w: World, c: Command)
    requires Shape(su, w) && Enabled(su, w, c) && (c.Advance? || c.DropClaim? || c.Begin?)
    ensures Shape(su, Apply(su, w, c))
  {
    var w' := Apply(su, w, c);
    forall k | 0 <= k < |w'.workers| ensures WorkerOk(w'.planners, w'.workers[k]) {
      assert WorkerOk(w.planners, w.workers[k]);
    }
  }

  lemma {:induction false} StepKeepsShape(su: Setup, w: World, c: Command)
    requires Shape(su, w) && Enabled(su, w, c)
    ensures Shape(su, Apply(su, w, c))
  {
    hide Shape, Enabled, Apply;
    if MovesPlanner(c) {
      PlannerStepKeepsShape(su, w, c);
    } else if MovesWorker(c) {
      WorkerStepKeepsShape(su, w, c);
    } else if c.Spawn? {
      SpawnKeepsShape(su, w, c);
    } else {
      OtherStepKeepsShape(su, w, c);
    }
  }

  // -------------------------------------------------------------------- slots

  /** Between a successful acquire and its releaseSlot. */
  predicate HasSlot(pc: WorkerPc) {
    pc in {Opening, Calling, Returned, Measured, Closing}
  }

  /** inflight is exactly the services of the goroutines that have a slot, and
      no two of those are on one service. */
  ghost predicate SlotsExact(w: World) {
    && (forall k :: 0 <= k < |w.workers| && HasSlot(w.workers[k].pc) ==>
          w.workers[k].action.service in w.tables.inflight)
    && (forall s :: s in w.tables.inflight ==> exists k :: HoldsSlot(w, k, s))
    && (forall j, k :: 0 <= j < k < |w.workers| && HasSlot(w.workers[j].pc) && HasSlot(w.workers[k].pc) ==>
          w.workers[j].action.service != w.workers[k].action.service)
  }

  ghost predicate HoldsSlot(w: World, k: nat, service: string) {
    k < |w.workers| && HasSlot(w.workers[k].pc) && w.workers[k].action.service == service
  }

  /** What a step of worker k does to its slot. */
  lemma {:induction false} WorkerSlotStep(su: Setup, w: World, c: Command)
    requires Enabled(su, w, c) && MovesWorker(c)
    ensures var w' := Apply(su, w, c);
      var s := w.workers[c.k].action.service;
      var had, has := HasSlot(w.workers[c.k].pc), HasSlot(w'.workers[c.k].pc);
      if c.Acquire? && s !in w.tables.inflight then !had && has && w'.tables.inflight == w.tables.inflight + {s}
      else if c.ReleaseSlot? then had && !has && w'.tables.inflight == w.tables.inflight - {s}
      else had == has && w'.tables.inflight == w.tables.inflight
  {
    hide StepPlanner, Judge, GateOf;
  }

  lemma {:induction false} WorkerStepKeepsSlots(su: Setup, w: World, c: Command)
    requires SlotsExact(w) && Enabled(su, w, c) && MovesWorker(c)
    ensures SlotsExact(Apply(su, w, c))
  {
    hide Apply, Enabled, HasSlot;
    var w' := Apply(su, w, c);
    WorkerStepMoves(su, w, c);
    WorkerSlotStep(su, w, c);
    forall s | s in w'.tables.inflight ensures exists k :: HoldsSlot(w', k, s) {
      if s in w.tables.inflight {
        var k :| HoldsSlot(w, k, s);
        assert HoldsSlot(w', k, s);
      } else {
        assert HoldsSlot(w', c.k, s);
      }
    }
  }

  lemma {:induction false} StepKeepsSlots(su: Setup, w: World, c: Command)
    requires SlotsExact(w) && Enabled(su, w, c)
    ensures SlotsExact(Apply(su, w, c))
  {
    if MovesWorker(c) {
      WorkerStepKeepsSlots(su, w, c);
    } else {
      OtherStepKeepsWorkers(su, w, c);
      var w' := Apply(su, w, c);
      hide Apply, Enabled, HasSlot;
      forall s | s in w'.tables.inflight ensures exists k :: HoldsSlot(w', k, s) {
        var k :| HoldsSlot(w, k, s);
        assert HoldsSlot(w', k, s);
      }
    }
  }

  /** No other step moves a goroutine or touches inflight; a spawned one has no slot. */
  lemma {:induction false} OtherStepKeepsWorkers(su: Setup, w: World, c: Command)
    requires Enabled(su, w, c) && !MovesWorker(c)
    ensures var w' := Apply(su, w, c);
      && w'.tables.inflight == w.tables.inflight
      && |w.workers| <= |w'.workers| && w'.workers[..|w.workers|] == w.workers
      && (forall k :: |w.workers| <= k < |w'.workers| ==>
            w'.workers[k].pc == Spawned && w'.workers[k].effect == Pending && !w'.workers[k].reported)
      && (!c.Spawn? ==> w'.workers == w.workers)
  {
    hide StepWorker, PlanFor, AsksOnly, SnapshotOf, Sweep;
  }

  // -------------------------------------------------------------- permissions

  /** Every adapter call in progress, or just made, passed the daemon's gate. */
  ghost predicate CallsPermitted(su: Setup, w: World) {
    forall k :: 0 <= k < |w.workers| && w.workers[k].pc in {Calling, Returned, Measured} ==>
      GateOf(su, w.workers[k].action) == Call
  }

  lemma {:induction false} StepKeepsPermissions(su: Setup, w: World, c: Command)
    requires CallsPermitted(su, w) && Enabled(su, w, c)
    ensures CallsPermitted(su, Apply(su, w, c))
  {
    hide GateOf, Judge, PlanFor;
    if MovesWorker(c) {
      hide StepPlanner;
      WorkerStepMoves(su, w, c);
    } else {
      hide StepPlanner, StepWorker;
      OtherStepKeepsWorkers(su, w, c);
    }
  }

  /** Whoever plans, an action is on a service it saw, not in flight, with the
      verb that service permits. */
  lemma {:induction false} PlanActsOnSeen(su: Setup, kind: PlannerKind, obs: Observation)
    ensures forall a :: a in PlanFor(su, kind, obs).actions ==>
      exists s :: s in obs.services && s.name == a.service && !s.actionInFlight && Scheduler.ChooseVerb(s) == Ok(a.verb)
  {
    match kind {
      case EvictFor(service, allExcept, _) =>
        PlainTerms.EvictionsMean(obs.services, [service]);
        PlainTerms.EvictionsMean(obs.services, Sorting.Sort(Ordering.Before, Scheduler.Others(obs.services, service)));
      case _ =>
        DecideActsOnSeen(su.cfg, obs);
    }
  }

  lemma {:induction false} DecideActsOnSeen(cfg: Config, obs: Observation)
    ensures forall a :: a in Scheduler.DecidePlan(cfg, obs).actions ==>
      exists s :: s in obs.services && s.name == a.service && !s.actionInFlight && s.cooldownUntil.None?
                  && Scheduler.ChooseVerb(s) == Ok(a.verb)
  {
    hide Scheduler.DecidePlan, Greedy.Beneficiary, Greedy.Contested;
    Greedy.ActionsAreActionable(cfg, obs);
    forall a | a in Scheduler.DecidePlan(cfg, obs).actions
      ensures exists s :: s in obs.services && s.name == a.service && !s.actionInFlight && s.cooldownUntil.None?
                          && Scheduler.ChooseVerb(s) == Ok(a.verb)
    {
      var s :| s in obs.services && Greedy.Actionable(s, Greedy.Beneficiary(cfg, obs)) && a == Greedy.ActionOn(s);
    }
  }

  /** The second check executeOne makes never fires: every action any planner
      hands it is configured, and a stop is on a service that allows it. */
  lemma {:induction false} GateNeverRefuses(su: Setup, w: World, k: nat)
    requires Shape(su, w) && DistinctServices(su.cfg.services) && k < |w.workers|
    ensures GateOf(su, w.workers[k].action) != Refuse
  {
    hide PlanFor;
    var wk := w.workers[k];
    assert WorkerOk(w.planners, wk);
    var pl := w.planners[wk.planner];
    assert PlannerOk(su, pl);
    PlanActsOnSeen(su, pl.kind, pl.obs);
    assert wk.action in pl.plan.actions;
    var s :| s in pl.obs.services && s.name == wk.action.service && !s.actionInFlight
      && Scheduler.ChooseVerb(s) == Ok(wk.action.verb);
    var i :| 0 <= i < |pl.obs.services| && pl.obs.services[i] == s;
    LookUpAt(su.cfg, i);
  }

  // ------------------------------------------------------------------ results

  /** results[i] is the outcome of the goroutine that ran action i, and of no other. */
  ghost predicate ResultsMatch(w: World) {
    && (forall k :: 0 <= k < |w.workers| && w.workers[k].reported ==>
          && w.workers[k].planner < |w.planners|
          && w.workers[k].index < |w.planners[w.workers[k].planner].results|
          && w.planners[w.workers[k].planner].results[w.workers[k].index] == Some(w.workers[k].result))
    && (forall p, i :: 0 <= p < |w.planners| && 0 <= i < |w.planners[p].results| && w.planners[p].results[i].Some? ==>
          exists k :: ReportedFor(w, k, p, i))
  }

  ghost predicate ReportedFor(w: World, k: nat, p: nat, i: nat) {
    k < |w.workers| && w.workers[k].planner == p && w.workers[k].index == i && w.workers[k].reported
  }

  lemma {:induction false} PlannerStepKeepsResults(su: Setup, w: World, c: Command)
    requires Shape(su, w) && ResultsMatch(w) && Enabled(su, w, c) && !MovesWorker(c)
    ensures ResultsMatch(Apply(su, w, c))
  {
    var w' := Apply(su, w, c);
    OtherStepKeepsWorkers(su, w, c);
    OtherStepKeepsResults(su, w, c);
    forall p, i | 0 <= p < |w'.planners| && 0 <= i < |w'.planners[p].results| && w'.planners[p].results[i].Some?
      ensures exists k :: ReportedFor(w', k, p, i)
    {
      var k :| ReportedFor(w, k, p, i);
      assert ReportedFor(w', k, p, i);
    }
    hide Apply, Enabled;
    forall k | 0 <= k < |w'.workers| && w'.workers[k].reported
      ensures w'.workers[k].planner < |w'.planners|
        && w'.workers[k].index < |w'.planners[w'.workers[k].planner].results|
        && w'.planners[w'.workers[k].planner].results[w'.workers[k].index] == Some(w'.workers[k].result)
    {
      assert w'.workers[k] == w.workers[k];
      assert WorkerOk(w.planners, w.workers[k]);
    }
  }

  /** Only the making of a plan sets its results up, all of them open. */
  lemma {:induction false} OtherStepKeepsResults(su: Setup, w: World, c: Command)
    requires Enabled(su, w, c) && !MovesWorker(c)
    ensures var w' := Apply(su, w, c);
      && |w.planners| <= |w'.planners|
      && (forall p :: 0 <= p < |w.planners| && (Decided(w.planners[p].pc) || !c.MakePlan?) ==>
            w'.planners[p].results == w.planners[p].results)
      && (forall p, i ::
            0 <= p < |w'.planners| && 0 <= i < |w'.planners[p].results| && w'.planners[p].results[i].Some? ==>
            p < |w.planners| && i < |w.planners[p].results| && w.planners[p].results[i].Some?)
  {
    hide StepWorker, PlanFor, AsksOnly, SnapshotOf, Sweep;
  }

  lemma {:induction false} ReportKeepsResults(su: Setup, w: World, c: Command)
    requires Shape(su, w) && ResultsMatch(w) && Enabled(su, w, c) && c.Report?
    ensures ResultsMatch(Apply(su, w, c))
  {
    var w' := Apply(su, w, c);
    var wk := w.workers[c.k];
    ReportSets(su, w, c);
    OnePerIndex(su, w);
    hide Apply, Enabled, Shape;
    forall k | 0 <= k < |w'.workers| && w'.workers[k].reported
      ensures w'.workers[k].planner < |w'.planners|
      ensures w'.workers[k].index < |w'.planners[w'.workers[k].planner].results|
      ensures w'.planners[w'.workers[k].planner].results[w'.workers[k].index] == Some(w'.workers[k].result)
    {
    }
    forall p, i | 0 <= p < |w'.planners| && 0 <= i < |w'.planners[p].results| && w'.planners[p].results[i].Some?
      ensures exists k :: ReportedFor(w', k, p, i)
    {
      if p == wk.planner && i == wk.index {
        assert ReportedFor(w', c.k, p, i);
      } else {
        var k :| ReportedFor(w, k, p, i);
        assert ReportedFor(w', k, p, i);
      }
    }
  }

  /** A report fills in exactly one result. */
  lemma {:induction false} ReportSets(su: Setup, w: World, c: Command)
    requires Shape(su, w) && Enabled(su, w, c) && c.Report?
    ensures var w', wk := Apply(su, w, c), w.workers[c.k];
      && wk.planner < |w.planners| && wk.index < |w.planners[wk.planner].results|
      && w'.workers == w.workers[c.k := wk.(reported := true)]
      && w'.planners == w.planners[wk.planner := w.planners[wk.planner].(results :=
                          w.planners[wk.planner].results[wk.index := Some(wk.result)])]
  {
    hide PlanFor, AsksOnly, Askable;
    assert WorkerOk(w.planners, w.workers[c.k]);
    assert PlannerOk(su, w.planners[w.workers[c.k].planner]);
  }

  lemma {:induction false} OnePerIndex(su: Setup, w: World)
    requires Shape(su, w)
    ensures forall j, k :: 0 <= j < |w.workers| && 0 <= k < |w.workers| && j != k ==>
      w.workers[j].planner != w.workers[k].planner || w.workers[j].index != w.workers[k].index
  {
  }

  lemma {:induction false} WorkerMoveKeepsResults(w: World, w': World, k: nat)
    requires ResultsMatch(w) && WorkerMoved(w, w', k) && w'.planners == w.planners
    requires !w.workers[k].reported && !w'.workers[k].reported
    ensures ResultsMatch(w')
  {
    hide SameErrand;
    forall p, i | 0 <= p < |w'.planners| && 0 <= i < |w'.planners[p].results| && w'.planners[p].results[i].Some?
      ensures exists j :: ReportedFor(w', j, p, i)
    {
      var j :| ReportedFor(w, j, p, i);
      assert ReportedFor(w', j, p, i);
    }
  }

  lemma {:induction false} WorkerStepKeepsResults(su: Setup, w: World, c: Command)
    requires Shape(su, w) && ResultsMatch(w) && Enabled(su, w, c) && MovesWorker(c) && !c.Report?
    ensures ResultsMatch(Apply(su, w, c))
  {
    assert WorkerOk(w.planners, w.workers[c.k]);
    assert !w.workers[c.k].reported;
    hide Apply, Enabled, Shape, ResultsMatch;
    WorkerStepMoves(su, w, c);
    WorkerMoveKeepsResults(w, Apply(su, w, c), c.k);
  }

  lemma {:induction false} StepKeepsResults(su: Setup, w: World, c: Command)
    requires Shape(su, w) && ResultsMatch(w) && Enabled(su, w, c)
    ensures ResultsMatch(Apply(su, w, c))
  {
    hide Apply, Enabled, Shape, ResultsMatch;
    if !MovesWorker(c) {
      PlannerStepKeepsResults(su, w, c);
    } else if c.Report? {
      ReportKeepsResults(su, w, c);
    } else {
      WorkerStepKeepsResults(su, w, c);
    }
  }

  ghost predicate Waited(su: Setup, pl: Planner) {
    pl.pc.Finished? && !pl.kind.Tick? && !AsksOnly(su, pl.kind) ==> forall r :: r in pl.results ==> r.Some?
  }

  /** A client's plan is finished only with every result in. */
  ghost predicate ClientsWaited(su: Setup, w: World) {
    forall p :: 0 <= p < |w.planners| ==> Waited(su, w.planners[p])
  }

  lemma {:induction false} StepKeepsWaiting(su: Setup, w: World, c: Command)
    requires ClientsWaited(su, w) && Enabled(su, w, c)
    ensures ClientsWaited(su, Apply(su, w, c))
  {
    hide PlanFor, AsksOnly, SnapshotOf, Judge, GateOf, Sweeps, Record;
  }
}
