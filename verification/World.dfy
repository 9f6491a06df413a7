/** Every interleaving of the daemon: the poll loop, one goroutine per client
    connection and one per action, each advancing one critical section or one
    outside call at a time. */
module World {
  import opened Machine
  import opened Domain
  import opened Tables
  import Observe
  import Scheduler

  /** The configuration and the --dry-run flag, fixed for the life of the daemon. */
  datatype Setup = Setup(cfg: Config, dryRun: bool)

  // ------------------------------------------------------------------ threads

  datatype PlannerKind =
    | Tick
    | PlanQuery
    | RequestFor(service: string, needMiB: u64, dryRun: bool)
    | EvictFor(service: string, allExcept: bool, dryRun: bool)

  datatype PlannerPc =
    Begun | Claimed | Probed | ClaimsRead | InflightRead | ClockRead | Swept | Planned | Finished

  /** A goroutine that makes one plan. snapAt and sweptAt are the steps at which
      it read inflight and swept the cooldowns; seen is how many action
      goroutines existed at the former. */
  datatype Planner = Planner(
    kind: PlannerKind, pc: PlannerPc, mine: Option<Claim>, obs: Observation,
    snapAt: nat, seen: nat, now: Instant, sweptAt: nat, sweepClock: Instant,
    plan: Plan, spawned: nat, results: seq<Option<ActionResult>>)

  datatype WorkerPc = Spawned | Opening | Calling | Returned | Measured | Closing | Released | Skipped

  /** A goroutine that runs action `index` of a planner's plan. acqAt, recAt and
      relAt are the steps at which it took its slot, recorded its effect and gave
      the slot back; recClock is the clock at the recording. */
  datatype Worker = Worker(
    planner: nat, index: nat, action: Action, pc: WorkerPc, result: ActionResult, reported: bool,
    acqAt: nat, recAt: nat, relAt: nat, effect: Effect, recClock: Instant)

  datatype World = World(clock: Instant, step: nat, tables: State, planners: seq<Planner>, workers: seq<Worker>)

  function Init(clock: Instant): World {
    World(clock, 0, EMPTY, [], [])
  }

  // -------------------------------------------------------------- executeOne

  /** What executeOne does with an action before it calls the adapter. */
  datatype Gate = Refuse | Pretend | Call

  function GateOf(su: Setup, action: Action): Gate {
    match LookUp(su.cfg, action.service)
    case None => Refuse
    case Some(svc) =>
      if action.verb == Stop && !svc.allowStop then Refuse
      else if su.dryRun then Pretend
      else Call
  }

  // ----------------------------------------------------------------- commands

  /** One step of one thread, with what the outside world contributes to it. */
  datatype Command =
    | Advance(dt: nat)
    | Begin(kind: PlannerKind)
    | FileClaim(p: nat, at: Instant)
    | Probe(p: nat, device: Option<Device>, probes: seq<Observe.Probe>)
    | ReadClaims(p: nat)
    | ReadInflight(p: nat)
    | ReadClock(p: nat)
    | SweepCooldowns(p: nat)
    | MakePlan(p: nat)
    | Spawn(p: nat)
    | Finish(p: nat)
    | DropClaim(service: string)
    | Acquire(k: nat)
    | Open(k: nat, before: Option<u64>)
    | Return(k: nat, acted: bool, failed: bool)
    | Measure(k: nat, after: Option<u64>)
    | RecordEffect(k: nat)
    | ReleaseSlot(k: nat)
    | Report(k: nat)

  predicate AsksOnly(su: Setup, kind: PlannerKind) {
    match kind
    case Tick => false
    case PlanQuery => true
    case RequestFor(_, _, dry) => dry || su.dryRun
    case EvictFor(_, _, dry) => dry || su.dryRun
  }

  /** Only the loop and `plan` consult the cooldowns. */
  predicate Sweeps(kind: PlannerKind) {
    kind.Tick? || kind.PlanQuery?
  }

  function PlanFor(su: Setup, kind: PlannerKind, obs: Observation): Plan {
    match kind
    case EvictFor(service, allExcept, _) =>
      if allExcept then Scheduler.EvictAllExceptPlan(obs, service) else Scheduler.EvictPlan(obs, [service])
    case _ => Scheduler.DecidePlan(su.cfg, obs)
  }

  predicate Askable(su: Setup, kind: PlannerKind) {
    match kind
    case RequestFor(service, _, _) => Configured(su.cfg, service)
    case EvictFor(service, _, _) => Configured(su.cfg, service)
    case _ => true
  }

  predicate PlannerAt(w: World, p: nat, pc: PlannerPc) {
    p < |w.planners| && w.planners[p].pc == pc
  }

  predicate WorkerAt(w: World, k: nat, pc: WorkerPc) {
    k < |w.workers| && w.workers[k].pc == pc
  }

  ghost predicate Enabled(su: Setup, w: World, c: Command) {
    match c
    case Advance(_) => true
    case Begin(kind) =>
      // The poll loop is one goroutine: its next round starts after this one.
      && Askable(su, kind)
      && (kind.Tick? ==>
            forall p :: 0 <= p < |w.planners| && w.planners[p].kind.Tick? ==> w.planners[p].pc.Finished?)
    case FileClaim(p, at) => PlannerAt(w, p, Begun) && w.planners[p].kind.RequestFor? && at <= w.clock
    case Probe(p, _, probes) =>
      && Observe.Answers(su.cfg.services, probes)
      && p < |w.planners|
      && w.planners[p].pc == if w.planners[p].kind.RequestFor? then Claimed else Begun
    case ReadClaims(p) => PlannerAt(w, p, Probed)
    case ReadInflight(p) => PlannerAt(w, p, ClaimsRead)
    case ReadClock(p) => PlannerAt(w, p, InflightRead) && Sweeps(w.planners[p].kind)
    case SweepCooldowns(p) => PlannerAt(w, p, ClockRead) && Sweeps(w.planners[p].kind)
    case MakePlan(p) =>
      p < |w.planners| && w.planners[p].pc == if Sweeps(w.planners[p].kind) then Swept else InflightRead
    case Spawn(p) => PlannerAt(w, p, Planned) && w.planners[p].spawned < |w.planners[p].plan.actions|
    case Finish(p) =>
      && PlannerAt(w, p, Planned) && w.planners[p].spawned == |w.planners[p].plan.actions|
      // The loop never waits for its actions; a client's plan is waited out.
      && (!w.planners[p].kind.Tick? ==> forall r :: r in w.planners[p].results ==> r.Some?)
    case DropClaim(service) => Configured(su.cfg, service) && !su.dryRun
    case Acquire(k) => WorkerAt(w, k, Spawned)
    case Open(k, _) => WorkerAt(w, k, Opening)
    case Return(k, _, _) => WorkerAt(w, k, Calling)
    case Measure(k, _) => WorkerAt(w, k, Returned)
    case RecordEffect(k) => WorkerAt(w, k, Measured)
    case ReleaseSlot(k) => WorkerAt(w, k, Closing)
    case Report(k) => k < |w.workers| && w.workers[k].pc in {Released, Skipped} && !w.workers[k].reported
  }

  // -------------------------------------------------------------------- steps

  function NewPlanner(kind: PlannerKind): Planner {
    Planner(kind, Begun, None, Observation(None, [], []), 0, 0, 0, 0, 0, NewPlan(NoTrigger), 0, [])
  }

  function NewWorker(p: nat, index: nat, action: Action): Worker {
    Worker(p, index, action, Spawned, ActionResult(action.service, action.verb, false, false, None, None),
           false, 0, 0, 0, Pending, 0)
  }

  function SetPlanner(w: World, p: nat, planner: Planner): World
    requires p < |w.planners|
  {
    w.(step := w.step + 1, planners := w.planners[p := planner])
  }

  function SetWorker(w: World, k: nat, worker: Worker, tables: State): World
    requires k < |w.workers|
  {
    w.(step := w.step + 1, workers := w.workers[k := worker], tables := tables)
  }

  ghost function StepPlanner(su: Setup, w: World, c: Command): World
    requires Enabled(su, w, c)
    requires c.FileClaim? || c.Probe? || c.ReadClaims? || c.ReadInflight? || c.ReadClock? || c.SweepCooldowns?
             || c.MakePlan? || c.Spawn? || c.Finish?
  {
    var pl := w.planners[c.p];
    match c
    case FileClaim(p, at) =>
      var claim := ClaimFor(w.tables.claims, pl.kind.service, pl.kind.needMiB, at);
      var tables := if AsksOnly(su, pl.kind) then w.tables
                    else w.tables.(claims := w.tables.claims[claim.service := claim]);
      SetPlanner(w, p, pl.(pc := Claimed, mine := Some(claim))).(tables := tables)
    case Probe(p, device, probes) =>
      SetPlanner(w, p, pl.(pc := Probed, obs := Observation(device, Observe.States(su.cfg.services, probes), [])))
    case ReadClaims(p) =>
      var own := if pl.mine.Some? && AsksOnly(su, pl.kind) then [pl.mine.value] else [];
      SetPlanner(w, p, pl.(pc := ClaimsRead, obs := pl.obs.(claims := SnapshotOf(w.tables.claims) + own)))
    case ReadInflight(p) =>
      SetPlanner(w, p, pl.(pc := InflightRead, snapAt := w.step, seen := |w.workers|,
        obs := pl.obs.(services := MarkInflight(w.tables.inflight, pl.obs.services))))
    case ReadClock(p) => SetPlanner(w, p, pl.(pc := ClockRead, now := w.clock))
    case SweepCooldowns(p) =>
      var cooldowns := Sweep(w.tables.cooldowns, pl.now);
      SetPlanner(w, p, pl.(pc := Swept, sweptAt := w.step, sweepClock := w.clock,
        obs := pl.obs.(services := MarkCooling(cooldowns, pl.obs.services)))).(
        tables := w.tables.(cooldowns := cooldowns))
    case MakePlan(p) =>
      var plan := PlanFor(su, pl.kind, pl.obs);
      SetPlanner(w, p, pl.(pc := if AsksOnly(su, pl.kind) then Finished else Planned, plan := plan,
        results := seq(|plan.actions|, _ => None)))
    case Spawn(p) =>
      var w' := SetPlanner(w, p, pl.(spawned := pl.spawned + 1));
      w'.(workers := w.workers + [NewWorker(p, pl.spawned, pl.plan.actions[pl.spawned])])
    case Finish(p) => SetPlanner(w, p, pl.(pc := Finished))
  }

  function Opened(su: Setup, wk: Worker, before: Option<u64>): Worker {
    var result := wk.result.(freeBeforeMiB := before);
    match GateOf(su, wk.action)
    case Refuse => wk.(pc := Closing, result := result.(failed := true))
    case Pretend => wk.(pc := Closing, result := result.(freeAfterMiB := before))
    case Call => wk.(pc := Calling, result := result)
  }

  function StepWorker(su: Setup, w: World, c: Command): World
    requires c.Acquire? || c.Open? || c.Return? || c.Measure? || c.RecordEffect? || c.ReleaseSlot? || c.Report?
    requires c.k < |w.workers|
  {
    var wk := w.workers[c.k];
    match c
    case Acquire(k) =>
      if wk.action.service in w.tables.inflight then SetWorker(w, k, wk.(pc := Skipped), w.tables)
      else SetWorker(w, k, wk.(pc := Opening, acqAt := w.step), Take(w.tables, wk.action.service))
    case Open(k, before) =>
      SetWorker(w, k, Opened(su, wk, before), w.tables)
    case Return(k, acted, failed) =>
      SetWorker(w, k, wk.(pc := Returned, result := wk.result.(acted := acted, failed := failed)), w.tables)
    case Measure(k, after) =>
      SetWorker(w, k, wk.(pc := Measured, result := wk.result.(freeAfterMiB := after)), w.tables)
    case RecordEffect(k) =>
      var effect := Judge(su.cfg.policy, wk.result);
      SetWorker(w, k, wk.(pc := Closing, recAt := w.step, recClock := w.clock, effect := effect),
                Record(w.tables, su.cfg.policy, wk.result, w.clock))
    case ReleaseSlot(k) =>
      SetWorker(w, k, wk.(pc := Released, relAt := w.step), GiveBack(w.tables, wk.action.service))
    case Report(k) =>
      var w' := SetWorker(w, k, wk.(reported := true), w.tables);
      if wk.planner < |w.planners| && wk.index < |w.planners[wk.planner].results| then
        var pl := w.planners[wk.planner];
        w'.(planners := w.planners[wk.planner := pl.(results := pl.results[wk.index := Some(wk.result)])])
      else w'
  }

  ghost function Apply(su: Setup, w: World, c: Command): World
    requires Enabled(su, w, c)
  {
    match c
    case Advance(dt) => w.(step := w.step + 1, clock := w.clock + dt)
    case Begin(kind) => w.(step := w.step + 1, planners := w.planners + [NewPlanner(kind)])
    case DropClaim(service) => w.(step := w.step + 1, tables := w.tables.(claims := w.tables.claims - {service}))
    case Acquire(_) => StepWorker(su, w, c)
    case Open(_, _) => StepWorker(su, w, c)
    case Return(_, _, _) => StepWorker(su, w, c)
    case Measure(_, _) => StepWorker(su, w, c)
    case RecordEffect(_) => StepWorker(su, w, c)
    case ReleaseSlot(_) => StepWorker(su, w, c)
    case Report(_) => StepWorker(su, w, c)
    case _ => StepPlanner(su, w, c)
  }

  /** run[i] is the world before commands[i]: a run of the daemon from the start. */
  ghost predicate IsRun(su: Setup, commands: seq<Command>, run: seq<World>) {
    && |run| == |commands| + 1
    && run[0] == Init(run[0].clock)
    && forall i :: 0 <= i < |commands| ==>
         Enabled(su, run[i], commands[i]) && run[i + 1] == Apply(su, run[i], commands[i])
  }
}
