/** Which configurations let the loop, on its own, break the retry bound: the runs
    in which a goroutine has not yet reached acquire when the next round looks. */
module RetryBreaks {
  import opened Machine
  import opened Domain
  import opened Tables
  import opened World
  import Greedy
  import Observe
  import PlainTerms
  import Runs
  import Scheduler
  import SlotSafety
  import Sorting

  // ---------------------------------------------------------- the two sides

  /** Nobody but the loop ever asks for anything. */
  predicate LoopOnly(commands: seq<Command>) {
    forall c :: c in commands && c.Begin? ==> c.kind.Tick?
  }

  /** Two useless actions on one service, recorded less than a cooldown apart. */
  predicate TwoInOneCooldown(su: Setup, w: World, j: nat, k: nat) {
    && j < |w.workers| && k < |w.workers| && j != k
    && w.workers[j].action.service == w.workers[k].action.service
    && w.workers[j].effect == Useless && w.workers[k].effect == Useless
    && w.workers[j].recClock <= w.workers[k].recClock < w.workers[j].recClock + su.cfg.policy.actionCooldown
  }

  /** A run of the loop alone that breaks the retry bound. */
  ghost predicate Breaks(su: Setup, commands: seq<Command>, run: seq<World>) {
    && IsRun(su, commands, run) && LoopOnly(commands)
    && exists j: nat, k: nat :: TwoInOneCooldown(su, run[|commands|], j, k)
  }

  /** No round of the loop came sooner than a poll interval after one before it. */
  predicate Paced(su: Setup, w: World) {
    forall p, q :: 0 <= p < q < |w.planners| ==>
      w.planners[p].now + su.cfg.policy.pollInterval <= w.planners[q].now
  }

  /** v is a service the loop may free for the sake of b: one whose memory is
      measured, lower, and not the default workload. */
  predicate MayLoseTo(cfg: Config, v: Service, b: Service) {
    && v.priority < b.priority && Observe.Measures(v.adapter) && !b.adapter.UnknownAdapter?
    && (cfg.policy.defaultWorkload == "" || v.name != cfg.policy.defaultWorkload)
  }

  /** Reactive mode is on with a floor to defend, and some service the loop may
      act on is below another. */
  ghost predicate Exposed(su: Setup) {
    && !su.dryRun && su.cfg.policy.reactive && su.cfg.policy.vramFloorMiB > 0
    && exists v, b :: v in su.cfg.services && b in su.cfg.services && MayLoseTo(su.cfg, v, b)
  }

  // ------------------------------------------ what a run of the loop alone shows

  predicate IsRound(pl: Planner) {
    pl.kind.Tick? && pl.mine.None?
  }

  ghost predicate RoundSees(su: Setup, pl: Planner) {
    SlotSafety.HasProbed(pl.pc) ==> pl.obs.claims == []
  }

  /** There are no claims, and every planner is a round of the loop. */
  ghost predicate Rounds(su: Setup, w: World) {
    && w.tables.claims == map[]
    && forall p :: 0 <= p < |w.planners| ==> IsRound(w.planners[p]) && RoundSees(su, w.planners[p])
  }

  /** While only the loop acts that is so, and a dry-run daemon records nothing. */
  ghost predicate LoopInv(su: Setup, w: World) {
    && Rounds(su, w)
    && (su.dryRun ==> forall k :: 0 <= k < |w.workers| ==> w.workers[k].effect == Pending)
  }

  lemma {:induction false} NoClaims()
    ensures SnapshotOf(map[]) == []
  {
    assert Sorting.Sort(ClaimLess, ListClaims(map[])) == [];
  }

  lemma {:induction false} LoopStepKeepsRounds(su: Setup, w: World, c: Command)
    requires LoopInv(su, w) && Enabled(su, w, c) && (c.Begin? ==> c.kind.Tick?)
    ensures Rounds(su, Apply(su, w, c))
  {
    if SlotSafety.MovesWorker(c) {
      hide Apply, Enabled, RoundSees;
      var w' := Apply(su, w, c);
      SlotSafety.WorkerStepMoves(su, w, c);
      forall p | 0 <= p < |w'.planners| ensures IsRound(w'.planners[p]) && RoundSees(su, w'.planners[p]) {
        assert SlotSafety.SameButResults(w.planners[p], w'.planners[p]);
        SeesTheSame(su, w.planners[p], w'.planners[p]);
      }
    } else {
      NothingIsFiled(su, w, c);
      PlannerStepKeepsRounds(su, w, c);
    }
  }

  lemma {:induction false} SeesTheSame(su: Setup, pl: Planner, pl': Planner)
    requires SlotSafety.SameButResults(pl, pl') && RoundSees(su, pl)
    ensures RoundSees(su, pl')
  {
  }

  lemma {:induction false} PlannerStepKeepsRounds(su: Setup, w: World, c: Command)
    requires Rounds(su, w) && Enabled(su, w, c) && (c.Begin? ==> c.kind.Tick?)
    requires !SlotSafety.MovesWorker(c) && !c.FileClaim?
    ensures Rounds(su, Apply(su, w, c))
  {
    NoClaims();
    hide SnapshotOf, PlanFor, Sweep, StepWorker;
  }

  lemma {:induction false} NothingIsFiled(su: Setup, w: World, c: Command)
    requires LoopInv(su, w) && Enabled(su, w, c)
    ensures !c.FileClaim?
  {
  }

  lemma {:induction false} NothingIsRecorded(su: Setup, w: World, c: Command)
    requires SlotSafety.CallsPermitted(su, w) && Enabled(su, w, c) && su.dryRun
    ensures !c.RecordEffect?
  {
  }

  lemma {:induction false} LoopStepKeepsDryRun(su: Setup, w: World, c: Command)
    requires LoopInv(su, w) && SlotSafety.CallsPermitted(su, w) && Enabled(su, w, c) && su.dryRun
    ensures forall k :: 0 <= k < |Apply(su, w, c).workers| ==> Apply(su, w, c).workers[k].effect == Pending
  {
    NothingIsRecorded(su, w, c);
    hide PlanFor, AsksOnly, SnapshotOf, GateOf, Judge, Record;
  }

  lemma {:induction false} LoopRunHolds(su: Setup, commands: seq<Command>, run: seq<World>, i: nat)
    requires IsRun(su, commands, run) && LoopOnly(commands) && i < |run|
    ensures LoopInv(su, run[i]) && Runs.Inv(su, run[i])
  {
    hide Runs.Inv, Apply, Enabled;
    Runs.RunHolds(su, commands, run, i);
    if i > 0 {
      LoopRunHolds(su, commands, run, i - 1);
      assert commands[i - 1] in commands;
      LoopStepKeepsRounds(su, run[i - 1], commands[i - 1]);
      if su.dryRun {
        CallsAreGated(su, run[i - 1]);
        LoopStepKeepsDryRun(su, run[i - 1], commands[i - 1]);
      }
    }
  }

  lemma {:induction false} CallsAreGated(su: Setup, w: World)
    requires Runs.Inv(su, w)
    ensures SlotSafety.CallsPermitted(su, w)
  {
  }

  /** A plan made with no claims about acts only on a service below another. */
  lemma {:induction false} ActingNeedsExposure(cfg: Config, obs: Observation, a: Action)
    requires DistinctServices(cfg.services) && obs.claims == []
    requires SlotSafety.SeesConfig(cfg, obs.services)
    requires a in Scheduler.DecidePlan(cfg, obs).actions
    ensures cfg.policy.reactive && cfg.policy.vramFloorMiB > 0
    ensures exists v, b :: v in cfg.services && b in cfg.services && MayLoseTo(cfg, v, b)
  {
    hide Scheduler.DecidePlan, Scheduler.DemandOf, Greedy.Contested, Greedy.Beneficiary, DistinctServices,
         SlotSafety.SeesConfig, PlainTerms.Defended, MayLoseTo;
    Greedy.ActionsAreActionable(cfg, obs);
    var benefit := Greedy.Beneficiary(cfg, obs);
    var s :| s in obs.services && Greedy.Actionable(s, benefit) && a == Greedy.ActionOn(s);
    ServedIsDefended(cfg, obs);
    SeenNamesDiffer(cfg, obs.services);
    ActedOnMayLose(cfg, obs, s, benefit);
  }

  lemma {:induction false} ActedOnMayLose(cfg: Config, obs: Observation, s: ServiceState, benefit: ServiceState)
    requires SlotSafety.SeesConfig(cfg, obs.services) && DistinctNames(obs.services)
    requires s in obs.services && benefit in obs.services && Greedy.Actionable(s, benefit)
    requires PlainTerms.Defended(cfg, obs, benefit.name)
    ensures exists v, b :: v in cfg.services && b in cfg.services && MayLoseTo(cfg, v, b)
  {
    hide PlainTerms.Defended, DistinctNames;
    var i :| 0 <= i < |obs.services| && obs.services[i] == s;
    var j :| 0 <= j < |obs.services| && obs.services[j] == benefit;
    var v, b := cfg.services[i], cfg.services[j];
    if cfg.policy.defaultWorkload != "" && v.name == cfg.policy.defaultWorkload {
      DefaultIsServed(cfg, obs, s, benefit.name);
    }
    DefendedIsUp(cfg, obs, benefit);
    assert SlotSafety.SeesAdapter(v.adapter, s) && SlotSafety.SeesAdapter(b.adapter, benefit);
    assert MayLoseTo(cfg, v, b);
  }

  lemma {:induction false} DefendedIsUp(cfg: Config, obs: Observation, s: ServiceState)
    requires DistinctNames(obs.services) && s in obs.services && PlainTerms.Defended(cfg, obs, s.name)
    ensures Scheduler.Alive(s)
  {
    var i :| 0 <= i < |obs.services| && obs.services[i] == s;
    var wl := FindService(obs.services, cfg.policy.defaultWorkload);
    if cfg.policy.defaultWorkload != "" && wl.Some? && Scheduler.Alive(wl.value) {
      var j :| 0 <= j < |obs.services| && obs.services[j] == wl.value;
    } else {
      var t :| t in obs.services && t.name == s.name && Scheduler.Alive(t);
      var j :| 0 <= j < |obs.services| && obs.services[j] == t;
    }
  }

  lemma {:induction false} SeenNamesDiffer(cfg: Config, services: seq<ServiceState>)
    requires DistinctServices(cfg.services) && SlotSafety.SeesConfig(cfg, services)
    ensures DistinctNames(services)
  {
  }

  /** With no claims, whoever is served is the one reactive policy defends. */
  lemma {:induction false} ServedIsDefended(cfg: Config, obs: Observation)
    requires obs.claims == [] && Greedy.Contested(cfg, obs)
    ensures PlainTerms.Defended(cfg, obs, Greedy.Beneficiary(cfg, obs).name)
    ensures cfg.policy.reactive && cfg.policy.vramFloorMiB > 0 && Greedy.Beneficiary(cfg, obs) in obs.services
  {
    hide PlainTerms.Defended;
    PlainTerms.DemandMeans(cfg, obs, obs.device.value.FreeMiB());
    hide Scheduler.DemandOf;
  }

  /** The default workload, when it is up, is the one defended. */
  lemma {:induction false} DefaultIsServed(cfg: Config, obs: Observation, s: ServiceState, name: string)
    requires DistinctNames(obs.services) && s in obs.services && Scheduler.Alive(s)
    requires cfg.policy.defaultWorkload != "" && s.name == cfg.policy.defaultWorkload
    requires PlainTerms.Defended(cfg, obs, name)
    ensures name == s.name
  {
    var found := FindService(obs.services, s.name);
    var i :| 0 <= i < |obs.services| && obs.services[i] == s;
    var j :| 0 <= j < |obs.services| && obs.services[j] == found.value;
  }

  lemma {:induction false} BreakingNeedsExposure(su: Setup, commands: seq<Command>, run: seq<World>)
    requires Breaks(su, commands, run) && DistinctServices(su.cfg.services)
    ensures Exposed(su)
  {
    var w := run[|commands|];
    var j: nat, k: nat :| TwoInOneCooldown(su, w, j, k);
    LoopRunHolds(su, commands, run, |commands|);
    hide IsRun, Runs.Inv, Scheduler.DecidePlan;
    var obs := ActionCameFrom(su, w, j);
    hide LoopInv, TwoInOneCooldown, SlotSafety.SeesConfig;
    ActingNeedsExposure(su.cfg, obs, w.workers[j].action);
  }

  /** The observation an action was decided on. */
  lemma {:induction false} ActionCameFrom(su: Setup, w: World, k: nat) returns (obs: Observation)
    requires Runs.Inv(su, w) && LoopInv(su, w) && k < |w.workers|
    ensures obs.claims == [] && SlotSafety.SeesConfig(su.cfg, obs.services)
    ensures w.workers[k].action in Scheduler.DecidePlan(su.cfg, obs).actions
  {
    assert SlotSafety.WorkerOk(w.planners, w.workers[k]);
    var pl := w.planners[w.workers[k].planner];
    assert SlotSafety.PlannerOk(su, pl) && IsRound(pl) && RoundSees(su, pl);
    hide Runs.Inv, LoopInv, Scheduler.DecidePlan, SlotSafety.SeesConfig;
    obs := pl.obs;
  }

  // -------------------------------------------------- a run on any exposed config

  /** A daemon, what its probes and its card always say, and the one action every
      round that looks at it decides on. */
  datatype Case = Case(su: Setup, device: Device, probes: seq<Observe.Probe>, action: Action)

  ghost predicate Fits(cs: Case) {
    && Observe.Answers(cs.su.cfg.services, cs.probes)
    && Scheduler.DecidePlan(cs.su.cfg, Sight(cs)).actions == [cs.action]
    && GateOf(cs.su, cs.action) == Call
  }

  function Sight(cs: Case): Observation
    requires |cs.probes| == |cs.su.cfg.services|
  {
    Observation(Some(cs.device), Observe.States(cs.su.cfg.services, cs.probes), [])
  }

  /** One step of the loop's own takes w to next. */
  ghost predicate Goes(su: Setup, w: World, c: Command, next: World) {
    Enabled(su, w, c) && (c.Begin? ==> c.kind.Tick?) && next == Apply(su, w, c)
  }

  lemma {:induction false} Follow(su: Setup, commands: seq<Command>, run: seq<World>, c: Command, next: World)
    returns (commands': seq<Command>, run': seq<World>)
    requires IsRun(su, commands, run) && LoopOnly(commands) && Goes(su, run[|commands|], c, next)
    ensures IsRun(su, commands', run') && LoopOnly(commands') && run'[|commands'|] == next
  {
    commands', run' := commands + [c], run + [next];
  }

  lemma {:induction false} NothingToMark(services: seq<ServiceState>, now: Instant)
    ensures SnapshotOf(map[]) == [] && Sweep(map[], now) == map[]
    ensures MarkInflight({}, services) == services
    ensures MarkCooling(map[], services) == services
  {
    NoClaims();
  }

  // -------------------------------------------------------- a round, step by step

  /** w with one more planner, so many steps later. */
  function WithRound(w: World, steps: nat, pl: Planner): World {
    w.(step := w.step + steps, planners := w.planners + [pl])
  }

  /** A round at each of its stages. */
  function Sighted(cs: Case, pc: PlannerPc): Planner
    requires |cs.probes| == |cs.su.cfg.services|
  {
    NewPlanner(Tick).(pc := pc, obs := Sight(cs))
  }

  function Marked(cs: Case, w: World): Planner
    requires |cs.probes| == |cs.su.cfg.services|
  {
    Sighted(cs, InflightRead).(snapAt := w.step + 3, seen := |w.workers|)
  }

  function Looked(cs: Case, w: World): Planner
    requires |cs.probes| == |cs.su.cfg.services|
  {
    Marked(cs, w).(pc := Swept, now := w.clock, sweptAt := w.step + 5, sweepClock := w.clock)
  }

  function Decided(cs: Case, w: World): Planner
    requires |cs.probes| == |cs.su.cfg.services|
  {
    Looked(cs, w).(pc := Planned, plan := Scheduler.DecidePlan(cs.su.cfg, Sight(cs)), results := [None])
  }

  lemma {:induction false} StepBegin(su: Setup, w: World)
    requires forall p :: 0 <= p < |w.planners| ==> w.planners[p].pc.Finished?
    ensures Goes(su, w, Begin(Tick), WithRound(w, 1, NewPlanner(Tick)))
  {
    hide StepPlanner, StepWorker;
  }

  lemma {:induction false} StepProbe(cs: Case, w: World)
    requires Observe.Answers(cs.su.cfg.services, cs.probes)
    ensures Goes(cs.su, WithRound(w, 1, NewPlanner(Tick)), Probe(|w.planners|, Some(cs.device), cs.probes),
                 WithRound(w, 2, Sighted(cs, Probed)))
  {
    hide StepWorker, Observe.States;
  }

  lemma {:induction false} StepClaims(cs: Case, w: World)
    requires |cs.probes| == |cs.su.cfg.services| && w.tables == EMPTY
    ensures Goes(cs.su, WithRound(w, 2, Sighted(cs, Probed)), ReadClaims(|w.planners|),
                 WithRound(w, 3, Sighted(cs, ClaimsRead)))
  {
    NoClaims();
    hide StepWorker, Observe.States, SnapshotOf, AsksOnly;
    assert SnapshotOf(map[]) + [] == [];
  }

  lemma {:induction false} StepInflight(cs: Case, w: World)
    requires |cs.probes| == |cs.su.cfg.services| && w.tables == EMPTY
    ensures Goes(cs.su, WithRound(w, 3, Sighted(cs, ClaimsRead)), ReadInflight(|w.planners|),
                 WithRound(w, 4, Marked(cs, w)))
  {
    NothingToMark(Sight(cs).services, 0);
    hide StepWorker, Observe.States, MarkInflight;
  }

  lemma {:induction false} StepClock(cs: Case, w: World)
    requires |cs.probes| == |cs.su.cfg.services|
    ensures Goes(cs.su, WithRound(w, 4, Marked(cs, w)), ReadClock(|w.planners|),
                 WithRound(w, 5, Marked(cs, w).(pc := ClockRead, now := w.clock)))
  {
    hide StepWorker, Observe.States;
  }

  lemma {:induction false} StepSweep(cs: Case, w: World)
    requires |cs.probes| == |cs.su.cfg.services| && w.tables == EMPTY
    ensures Goes(cs.su, WithRound(w, 5, Marked(cs, w).(pc := ClockRead, now := w.clock)),
                 SweepCooldowns(|w.planners|), WithRound(w, 6, Looked(cs, w)))
  {
    NothingToMark(Sight(cs).services, w.clock);
    hide StepWorker, Observe.States, MarkCooling, Sweep;
  }

  lemma {:induction false} StepDecide(cs: Case, w: World)
    requires Fits(cs)
    ensures Goes(cs.su, WithRound(w, 6, Looked(cs, w)), MakePlan(|w.planners|), WithRound(w, 7, Decided(cs, w)))
  {
    hide StepWorker, Observe.States, Scheduler.DecidePlan, GateOf;
    var results: seq<Option<ActionResult>> := seq(1, _ => None);
    assert results == [None];
  }

  /** w once a round that saw it has spawned its action. */
  ghost function AfterSpawn(cs: Case, w: World): World
    requires |cs.probes| == |cs.su.cfg.services|
  {
    WithRound(w, 8, Decided(cs, w).(spawned := 1)).(workers := w.workers + [NewWorker(|w.planners|, 0, cs.action)])
  }

  lemma {:induction false} StepSpawn(cs: Case, w: World)
    requires Fits(cs)
    ensures Goes(cs.su, WithRound(w, 7, Decided(cs, w)), Spawn(|w.planners|), AfterSpawn(cs, w))
  {
    hide StepWorker, Observe.States, Scheduler.DecidePlan, GateOf;
  }

  lemma {:induction false} StepFinish(cs: Case, w: World)
    requires Fits(cs)
    ensures Goes(cs.su, AfterSpawn(cs, w), Finish(|w.planners|),
      AfterSpawn(cs, w).(step := w.step + 9, planners := w.planners + [Decided(cs, w).(spawned := 1, pc := Finished)]))
  {
    hide StepWorker, Observe.States, Scheduler.DecidePlan, GateOf;
  }

  /** Nothing has happened yet but so many finished rounds, one action each. */
  ghost predicate Quiescent(cs: Case, w: World, n: nat) {
    && w.tables == EMPTY && |w.planners| == n && |w.workers| == n
    && (forall p :: 0 <= p < n ==> w.planners[p].pc.Finished?)
    && (forall k :: 0 <= k < n ==> w.workers[k] == NewWorker(k, 0, cs.action))
  }

  lemma {:induction false} LookAround(cs: Case, commands: seq<Command>, run: seq<World>)
    returns (commands': seq<Command>, run': seq<World>)
    requires IsRun(cs.su, commands, run) && LoopOnly(commands) && Observe.Answers(cs.su.cfg.services, cs.probes)
    requires run[|commands|].tables == EMPTY
    requires forall p :: 0 <= p < |run[|commands|].planners| ==> run[|commands|].planners[p].pc.Finished?
    ensures IsRun(cs.su, commands', run') && LoopOnly(commands')
    ensures run'[|commands'|] == WithRound(run[|commands|], 6, Looked(cs, run[|commands|]))
  {
    var w, p := run[|commands|], |run[|commands|].planners|;
    hide IsRun, LoopOnly, Goes, Sight, WithRound, Sighted, Marked, Looked;
    StepBegin(cs.su, w);
    commands', run' := Follow(cs.su, commands, run, Begin(Tick), WithRound(w, 1, NewPlanner(Tick)));
    StepProbe(cs, w);
    var seen := WithRound(w, 2, Sighted(cs, Probed));
    commands', run' := Follow(cs.su, commands', run', Probe(p, Some(cs.device), cs.probes), seen);
    StepClaims(cs, w);
    commands', run' := Follow(cs.su, commands', run', ReadClaims(p), WithRound(w, 3, Sighted(cs, ClaimsRead)));
    StepInflight(cs, w);
    commands', run' := Follow(cs.su, commands', run', ReadInflight(p), WithRound(w, 4, Marked(cs, w)));
    StepClock(cs, w);
    var timed := WithRound(w, 5, Marked(cs, w).(pc := ClockRead, now := w.clock));
    commands', run' := Follow(cs.su, commands', run', ReadClock(p), timed);
    StepSweep(cs, w);
    commands', run' := Follow(cs.su, commands', run', SweepCooldowns(p), WithRound(w, 6, Looked(cs, w)));
  }

  /** w once a round that saw it is over. */
  ghost function AfterRound(cs: Case, w: World): World
    requires |cs.probes| == |cs.su.cfg.services|
  {
    var done := Decided(cs, w).(spawned := 1, pc := Finished);
    AfterSpawn(cs, w).(step := w.step + 9, planners := w.planners + [done])
  }

  lemma {:induction false} SpawnAndFinish(cs: Case, commands: seq<Command>, run: seq<World>, w: World)
    returns (commands': seq<Command>, run': seq<World>)
    requires IsRun(cs.su, commands, run) && LoopOnly(commands) && Fits(cs)
    requires run[|commands|] == WithRound(w, 6, Looked(cs, w))
    ensures IsRun(cs.su, commands', run') && LoopOnly(commands') && run'[|commands'|] == AfterRound(cs, w)
  {
    var p := |w.planners|;
    StepDecide(cs, w);
    StepSpawn(cs, w);
    StepFinish(cs, w);
    assert AfterRound(cs, w) == AfterSpawn(cs, w).(step := w.step + 9,
             planners := w.planners + [Decided(cs, w).(spawned := 1, pc := Finished)]);
    hide IsRun, LoopOnly, Goes, WithRound, Looked, Decided, AfterSpawn, AfterRound;
    commands', run' := Follow(cs.su, commands, run, MakePlan(p), WithRound(w, 7, Decided(cs, w)));
    commands', run' := Follow(cs.su, commands', run', Spawn(p), AfterSpawn(cs, w));
    commands', run' := Follow(cs.su, commands', run', Finish(p), AfterRound(cs, w));
  }

  /** One more round of the loop looks, spawns its action and is done. */
  lemma {:induction false} OneMoreRound(cs: Case, commands: seq<Command>, run: seq<World>, n: nat)
    returns (commands': seq<Command>, run': seq<World>)
    requires IsRun(cs.su, commands, run) && LoopOnly(commands) && Fits(cs) && Quiescent(cs, run[|commands|], n)
    ensures IsRun(cs.su, commands', run') && LoopOnly(commands')
    ensures var w, w' := run[|commands|], run'[|commands'|];
      && Quiescent(cs, w', n + 1) && w'.clock == w.clock
      && w'.planners[..n] == w.planners && w'.planners[n].now == w.clock
  {
    var w := run[|commands|];
    hide IsRun, LoopOnly, Scheduler.DecidePlan, GateOf, Sight, AfterRound;
    commands', run' := LookAround(cs, commands, run);
    commands', run' := SpawnAndFinish(cs, commands', run', w);
    AfterRoundIsQuiescent(cs, w, n);
  }

  lemma {:induction false} AfterRoundIsQuiescent(cs: Case, w: World, n: nat)
    requires |cs.probes| == |cs.su.cfg.services| && Quiescent(cs, w, n)
    ensures var w' := AfterRound(cs, w);
      && Quiescent(cs, w', n + 1) && w'.clock == w.clock
      && w'.planners[..n] == w.planners && w'.planners[n].now == w.clock
  {
    hide Scheduler.DecidePlan, Sight;
  }

  /** Time passes, and nothing else happens. */
  lemma {:induction false} Wait(su: Setup, commands: seq<Command>, run: seq<World>, dt: nat)
    returns (commands': seq<Command>, run': seq<World>)
    requires IsRun(su, commands, run) && LoopOnly(commands)
    ensures IsRun(su, commands', run') && LoopOnly(commands')
    ensures var w := run[|commands|]; run'[|commands'|] == w.(step := w.step + 1, clock := w.clock + dt)
  {
    var w := run[|commands|];
    hide IsRun, LoopOnly, StepPlanner, StepWorker;
    commands', run' := Follow(su, commands, run, Advance(dt), w.(step := w.step + 1, clock := w.clock + dt));
  }

  // --------------------------------------------- an action that fails, step by step

  /** Worker k as wk, so many steps later, with these tables, nothing else moved. */
  function WithWorker(w: World, steps: nat, k: nat, wk: Worker, tables: State): World
    requires k < |w.workers|
  {
    w.(step := w.step + steps, workers := w.workers[k := wk], tables := tables)
  }

  ghost predicate ReadyToFail(cs: Case, w: World, k: nat) {
    k < |w.workers| && w.tables.inflight == {} && w.workers[k] == NewWorker(k, 0, cs.action)
  }

  /** Worker k at each of its stages: it has its slot, has read the card full, has
      made its call in vain, has measured, has recorded. */
  function Slotted(cs: Case, w: World, k: nat): Worker {
    NewWorker(k, 0, cs.action).(pc := Opening, acqAt := w.step)
  }

  function Calls(cs: Case, w: World, k: nat): Worker {
    Slotted(cs, w, k).(pc := Calling, result := Slotted(cs, w, k).result.(freeBeforeMiB := Some(0)))
  }

  function Failed(cs: Case, w: World, k: nat, pc: WorkerPc, after: Option<u64>): Worker {
    Calls(cs, w, k).(pc := pc, result := Calls(cs, w, k).result.(failed := true, freeAfterMiB := after))
  }

  function Recorded(cs: Case, w: World, k: nat): Worker {
    Failed(cs, w, k, Closing, Some(0)).(recAt := w.step + 4, recClock := w.clock, effect := Useless)
  }

  function Held(cs: Case, w: World): State {
    Take(w.tables, cs.action.service)
  }

  function Cooled(cs: Case, w: World): State {
    var t := Held(cs, w);
    t.(cooldowns := t.cooldowns[cs.action.service := w.clock + cs.su.cfg.policy.actionCooldown])
  }

  lemma {:induction false} StepAcquire(cs: Case, w: World, k: nat)
    requires ReadyToFail(cs, w, k)
    ensures Goes(cs.su, w, Acquire(k), WithWorker(w, 1, k, Slotted(cs, w, k), Held(cs, w)))
  {
    hide StepPlanner;
  }

  lemma {:induction false} StepOpen(cs: Case, w: World, k: nat)
    requires k < |w.workers| && GateOf(cs.su, cs.action) == Call
    ensures Goes(cs.su, WithWorker(w, 1, k, Slotted(cs, w, k), Held(cs, w)), Open(k, Some(0)),
                 WithWorker(w, 2, k, Calls(cs, w, k), Held(cs, w)))
  {
    hide StepPlanner, GateOf, Take;
  }

  lemma {:induction false} StepReturn(cs: Case, w: World, k: nat)
    requires k < |w.workers|
    ensures Goes(cs.su, WithWorker(w, 2, k, Calls(cs, w, k), Held(cs, w)), Return(k, false, true),
                 WithWorker(w, 3, k, Failed(cs, w, k, Returned, None), Held(cs, w)))
  {
    hide StepPlanner, Take;
  }

  lemma {:induction false} StepMeasure(cs: Case, w: World, k: nat)
    requires k < |w.workers|
    ensures Goes(cs.su, WithWorker(w, 3, k, Failed(cs, w, k, Returned, None), Held(cs, w)), Measure(k, Some(0)),
                 WithWorker(w, 4, k, Failed(cs, w, k, Measured, Some(0)), Held(cs, w)))
  {
    hide StepPlanner, Take;
  }

  lemma {:induction false} StepRecord(cs: Case, w: World, k: nat)
    requires k < |w.workers|
    ensures Goes(cs.su, WithWorker(w, 4, k, Failed(cs, w, k, Measured, Some(0)), Held(cs, w)), RecordEffect(k),
                 WithWorker(w, 5, k, Recorded(cs, w, k), Cooled(cs, w)))
  {
    hide StepPlanner, Take, Judge;
  }

  lemma {:induction false} StepGiveBack(cs: Case, w: World, k: nat)
    requires ReadyToFail(cs, w, k)
    ensures var done := Recorded(cs, w, k).(pc := Released, relAt := w.step + 5);
      && Goes(cs.su, WithWorker(w, 5, k, Recorded(cs, w, k), Cooled(cs, w)), ReleaseSlot(k),
              WithWorker(w, 6, k, done, GiveBack(Cooled(cs, w), cs.action.service)))
      && GiveBack(Cooled(cs, w), cs.action.service).inflight == {}
  {
    hide StepPlanner;
  }

  /** Worker k runs its action from end to end, and it fails. */
  lemma {:induction false} WorkInVain(cs: Case, commands: seq<Command>, run: seq<World>, k: nat)
    returns (commands': seq<Command>, run': seq<World>)
    requires IsRun(cs.su, commands, run) && LoopOnly(commands) && Fits(cs) && ReadyToFail(cs, run[|commands|], k)
    ensures IsRun(cs.su, commands', run') && LoopOnly(commands')
    ensures var w, w' := run[|commands|], run'[|commands'|];
      && |w'.workers| == |w.workers| && w'.planners == w.planners && w'.clock == w.clock && w'.tables.inflight == {}
      && w'.workers[k].effect == Useless && w'.workers[k].recClock == w.clock && w'.workers[k].action == cs.action
      && forall j :: 0 <= j < |w.workers| && j != k ==> w'.workers[j] == w.workers[j]
  {
    var w, held := run[|commands|], Held(cs, run[|commands|]);
    hide IsRun, LoopOnly, Goes, Scheduler.DecidePlan, GateOf, Take, GiveBack, Held, Cooled;
    StepAcquire(cs, w, k);
    commands', run' := Follow(cs.su, commands, run, Acquire(k), WithWorker(w, 1, k, Slotted(cs, w, k), held));
    StepOpen(cs, w, k);
    commands', run' := Follow(cs.su, commands', run', Open(k, Some(0)), WithWorker(w, 2, k, Calls(cs, w, k), held));
    StepReturn(cs, w, k);
    var returned := WithWorker(w, 3, k, Failed(cs, w, k, Returned, None), held);
    commands', run' := Follow(cs.su, commands', run', Return(k, false, true), returned);
    StepMeasure(cs, w, k);
    var measured := WithWorker(w, 4, k, Failed(cs, w, k, Measured, Some(0)), held);
    commands', run' := Follow(cs.su, commands', run', Measure(k, Some(0)), measured);
    StepRecord(cs, w, k);
    var recorded := WithWorker(w, 5, k, Recorded(cs, w, k), Cooled(cs, w));
    commands', run' := Follow(cs.su, commands', run', RecordEffect(k), recorded);
    StepGiveBack(cs, w, k);
    var done := Recorded(cs, w, k).(pc := Released, relAt := w.step + 5);
    var over := WithWorker(w, 6, k, done, GiveBack(Cooled(cs, w), cs.action.service));
    commands', run' := Follow(cs.su, commands', run', ReleaseSlot(k), over);
  }

  /** Two rounds a poll interval apart, neither action at acquire when the other
      round looks. */
  lemma {:induction false} TwoRounds(cs: Case) returns (commands: seq<Command>, run: seq<World>)
    requires Fits(cs) && cs.su.cfg.policy.pollInterval >= 0
    ensures IsRun(cs.su, commands, run) && LoopOnly(commands) && Quiescent(cs, run[|commands|], 2)
    ensures var w := run[|commands|]; w.planners[1].now == w.planners[0].now + cs.su.cfg.policy.pollInterval
  {
    commands, run := [], [Init(0)];
    assert IsRun(cs.su, commands, run) && LoopOnly(commands) && Quiescent(cs, run[0], 0);
    hide IsRun, LoopOnly, Fits;
    commands, run := OneMoreRound(cs, commands, run, 0);
    ghost var first := run[|commands|].planners;
    commands, run := Wait(cs.su, commands, run, cs.su.cfg.policy.pollInterval);
    commands, run := OneMoreRound(cs, commands, run, 1);
    assert run[|commands|].planners[0] == run[|commands|].planners[..1][0] == first[0];
  }

  /** After two such rounds both actions run and fail, the second so much later. */
  lemma {:induction false} TwoFailures(cs: Case, gap: nat) returns (commands: seq<Command>, run: seq<World>)
    requires Fits(cs) && cs.su.cfg.policy.pollInterval >= 0 && gap < cs.su.cfg.policy.actionCooldown
    ensures Breaks(cs.su, commands, run) && Paced(cs.su, run[|commands|])
    ensures var w := run[|commands|];
      && |w.planners| == 2 && w.planners[1].now == w.planners[0].now + cs.su.cfg.policy.pollInterval
      && |w.workers| == 2 && w.workers[0].action == w.workers[1].action == cs.action
      && w.workers[1].recClock == w.workers[0].recClock + gap
  {
    hide LoopOnly, Fits, Paced, Apply, Enabled;
    commands, run := TwoRounds(cs);
    ghost var planners := run[|commands|].planners;
    commands, run := WorkInVain(cs, commands, run, 0);
    commands, run := Wait(cs.su, commands, run, gap);
    commands, run := WorkInVain(cs, commands, run, 1);
    assert TwoInOneCooldown(cs.su, run[|commands|], 0, 1);
    assert run[|commands|].planners == planners;
    TwoArePaced(cs.su, run[|commands|]);
  }

  lemma {:induction false} TwoArePaced(su: Setup, w: World)
    requires |w.planners| == 2 && w.planners[1].now == w.planners[0].now + su.cfg.policy.pollInterval
    ensures Paced(su, w)
  {
  }

  // --------------------------------------------- the case an exposed config makes

  /** Only the two services of an exposed pair are up, v holding memory, on a card
      that is full. */
  function ProbesFor(cfg: Config, v: nat, b: nat): (r: seq<Observe.Probe>)
    ensures |r| == |cfg.services|
    ensures forall i :: 0 <= i < |r| ==> r[i] == ProbeFor(cfg.services[i].adapter, i, v, b)
  {
    seq(|cfg.services|, i requires 0 <= i < |cfg.services| => ProbeFor(cfg.services[i].adapter, i, v, b))
  }

  function ProbeFor(kind: AdapterKind, i: int, v: nat, b: nat): Observe.Probe {
    if i == v then Observe.AtRest(kind, 100) else if i == b then Observe.AtRest(kind, 0) else Observe.Unreachable
  }

  function CaseFor(su: Setup, v: nat, b: nat): Case
    requires v < |su.cfg.services|
  {
    var s := su.cfg.services[v];
    Case(su, Device(16384, 16384), ProbesFor(su.cfg, v, b), Action(s.name, Release, 100))
  }

  /** Such a pair in such a config. */
  predicate ExposedPair(su: Setup, v: nat, b: nat) {
    && !su.dryRun && su.cfg.policy.reactive && su.cfg.policy.vramFloorMiB > 0
    && v < |su.cfg.services| && b < |su.cfg.services| && MayLoseTo(su.cfg, su.cfg.services[v], su.cfg.services[b])
  }

  lemma {:induction false} WhoIsUp(su: Setup, v: nat, b: nat)
    requires ExposedPair(su, v, b) && DistinctServices(su.cfg.services)
    ensures var services := Sight(CaseFor(su, v, b)).services;
      && |services| == |su.cfg.services| && DistinctNames(services)
      && (forall i :: 0 <= i < |services| ==> services[i].name == su.cfg.services[i].name)
      && (forall i :: 0 <= i < |services| ==> (Scheduler.Alive(services[i]) <==> i == v || i == b))
      && services[v].priority < services[b].priority
      && services[v].heldMiB == 100 && services[b].heldMiB == 0
      && Scheduler.ChooseVerb(services[v]) == Ok(Release)
      && (forall i :: 0 <= i < |services| ==> services[i].cooldownUntil.None? && !services[i].actionInFlight)
    ensures Observe.Answers(su.cfg.services, CaseFor(su, v, b).probes)
  {
  }

  /** b is served, whether as the default workload or as the highest one up. */
  lemma {:induction false} TheHigherIsServed(su: Setup, v: nat, b: nat)
    requires ExposedPair(su, v, b) && DistinctServices(su.cfg.services)
    ensures var obs := Sight(CaseFor(su, v, b));
      b < |obs.services| && Greedy.Contested(su.cfg, obs) && Greedy.Beneficiary(su.cfg, obs) == obs.services[b]
  {
    var obs := Sight(CaseFor(su, v, b));
    var services, free := obs.services, obs.device.value.FreeMiB();
    WhoIsUp(su, v, b);
    assert Scheduler.BestClaim(su.cfg, []) == None by {
      assert Sorting.Sort(Scheduler.ScoredLess, Scheduler.Live(su.cfg, [])) == [];
    }
    assert services[b] in services && Scheduler.Alive(services[b]);
    PlainTerms.DemandMeans(su.cfg, obs, free);
    var d := Scheduler.DemandOf(su.cfg, obs, free);
    assert d.trigger == Reactive && PlainTerms.Defended(su.cfg, obs, d.beneficiary);
    hide Scheduler.DemandOf, Scheduler.BestClaim, Sight, CaseFor, Scheduler.Alive;
    DefendedIsHigher(su, services, obs, v, b, d.beneficiary);
    Greedy.FoundByName(services, b);
  }

  lemma {:induction false} DefendedIsHigher(
    su: Setup, services: seq<ServiceState>, obs: Observation, v: nat, b: nat, name: string)
    requires ExposedPair(su, v, b) && obs.services == services && DistinctNames(services)
    requires |services| == |su.cfg.services|
    requires forall i :: 0 <= i < |services| ==> services[i].name == su.cfg.services[i].name
    requires forall i :: 0 <= i < |services| ==> (Scheduler.Alive(services[i]) <==> i == v || i == b)
    requires services[v].priority < services[b].priority && PlainTerms.Defended(su.cfg, obs, name)
    ensures name == services[b].name
  {
    hide Scheduler.Alive;
    var wl := FindService(services, su.cfg.policy.defaultWorkload);
    if su.cfg.policy.defaultWorkload != "" && wl.Some? && Scheduler.Alive(wl.value) {
      var i :| 0 <= i < |services| && services[i] == wl.value;
      assert i == b;
    } else {
      var s :| s in services && s.name == name && Scheduler.Alive(s) && PlainTerms.TopOf(services, s);
      var i :| 0 <= i < |services| && services[i] == s;
      assert services[b] in services && Scheduler.Alive(services[b]);
    }
  }

  /** v is all there is to free. */
  lemma {:induction false} OnlyOneCandidate(su: Setup, v: nat, b: nat)
    requires ExposedPair(su, v, b) && DistinctServices(su.cfg.services)
    ensures var services := Sight(CaseFor(su, v, b)).services;
      |services| == |su.cfg.services| && Scheduler.Candidates(services, services[b]) == [services[v]]
  {
    var services := Sight(CaseFor(su, v, b)).services;
    WhoIsUp(su, v, b);
    assert Scheduler.Evictable(services[v], services[b]);
    hide Sight, CaseFor, Scheduler.ChooseVerb, Scheduler.Candidates, Scheduler.Alive, Scheduler.Evictable,
         DistinctNames;
    Greedy.OneToFree(services, v, b);
  }

  /** On an exposed config there is a case: every round decides to free v. */
  lemma {:induction false} ExposedPairFits(su: Setup, v: nat, b: nat)
    requires ExposedPair(su, v, b) && DistinctServices(su.cfg.services)
    ensures Fits(CaseFor(su, v, b))
  {
    var cs := CaseFor(su, v, b);
    var obs := Sight(cs);
    WhoIsUp(su, v, b);
    TheHigherIsServed(su, v, b);
    OnlyOneCandidate(su, v, b);
    LookUpAt(su.cfg, v);
    assert GateOf(su, cs.action) == Call;
    var need := Greedy.Needed(su.cfg, obs);
    assert need > 0;
    hide Sight, Scheduler.DecidePlan, Greedy.Contested, Greedy.Beneficiary, Greedy.Needed, Scheduler.Candidates,
         Scheduler.ChooseVerb;
    Greedy.ContestedPlan(su.cfg, obs);
    Greedy.TakesTheOne(obs.services[v], need, cs.action);
  }

  // ------------------------------------------------------------- the theorem

  /** The loop on its own can break the retry bound exactly on the configurations
      in which it can do anything at all: reactive mode on, a floor to defend, no
      dry run, and a service it may act on below another. Keeping its rounds a poll
      interval apart does not help. */
  lemma {:induction false} BreaksIffExposed(su: Setup)
    requires DistinctServices(su.cfg.services)
    requires su.cfg.policy.pollInterval >= 0 && su.cfg.policy.actionCooldown > 0
    ensures (exists commands, run :: Breaks(su, commands, run)) <==> Exposed(su)
    ensures (exists commands, run :: Breaks(su, commands, run) && Paced(su, run[|commands|])) <==> Exposed(su)
  {
    if Exposed(su) {
      var s, t :| s in su.cfg.services && t in su.cfg.services && MayLoseTo(su.cfg, s, t);
      var v: nat :| v < |su.cfg.services| && su.cfg.services[v] == s;
      var b: nat :| b < |su.cfg.services| && su.cfg.services[b] == t;
      hide Fits, Breaks, IsRun, Paced;
      ExposedPairFits(su, v, b);
      var commands, run := TwoFailures(CaseFor(su, v, b), 0);
      assert Breaks(su, commands, run) && Paced(su, run[|commands|]);
    }
    if commands, run :| Breaks(su, commands, run) {
      hide Breaks, Exposed, Paced;
      BreakingNeedsExposure(su, commands, run);
    }
  }
}
