/** Which services the daemon can ever act on, by what verb and for whose sake:
    what holds of every run, and a run for each case that is left. */
module Targets {
  import opened Machine
  import opened Domain
  import opened Tables
  import opened World
  import Greedy
  import Observe
  import PlainTerms
  import Runs
  import Scheduler
  import SlotSafety

  // --------------------------------------------------------- what every run keeps

  /** Worker k is in its call of the adapter. */
  predicate Calls(w: World, k: nat, verb: Verb, service: string) {
    WorkerAt(w, k, Calling) && w.workers[k].action.service == service && w.workers[k].action.verb == verb
  }

  /** ... for a plan made by priority: a round of the loop, or a request. */
  predicate ByPriority(w: World, k: nat) {
    && k < |w.workers| && w.workers[k].planner < |w.planners|
    && !w.planners[w.workers[k].planner].kind.EvictFor?
  }

  /** Some service is configured above this one. */
  ghost predicate HasSuperior(cfg: Config, v: Service) {
    exists b :: b in cfg.services && v.priority < b.priority
  }

  /** A plan made by priority only ever releases, and only services whose memory
      is measured and that have another above them. A stop takes an eviction. */
  lemma {:induction false} PriorityOnlyReleases(
    su: Setup, commands: seq<Command>, run: seq<World>, n: nat, p: nat, a: Action)
    requires IsRun(su, commands, run) && n < |run| && DistinctServices(su.cfg.services)
    requires p < |run[n].planners| && SlotSafety.Decided(run[n].planners[p].pc)
    requires !run[n].planners[p].kind.EvictFor? && a in run[n].planners[p].plan.actions
    ensures a.verb == Release && LookUp(su.cfg, a.service).Some?
    ensures Observe.Measures(LookUp(su.cfg, a.service).value.adapter)
    ensures HasSuperior(su.cfg, LookUp(su.cfg, a.service).value)
  {
    var pl := run[n].planners[p];
    Runs.RunHolds(su, commands, run, n);
    hide IsRun;
    assert SlotSafety.PlannerOk(su, pl);
    hide Runs.Inv, DistinctServices, SlotSafety.SeesConfig, Scheduler.DecidePlan;
    DecideOnlyReleases(su.cfg, pl.obs, a);
  }

  lemma {:induction false} DecideOnlyReleases(cfg: Config, obs: Observation, a: Action)
    requires SlotSafety.SeesConfig(cfg, obs.services) && DistinctServices(cfg.services)
    requires a in Scheduler.DecidePlan(cfg, obs).actions
    ensures a.verb == Release && LookUp(cfg, a.service).Some?
    ensures Observe.Measures(LookUp(cfg, a.service).value.adapter)
    ensures HasSuperior(cfg, LookUp(cfg, a.service).value)
  {
    hide Scheduler.DecidePlan, Greedy.Contested, Greedy.Beneficiary;
    Greedy.ActionsAreActionable(cfg, obs);
    var benefit := Greedy.Beneficiary(cfg, obs);
    var s :| s in obs.services && Greedy.Actionable(s, benefit) && a == Greedy.ActionOn(s);
    BeneficiaryIsSeen(cfg, obs);
    var i :| 0 <= i < |obs.services| && obs.services[i] == s;
    var j :| 0 <= j < |obs.services| && obs.services[j] == benefit;
    LookUpAt(cfg, i);
    assert cfg.services[j] in cfg.services;
    assert SlotSafety.SeesAdapter(cfg.services[i].adapter, s);
  }

  lemma {:induction false} BeneficiaryIsSeen(cfg: Config, obs: Observation)
    requires Greedy.Contested(cfg, obs)
    ensures Greedy.Beneficiary(cfg, obs) in obs.services
  {
    hide Scheduler.DemandOf;
  }

  /** What a call by any plan shows of the service it is on. */
  lemma {:induction false} CallsArePermitted(
    su: Setup, commands: seq<Command>, run: seq<World>, n: nat, k: nat, verb: Verb, v: Service)
    requires IsRun(su, commands, run) && n < |run| && DistinctServices(su.cfg.services)
    requires v in su.cfg.services && Calls(run[n], k, verb, v.name)
    ensures !su.dryRun && Permits(v, verb)
    ensures ByPriority(run[n], k) ==> Observe.Measures(v.adapter) && HasSuperior(su.cfg, v)
  {
    Runs.RunHolds(su, commands, run, n);
    Runs.CallsAreSafe(su, commands, run, n, k);
    var wk := run[n].workers[k];
    assert SlotSafety.WorkerOk(run[n].planners, wk);
    var pl := run[n].planners[wk.planner];
    assert SlotSafety.PlannerOk(su, pl) && wk.action in pl.plan.actions;
    var i :| 0 <= i < |su.cfg.services| && su.cfg.services[i] == v;
    LookUpAt(su.cfg, i);
    if ByPriority(run[n], k) {
      PriorityOnlyReleases(su, commands, run, n, wk.planner, wk.action);
    }
    hide IsRun, Runs.Inv, PlanFor, SlotSafety.SeesConfig, HasSuperior;
    PlannedIsPermitted(su, pl, wk.action, i);
  }

  /** The adapter can do it, and a stop is allowed. */
  predicate Permits(v: Service, verb: Verb) {
    match verb
    case Release => v.adapter.Ollama? || v.adapter.ComfyUI? || v.adapter.LlamaSwap?
    case Stop => v.adapter.SystemdUnit? && v.allowStop
  }

  lemma {:induction false} PlannedIsPermitted(su: Setup, pl: Planner, a: Action, i: nat)
    requires SlotSafety.SeesConfig(su.cfg, pl.obs.services) && DistinctServices(su.cfg.services)
    requires pl.plan == PlanFor(su, pl.kind, pl.obs) && a in pl.plan.actions
    requires i < |su.cfg.services| && a.service == su.cfg.services[i].name
    ensures Permits(su.cfg.services[i], a.verb)
  {
    SlotSafety.PlanActsOnSeen(su, pl.kind, pl.obs);
    hide PlanFor;
    var s :| s in pl.obs.services && s.name == a.service && Scheduler.ChooseVerb(s) == Ok(a.verb);
    var j :| 0 <= j < |pl.obs.services| && pl.obs.services[j] == s;
    assert SlotSafety.SeesAdapter(su.cfg.services[j].adapter, s);
    assert j == i;
  }

  // ------------------------------------------------------- a run for each case

  /** Only service v answers, up and at rest, and on a full card. */
  function OnlyUp(services: seq<Service>, v: nat): (r: seq<Observe.Probe>)
    ensures |r| == |services|
    ensures forall i :: 0 <= i < |r| ==>
      r[i] == if i == v then Observe.AtRest(services[i].adapter, HeldWhereMeasured(services[i].adapter))
              else Observe.Unreachable
  {
    seq(|services|, i requires 0 <= i < |services| =>
      if i == v then Observe.AtRest(services[i].adapter, HeldWhereMeasured(services[i].adapter))
      else Observe.Unreachable)
  }

  function HeldWhereMeasured(kind: AdapterKind): u64 {
    if Observe.Measures(kind) then 100 else 0
  }

  const FULL := Device(16384, 16384)

  /** What a planner reads of that, with these claims. */
  function Sight(su: Setup, v: nat, claims: seq<Claim>): Observation {
    Observation(Some(FULL), Observe.States(su.cfg.services, OnlyUp(su.cfg.services, v)), claims)
  }

  function ActOn(s: Service, verb: Verb): Action {
    Action(s.name, verb, HeldWhereMeasured(s.adapter))
  }

  ghost predicate Steps(su: Setup, w: World, c: Command, next: World) {
    Enabled(su, w, c) && next == Apply(su, w, c)
  }

  lemma {:induction false} Extend(su: Setup, commands: seq<Command>, run: seq<World>, c: Command, next: World)
    returns (commands': seq<Command>, run': seq<World>)
    requires IsRun(su, commands, run) && Steps(su, run[|commands|], c, next)
    ensures IsRun(su, commands', run') && run'[|commands'|] == next
  {
    commands', run' := commands + [c], run + [next];
  }

  /** A daemon with one planner and nothing in inflight, about to probe. */
  ghost predicate AboutToProbe(su: Setup, w: World) {
    && |w.planners| == 1 && w.workers == [] && w.tables.inflight == {}
    && var pl := w.planners[0];
       && !AsksOnly(su, pl.kind) && !Sweeps(pl.kind) && pl.spawned == 0
       && pl.pc == (if pl.kind.RequestFor? then Claimed else Begun)
  }

  /** w so many steps later, its planner as pl. */
  function Later(w: World, steps: nat, pl: Planner): World {
    w.(step := w.step + steps, planners := [pl])
  }

  function Seen(su: Setup, w: World, v: nat, pc: PlannerPc, claims: seq<Claim>): Planner
    requires |w.planners| == 1
  {
    w.planners[0].(pc := pc, obs := Sight(su, v, claims))
  }

  ghost function Looked(su: Setup, w: World, v: nat): Planner
    requires |w.planners| == 1
  {
    Seen(su, w, v, InflightRead, SnapshotOf(w.tables.claims)).(snapAt := w.step + 2, seen := 0)
  }

  lemma {:induction false} StepProbe(su: Setup, w: World, v: nat)
    requires AboutToProbe(su, w) && v < |su.cfg.services| && !su.cfg.services[v].adapter.UnknownAdapter?
    ensures Steps(su, w, Probe(0, Some(FULL), OnlyUp(su.cfg.services, v)), Later(w, 1, Seen(su, w, v, Probed, [])))
  {
    hide StepWorker, Observe.States;
  }

  lemma {:induction false} StepClaims(su: Setup, w: World, v: nat)
    requires AboutToProbe(su, w)
    ensures Steps(su, Later(w, 1, Seen(su, w, v, Probed, [])), ReadClaims(0),
                  Later(w, 2, Seen(su, w, v, ClaimsRead, SnapshotOf(w.tables.claims))))
  {
    hide StepWorker, Observe.States, SnapshotOf;
    assert SnapshotOf(w.tables.claims) + [] == SnapshotOf(w.tables.claims);
  }

  lemma {:induction false} StepInflight(su: Setup, w: World, v: nat)
    requires AboutToProbe(su, w)
    ensures Steps(su, Later(w, 2, Seen(su, w, v, ClaimsRead, SnapshotOf(w.tables.claims))), ReadInflight(0),
                  Later(w, 3, Looked(su, w, v)))
  {
    var services := Sight(su, v, []).services;
    hide StepWorker, Observe.States, SnapshotOf;
    assert MarkInflight({}, services) == services;
  }

  ghost function Planned(su: Setup, w: World, v: nat): Planner
    requires |w.planners| == 1
  {
    var pl := Looked(su, w, v);
    pl.(pc := PlannerPc.Planned, plan := PlanFor(su, pl.kind, pl.obs), results := [None])
  }

  /** The plan is this one action. */
  ghost predicate PlansTo(su: Setup, w: World, v: nat, a: Action) {
    AboutToProbe(su, w) && PlanFor(su, w.planners[0].kind, Sight(su, v, SnapshotOf(w.tables.claims))).actions == [a]
  }

  lemma {:induction false} StepPlan(su: Setup, w: World, v: nat, a: Action)
    requires PlansTo(su, w, v, a)
    ensures Steps(su, Later(w, 3, Looked(su, w, v)), MakePlan(0), Later(w, 4, Planned(su, w, v)))
  {
    hide StepWorker, PlanFor, SnapshotOf, Sight;
    var results: seq<Option<ActionResult>> := seq(1, _ => None);
    assert results == [None];
  }

  ghost function Spawned(su: Setup, w: World, v: nat, a: Action): World
    requires |w.planners| == 1
  {
    Later(w, 5, Planned(su, w, v).(spawned := 1)).(workers := [NewWorker(0, 0, a)])
  }

  lemma {:induction false} StepSpawn(su: Setup, w: World, v: nat, a: Action)
    requires PlansTo(su, w, v, a)
    ensures Steps(su, Later(w, 4, Planned(su, w, v)), Spawn(0), Spawned(su, w, v, a))
  {
    hide StepWorker, PlanFor, SnapshotOf, Sight;
  }

  lemma {:induction false} StepAcquireAndOpen(su: Setup, w: World, a: Action)
    returns (opening: World, calling: World)
    requires w.workers == [NewWorker(0, 0, a)] && w.tables.inflight == {} && GateOf(su, a) == Call
    ensures Steps(su, w, Acquire(0), opening) && Steps(su, opening, Open(0, Some(0)), calling)
    ensures calling.planners == w.planners && |calling.workers| == 1
    ensures calling.workers[0].planner == 0 && Calls(calling, 0, a.verb, a.service)
  {
    hide StepPlanner, GateOf;
    opening := Apply(su, w, Acquire(0));
    calling := Apply(su, opening, Open(0, Some(0)));
  }

  /** From there the planner makes its plan, and its one action is called. */
  lemma {:induction false} CallIt(su: Setup, commands: seq<Command>, run: seq<World>, v: nat, a: Action)
    returns (commands': seq<Command>, run': seq<World>)
    requires IsRun(su, commands, run) && PlansTo(su, run[|commands|], v, a)
    requires v < |su.cfg.services| && !su.cfg.services[v].adapter.UnknownAdapter? && GateOf(su, a) == Call
    ensures IsRun(su, commands', run') && Calls(run'[|commands'|], 0, a.verb, a.service)
    ensures var w' := run'[|commands'|];
      |w'.planners| == 1 && w'.planners[0].kind == run[|commands|].planners[0].kind && w'.workers[0].planner == 0
  {
    var w := run[|commands|];
    hide IsRun, Steps, Sight, PlanFor, SnapshotOf, GateOf;
    StepProbe(su, w, v);
    var probes := OnlyUp(su.cfg.services, v);
    commands', run' := Extend(su, commands, run, Probe(0, Some(FULL), probes), Later(w, 1, Seen(su, w, v, Probed, [])));
    StepClaims(su, w, v);
    var sighted := Later(w, 2, Seen(su, w, v, ClaimsRead, SnapshotOf(w.tables.claims)));
    commands', run' := Extend(su, commands', run', ReadClaims(0), sighted);
    StepInflight(su, w, v);
    commands', run' := Extend(su, commands', run', ReadInflight(0), Later(w, 3, Looked(su, w, v)));
    StepPlan(su, w, v, a);
    commands', run' := Extend(su, commands', run', MakePlan(0), Later(w, 4, Planned(su, w, v)));
    StepSpawn(su, w, v, a);
    commands', run' := Extend(su, commands', run', Spawn(0), Spawned(su, w, v, a));
    var opening, calling := StepAcquireAndOpen(su, Spawned(su, w, v, a), a);
    commands', run' := Extend(su, commands', run', Acquire(0), opening);
    commands', run' := Extend(su, commands', run', Open(0, Some(0)), calling);
  }

  // ------------------------------------------------------------- who is evicted

  lemma {:induction false} OnlyVAnswers(su: Setup, v: nat, claims: seq<Claim>)
    requires v < |su.cfg.services| && !su.cfg.services[v].adapter.UnknownAdapter? && DistinctServices(su.cfg.services)
    ensures var services := Sight(su, v, claims).services;
      && |services| == |su.cfg.services| && DistinctNames(services)
      && (forall i :: 0 <= i < |services| ==>
            services[i].name == su.cfg.services[i].name && services[i].priority == su.cfg.services[i].priority)
      && (forall i :: 0 <= i < |services| && Scheduler.Alive(services[i]) ==> i == v)
      && services[v].up && !services[v].probeErr && !services[v].actionInFlight && services[v].cooldownUntil.None?
      && services[v].heldMiB == HeldWhereMeasured(su.cfg.services[v].adapter)
      && (forall verb :: Permits(su.cfg.services[v], verb) ==> Scheduler.ChooseVerb(services[v]) == Ok(verb))
  {
  }

  /** A client asks for v to be evicted, and it is. */
  lemma {:induction false} EvictIt(su: Setup, v: nat, verb: Verb) returns (commands: seq<Command>, run: seq<World>)
    requires !su.dryRun && v < |su.cfg.services| && DistinctServices(su.cfg.services)
    requires Permits(su.cfg.services[v], verb)
    ensures IsRun(su, commands, run) && Calls(run[|commands|], 0, verb, su.cfg.services[v].name)
  {
    var s := su.cfg.services[v];
    var kind := EvictFor(s.name, false, false);
    LookUpAt(su.cfg, v);
    commands, run := [Begin(kind)], [Init(0), Apply(su, Init(0), Begin(kind))];
    assert IsRun(su, commands, run) && AboutToProbe(su, run[1]);
    EvictionIsPlanned(su, run[1], v, verb);
    assert GateOf(su, ActOn(s, verb)) == Call;
    hide IsRun, PlansTo, GateOf, Permits;
    commands, run := CallIt(su, commands, run, v, ActOn(s, verb));
  }

  lemma {:induction false} EvictionIsPlanned(su: Setup, w: World, v: nat, verb: Verb)
    requires v < |su.cfg.services| && DistinctServices(su.cfg.services) && AboutToProbe(su, w)
    requires Permits(su.cfg.services[v], verb)
    requires w.planners[0].kind == EvictFor(su.cfg.services[v].name, false, false)
    ensures PlansTo(su, w, v, ActOn(su.cfg.services[v], verb))
  {
    var claims := SnapshotOf(w.tables.claims);
    var services := Sight(su, v, claims).services;
    OnlyVAnswers(su, v, claims);
    Greedy.FoundByName(services, v);
    var name := su.cfg.services[v].name;
    hide Sight, SnapshotOf, Permits, Scheduler.ChooseVerb;
    assert Sight(su, v, claims).device.Some? by { DeviceIsKnown(su, v, claims); }
    assert [name][1..] == [] && Scheduler.EvictActions(services, []) == [];
  }

  lemma {:induction false} DeviceIsKnown(su: Setup, v: nat, claims: seq<Claim>)
    ensures Sight(su, v, claims).device == Some(FULL) && Sight(su, v, claims).claims == claims
  {
  }

  /** Which calls the daemon can come to make, by any plan: those the adapter can
      carry out, a stop only where it is allowed, and none in a dry run. */
  lemma {:induction false} CalledIff(su: Setup, v: Service, verb: Verb)
    requires v in su.cfg.services && DistinctServices(su.cfg.services)
    ensures (exists commands, run, k :: IsRun(su, commands, run) && Calls(run[|commands|], k, verb, v.name))
       <==> !su.dryRun && Permits(v, verb)
  {
    hide Apply, Enabled, Permits;
    if !su.dryRun && Permits(v, verb) {
      var i: nat :| i < |su.cfg.services| && su.cfg.services[i] == v;
      var commands, run := EvictIt(su, i, verb);
      assert Calls(run[|commands|], 0, verb, v.name);
    }
    if commands, run, k :| IsRun(su, commands, run) && Calls(run[|commands|], k, verb, v.name) {
      CallsArePermitted(su, commands, run, |commands|, k, verb, v);
    }
  }

  // ----------------------------------------------------- who is freed by priority

  /** Someone asks for room for b, and v has to let go of it. */
  lemma {:induction false} FreeIt(su: Setup, v: nat, b: nat) returns (commands: seq<Command>, run: seq<World>)
    requires !su.dryRun && v < |su.cfg.services| && b < |su.cfg.services| && DistinctServices(su.cfg.services)
    requires Observe.Measures(su.cfg.services[v].adapter) && su.cfg.services[v].priority < su.cfg.services[b].priority
    ensures IsRun(su, commands, run) && Calls(run[|commands|], 0, Release, su.cfg.services[v].name)
    ensures ByPriority(run[|commands|], 0)
  {
    var s, name := su.cfg.services[v], su.cfg.services[b].name;
    LookUpAt(su.cfg, v);
    LookUpAt(su.cfg, b);
    commands, run := Ask(su, name);
    assert GateOf(su, ActOn(s, Release)) == Call;
    hide IsRun, GateOf, Enabled, Apply;
    RequestIsPlanned(su, run[|commands|], v, b);
    hide PlansTo;
    commands, run := CallIt(su, commands, run, v, ActOn(s, Release));
  }

  /** A request for a MiB has filed its claim. */
  lemma {:induction false} Ask(su: Setup, name: string) returns (commands: seq<Command>, run: seq<World>)
    requires Configured(su.cfg, name) && !su.dryRun
    ensures IsRun(su, commands, run) && AboutToProbe(su, run[|commands|])
    ensures run[|commands|].planners[0].kind == RequestFor(name, 1, false)
    ensures run[|commands|].tables.claims == map[name := Claim(name, 1, 0)]
  {
    var kind := RequestFor(name, 1, false);
    var w := Apply(su, Init(0), Begin(kind));
    commands, run := [Begin(kind), FileClaim(0, 0)], [Init(0), w, Apply(su, w, FileClaim(0, 0))];
  }

  lemma {:induction false} OneClaim(claim: Claim)
    ensures forall c :: c in SnapshotOf(map[claim.service := claim]) <==> c == claim
  {
    var claims := map[claim.service := claim];
    SnapshotUnique(claims, SnapshotOf(claims));
  }

  lemma {:induction false} ClaimIsServed(su: Setup, v: nat, b: nat, claims: seq<Claim>)
    requires v < |su.cfg.services| && b < |su.cfg.services| && DistinctServices(su.cfg.services)
    requires !su.cfg.services[v].adapter.UnknownAdapter?
    requires forall c :: c in claims <==> c == Claim(su.cfg.services[b].name, 1, 0)
    ensures var obs := Sight(su, v, claims);
      && b < |obs.services| && Greedy.Contested(su.cfg, obs)
      && Greedy.Beneficiary(su.cfg, obs) == obs.services[b] && Greedy.Needed(su.cfg, obs) == 1
  {
    var obs := Sight(su, v, claims);
    OnlyVAnswers(su, v, claims);
    LookUpAt(su.cfg, b);
    PlainTerms.DemandMeans(su.cfg, obs, 0);
    PlainTerms.WinnerMeans(su.cfg, claims);
    assert Claim(su.cfg.services[b].name, 1, 0) in claims;
    assert FULL.FreeMiB() == 0;
    Greedy.FoundByName(obs.services, b);
    hide Scheduler.BestClaim, Scheduler.DemandOf, DistinctServices, DistinctNames;
  }

  lemma {:induction false} RequestIsPlanned(su: Setup, w: World, v: nat, b: nat)
    requires v < |su.cfg.services| && b < |su.cfg.services| && DistinctServices(su.cfg.services) && AboutToProbe(su, w)
    requires Observe.Measures(su.cfg.services[v].adapter) && su.cfg.services[v].priority < su.cfg.services[b].priority
    requires w.planners[0].kind == RequestFor(su.cfg.services[b].name, 1, false)
    requires w.tables.claims == map[su.cfg.services[b].name := Claim(su.cfg.services[b].name, 1, 0)]
    ensures PlansTo(su, w, v, ActOn(su.cfg.services[v], Release))
  {
    var claims := SnapshotOf(w.tables.claims);
    var obs := Sight(su, v, claims);
    OneClaim(Claim(su.cfg.services[b].name, 1, 0));
    OnlyVAnswers(su, v, claims);
    ClaimIsServed(su, v, b, claims);
    assert Permits(su.cfg.services[v], Release) && Scheduler.Evictable(obs.services[v], obs.services[b]);
    hide Sight, SnapshotOf, Scheduler.DecidePlan, Greedy.Contested, Greedy.Beneficiary, Greedy.Needed,
         Scheduler.Evictable, Scheduler.Alive, Scheduler.ChooseVerb, Scheduler.Candidates, DistinctServices;
    Greedy.OneToFree(obs.services, v, b);
    Greedy.ContestedPlan(su.cfg, obs);
    Greedy.TakesTheOne(obs.services[v], 1, ActOn(su.cfg.services[v], Release));
  }

  /** Whom the daemon can come to free for the sake of others: whoever holds
      memory that is measured and has another configured above it. */
  lemma {:induction false} FreedByPriorityIff(su: Setup, v: Service)
    requires v in su.cfg.services && DistinctServices(su.cfg.services)
    ensures (exists commands, run, k, verb ::
               IsRun(su, commands, run) && Calls(run[|commands|], k, verb, v.name) && ByPriority(run[|commands|], k))
       <==> !su.dryRun && (v.adapter.Ollama? || v.adapter.ComfyUI?) && HasSuperior(su.cfg, v)
  {
    hide Apply, Enabled, Calls, ByPriority;
    if !su.dryRun && Observe.Measures(v.adapter) && HasSuperior(su.cfg, v) {
      var t :| t in su.cfg.services && v.priority < t.priority;
      var i: nat :| i < |su.cfg.services| && su.cfg.services[i] == v;
      var j: nat :| j < |su.cfg.services| && su.cfg.services[j] == t;
      var commands, run := FreeIt(su, i, j);
      assert Calls(run[|commands|], 0, Release, v.name) && ByPriority(run[|commands|], 0);
    }
    if commands, run, k, verb :|
      IsRun(su, commands, run) && Calls(run[|commands|], k, verb, v.name) && ByPriority(run[|commands|], k)
    {
      CallsArePermitted(su, commands, run, |commands|, k, verb, v);
    }
  }
}
