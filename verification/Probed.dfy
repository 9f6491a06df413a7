/** From probe to plan: whatever is done to a service is warranted by what that
    very planner's probe of it answered, and a plan's figures are the card's. */
module Probed {
  import opened Machine
  import opened Domain
  import opened Tables
  import opened World
  import opened SlotSafety
  import Greedy
  import Observe
  import Ordering
  import PlainTerms
  import PlanMeans
  import Runs
  import Scheduler
  import Sorting

  /** The service answered that it is up and not at work, and the action expects
      what it says it holds and is one its adapter and its configuration permit. */
  predicate Warrants(svc: Service, probe: Observe.Probe, a: Action) {
    && a.service == svc.name
    && probe.Answered? && probe.up && (probe.idleKnown ==> probe.idle)
    && a.expectFreeMiB == probe.heldMiB
    && match a.verb
       case Release => svc.adapter.Ollama? || svc.adapter.ComfyUI? || svc.adapter.LlamaSwap?
       case Stop => svc.adapter.SystemdUnit? && svc.allowStop
  }

  /** The same services seen, but for the marks on them. */
  predicate SameButMarks(a: seq<ServiceState>, b: seq<ServiceState>) {
    && |a| == |b|
    && forall i :: 0 <= i < |a| ==>
         a[i] == b[i].(cooldownUntil := a[i].cooldownUntil, actionInFlight := a[i].actionInFlight)
  }

  // -------------------------------------------------------------- a single plan

  /** Whatever plan is made, an action is on a service seen up, by a verb it
      permits, and expects what it is seen to hold. */
  ghost predicate OnSeen(services: seq<ServiceState>, a: Action) {
    exists s :: s in services && s.name == a.service && Scheduler.Alive(s) && PlainTerms.Permits(s, a.verb)
                && a.expectFreeMiB == s.heldMiB
  }

  lemma {:induction false} DecideActsOn(cfg: Config, obs: Observation, a: Action)
    requires a in Scheduler.DecidePlan(cfg, obs).actions
    ensures OnSeen(obs.services, a)
  {
    hide Scheduler.DecidePlan, Greedy.Beneficiary, Greedy.Contested;
    Greedy.ActionsAreActionable(cfg, obs);
    var s :| s in obs.services && Greedy.Actionable(s, Greedy.Beneficiary(cfg, obs)) && a == Greedy.ActionOn(s);
    PlainTerms.VerbMeans(s, a.verb, Busy);
  }

  lemma {:induction false} EvictActsOn(services: seq<ServiceState>, names: seq<string>, a: Action)
    requires a in Scheduler.EvictActions(services, names)
    ensures OnSeen(services, a)
  {
    PlainTerms.EvictionsMean(services, names);
  }

  lemma {:induction false} PlanActsOn(su: Setup, kind: PlannerKind, obs: Observation, a: Action)
    requires a in PlanFor(su, kind, obs).actions
    ensures OnSeen(obs.services, a)
  {
    hide OnSeen, Scheduler.DecidePlan, Scheduler.EvictActions;
    match kind {
      case EvictFor(service, allExcept, _) =>
        if allExcept {
          EvictActsOn(obs.services, Sorting.Sort(Ordering.Before, Scheduler.Others(obs.services, service)), a);
        } else {
          EvictActsOn(obs.services, [service], a);
        }
      case _ => DecideActsOn(su.cfg, obs, a);
    }
  }

  /** Any plan over what the probes answered, however it is marked, acts only where
      they warrant it: never on a service that did not answer, is down or is busy. */
  lemma {:induction false} PlanIsWarranted(
    su: Setup, kind: PlannerKind, obs: Observation, probes: seq<Observe.Probe>, a: Action) returns (i: nat)
    requires |probes| == |su.cfg.services|
    requires SameButMarks(obs.services, Observe.States(su.cfg.services, probes))
    requires a in PlanFor(su, kind, obs).actions
    ensures i < |probes| && Warrants(su.cfg.services[i], probes[i], a)
  {
    PlanActsOn(su, kind, obs, a);
    hide PlanFor;
    var s :| s in obs.services && s.name == a.service && Scheduler.Alive(s) && PlainTerms.Permits(s, a.verb)
             && a.expectFreeMiB == s.heldMiB;
    i :| 0 <= i < |obs.services| && obs.services[i] == s;
    assert Observe.States(su.cfg.services, probes)[i] == Observe.ProbeOne(su.cfg.services[i], probes[i]);
  }

  /** With names of their own, that is the probe of the very service acted on. */
  lemma {:induction false} NotOnTheUnwilling(
    su: Setup, kind: PlannerKind, obs: Observation, probes: seq<Observe.Probe>, i: nat, a: Action)
    requires |probes| == |su.cfg.services| && i < |probes| && DistinctServices(su.cfg.services)
    requires SameButMarks(obs.services, Observe.States(su.cfg.services, probes))
    requires probes[i].Unreachable? || !probes[i].up || (probes[i].idleKnown && !probes[i].idle)
    requires a in PlanFor(su, kind, obs).actions
    ensures a.service != su.cfg.services[i].name
  {
    var j := PlanIsWarranted(su, kind, obs, probes, a);
  }

  // ------------------------------------------------------------------ over runs

  /** Once it has probed, a planner keeps what it saw, and only marks it. */
  predicate KeepsSight(a: Planner, b: Planner) {
    && b.kind == a.kind && HasProbed(b.pc) && b.obs.device == a.obs.device
    && SameButMarks(b.obs.services, a.obs.services)
  }

  lemma {:induction false} MarkingIsMarking(inflight: set<string>, services: seq<ServiceState>)
    ensures SameButMarks(MarkInflight(inflight, services), services)
  {
  }

  lemma {:induction false} CoolingIsMarking(cooldowns: map<string, Instant>, services: seq<ServiceState>)
    ensures SameButMarks(MarkCooling(cooldowns, services), services)
  {
  }

  lemma {:induction false} StepKeepsSight(su: Setup, w: World, c: Command, p: nat)
    requires Enabled(su, w, c) && p < |w.planners| && HasProbed(w.planners[p].pc)
    ensures p < |Apply(su, w, c).planners| && KeepsSight(w.planners[p], Apply(su, w, c).planners[p])
  {
    if MovesWorker(c) {
      WorkerStepMoves(su, w, c);
      hide Apply, Enabled;
      assert SameButResults(w.planners[p], Apply(su, w, c).planners[p]);
    } else {
      hide StepWorker, PlanFor, AsksOnly, SnapshotOf, MarkInflight, MarkCooling, Sweep, SameButMarks, Observe.States;
      if c.ReadInflight? {
        MarkingIsMarking(w.tables.inflight, w.planners[c.p].obs.services);
      } else if c.SweepCooldowns? {
        CoolingIsMarking(Sweep(w.tables.cooldowns, w.planners[c.p].now), w.planners[c.p].obs.services);
      }
      Unchanged(w.planners[p].obs.services);
    }
  }

  lemma {:induction false} Unchanged(services: seq<ServiceState>)
    ensures SameButMarks(services, services)
  {
  }

  lemma {:induction false} MarksUponMarks(a: seq<ServiceState>, b: seq<ServiceState>, c: seq<ServiceState>)
    requires SameButMarks(a, b) && SameButMarks(b, c)
    ensures SameButMarks(a, c)
  {
  }

  /** Step h is where planner p probed, and this is what it saw. */
  ghost predicate ProbedAt(su: Setup, commands: seq<Command>, pl: Planner, p: nat, h: nat) {
    && h < |commands| && commands[h].Probe? && commands[h].p == p
    && |commands[h].probes| == |su.cfg.services|
    && pl.obs.device == commands[h].device
    && SameButMarks(pl.obs.services, Observe.States(su.cfg.services, commands[h].probes))
  }

  lemma {:induction false} ProbeSees(su: Setup, w: World, c: Command)
    requires Enabled(su, w, c) && c.Probe?
    ensures c.p < |Apply(su, w, c).planners|
    ensures var pl := Apply(su, w, c).planners[c.p];
      && |c.probes| == |su.cfg.services| && pl.obs.device == c.device
      && pl.obs.services == Observe.States(su.cfg.services, c.probes)
  {
    hide StepWorker, Observe.States;
  }

  lemma {:induction false} OnlyProbesProbe(su: Setup, w: World, c: Command, p: nat)
    requires Enabled(su, w, c) && p < |Apply(su, w, c).planners| && HasProbed(Apply(su, w, c).planners[p].pc)
    ensures p < |w.planners|
    ensures HasProbed(w.planners[p].pc) || (c.Probe? && c.p == p)
  {
    if MovesWorker(c) {
      WorkerStepMoves(su, w, c);
      hide Apply, Enabled;
      assert SameButResults(w.planners[p], Apply(su, w, c).planners[p]);
    } else {
      hide StepWorker, PlanFor, AsksOnly, SnapshotOf, MarkInflight, MarkCooling, Sweep, Observe.States;
    }
  }

  /** In every run, what a planner has seen is what its own probe answered. */
  lemma {:induction false} SightIsItsProbe(su: Setup, commands: seq<Command>, run: seq<World>, n: nat, p: nat)
    returns (h: nat)
    requires IsRun(su, commands, run) && n < |run| && p < |run[n].planners| && HasProbed(run[n].planners[p].pc)
    ensures h < n && ProbedAt(su, commands, run[n].planners[p], p, h)
    ensures Observe.Answers(su.cfg.services, commands[h].probes)
    decreases n
  {
    hide Apply, Enabled, Observe.States, Observe.Answers, SameButMarks, ProbedAt, KeepsSight;
    assert n > 0;
    var w, w', c := run[n - 1], run[n], commands[n - 1];
    assert Enabled(su, w, c) && w' == Apply(su, w, c);
    OnlyProbesProbe(su, w, c, p);
    if HasProbed(w.planners[p].pc) {
      h := SightIsItsProbe(su, commands, run, n - 1, p);
      StepKeepsSight(su, w, c, p);
      SightCarries(su, commands, w.planners[p], w'.planners[p], p, h);
    } else {
      h := n - 1;
      ProbeSees(su, w, c);
      ProbeAnswers(su, w, c);
      FreshSight(su, commands, w'.planners[p], p, h);
    }
  }

  lemma {:induction false} ProbeAnswers(su: Setup, w: World, c: Command)
    requires Enabled(su, w, c) && c.Probe?
    ensures Observe.Answers(su.cfg.services, c.probes)
  {
  }

  lemma {:induction false} SightCarries(su: Setup, commands: seq<Command>, a: Planner, b: Planner, p: nat, h: nat)
    requires ProbedAt(su, commands, a, p, h) && KeepsSight(a, b)
    ensures ProbedAt(su, commands, b, p, h)
  {
    MarksUponMarks(b.obs.services, a.obs.services, Observe.States(su.cfg.services, commands[h].probes));
  }

  lemma {:induction false} FreshSight(su: Setup, commands: seq<Command>, pl: Planner, p: nat, h: nat)
    requires h < |commands| && commands[h].Probe? && commands[h].p == p
    requires |commands[h].probes| == |su.cfg.services| && pl.obs.device == commands[h].device
    requires pl.obs.services == Observe.States(su.cfg.services, commands[h].probes)
    ensures ProbedAt(su, commands, pl, p, h)
  {
    Unchanged(pl.obs.services);
  }

  /** In every run, every action of every plan is warranted by the answer its own
      planner's probe of that service gave, and each plan's figures are those of
      the card that planner read. */
  lemma {:induction false} RunsAreWarranted(
    su: Setup, commands: seq<Command>, run: seq<World>, n: nat, p: nat, a: Action) returns (h: nat, i: nat)
    requires IsRun(su, commands, run) && n < |run| && p < |run[n].planners| && Decided(run[n].planners[p].pc)
    requires a in run[n].planners[p].plan.actions
    ensures h < n && commands[h].Probe? && commands[h].p == p
    ensures i < |su.cfg.services| == |commands[h].probes|
    ensures Warrants(su.cfg.services[i], commands[h].probes[i], a)
  {
    var pl := run[n].planners[p];
    hide Warrants;
    h := SightIsItsProbe(su, commands, run, n, p);
    PlanOfPlanner(su, commands, run, n, p);
    hide IsRun, PlanFor;
    i := PlanIsWarranted(su, pl.kind, pl.obs, commands[h].probes, a);
  }

  lemma {:induction false} PlanOfPlanner(su: Setup, commands: seq<Command>, run: seq<World>, n: nat, p: nat)
    requires IsRun(su, commands, run) && n < |run| && p < |run[n].planners| && Decided(run[n].planners[p].pc)
    ensures run[n].planners[p].plan == PlanFor(su, run[n].planners[p].kind, run[n].planners[p].obs)
  {
    var w := run[n];
    hide IsRun;
    Runs.RunHolds(su, commands, run, n);
    assert PlannerOk(su, w.planners[p]);
  }

  lemma {:induction false} RunsReadTheCard(su: Setup, commands: seq<Command>, run: seq<World>, n: nat, p: nat)
    returns (h: nat)
    requires IsRun(su, commands, run) && n < |run| && p < |run[n].planners| && Decided(run[n].planners[p].pc)
    ensures h < n && commands[h].Probe? && commands[h].p == p
    ensures var plan, device := run[n].planners[p].plan, commands[h].device;
      && (device.None? ==> plan.actions == [])
      && (device.Some? ==> plan.currentFreeMiB == device.value.FreeMiB() && plan.totalMiB == device.value.totalMiB)
      && (device.Some? && !run[n].planners[p].kind.EvictFor? && device.value.FreeMiB() >= plan.targetFreeMiB ==>
            plan.actions == [])
  {
    var pl := run[n].planners[p];
    h := SightIsItsProbe(su, commands, run, n, p);
    PlanOfPlanner(su, commands, run, n, p);
    hide IsRun;
    FiguresAreRead(su, pl.kind, pl.obs);
  }

  lemma {:induction false} FiguresAreRead(su: Setup, kind: PlannerKind, obs: Observation)
    ensures var plan := PlanFor(su, kind, obs);
      && (obs.device.None? ==> plan.actions == [])
      && (obs.device.Some? ==>
            plan.currentFreeMiB == obs.device.value.FreeMiB() && plan.totalMiB == obs.device.value.totalMiB)
      && (obs.device.Some? && !kind.EvictFor? && obs.device.value.FreeMiB() >= plan.targetFreeMiB ==>
            plan.actions == [])
  {
    PlanMeans.DecideFigures(su.cfg, obs);
    hide Scheduler.DecidePlan, Scheduler.EvictActions, Scheduler.EvictNotes;
  }
}
