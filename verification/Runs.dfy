/** The theorems about every run of the daemon: what holds at each of its
    worlds, whatever order its goroutines take their steps in. */
module Runs {
  import opened Domain
  import opened Tables
  import opened World
  import opened SlotSafety
  import opened NoGap
  import Greedy

  // ------------------------------------------------------------ the claim table

  /** Claims name configured services; a dry-run daemon has none. */
  ghost predicate ClaimsOk(su: Setup, claims: map<string, Claim>) {
    && Filed(claims)
    && (forall s :: s in claims ==> Configured(su.cfg, s))
    && (su.dryRun ==> claims == map[])
  }

  lemma {:induction false} StepKeepsClaims(su: Setup, w: World, c: Command)
    requires ClaimsOk(su, w.tables.claims) && Shape(su, w) && Enabled(su, w, c)
    ensures ClaimsOk(su, Apply(su, w, c).tables.claims)
  {
    hide PlanFor, SnapshotOf, GateOf, Judge, WorkerOk;
    if MovesWorker(c) {
      WorkerStepMoves(su, w, c);
      hide Apply;
    } else if c.FileClaim? {
      assert PlannerOk(su, w.planners[c.p]);
    }
  }

  /** As long as a claim stands, the time it was first made stands with it. */
  lemma {:induction false} StandingClaimKeepsItsTime(su: Setup, w: World, c: Command, service: string)
    requires ClaimsOk(su, w.tables.claims) && Enabled(su, w, c)
    requires service in w.tables.claims && service in Apply(su, w, c).tables.claims
    ensures Apply(su, w, c).tables.claims[service].at == w.tables.claims[service].at
  {
    hide PlanFor, SnapshotOf, GateOf, Judge;
    if MovesWorker(c) {
      WorkerStepMoves(su, w, c);
      hide Apply;
    }
  }

  // -------------------------------------------------------------- every world

  ghost predicate Inv(su: Setup, w: World) {
    && Shape(su, w) && SlotsExact(w) && CallsPermitted(su, w) && ResultsMatch(w) && ClientsWaited(su, w)
    && Times(w) && SlotsSeen(w) && CooldownsKept(su, w) && SweepsSee(su, w)
    && ClaimsOk(su, w.tables.claims)
  }

  lemma {:induction false} InitHolds(su: Setup, clock: Instant)
    ensures Inv(su, Init(clock))
  {
  }

  lemma {:induction false} StepHolds(su: Setup, w: World, c: Command)
    requires Inv(su, w) && Enabled(su, w, c)
    ensures Inv(su, Apply(su, w, c))
  {
    hide Apply, Enabled, Shape, SlotsExact, CallsPermitted, ResultsMatch, ClientsWaited, Times, SlotsSeen,
         CooldownsKept, SweepsSee, ClaimsOk;
    StepKeepsShape(su, w, c);
    StepKeepsSlots(su, w, c);
    StepKeepsPermissions(su, w, c);
    StepKeepsResults(su, w, c);
    StepKeepsWaiting(su, w, c);
    StepKeepsTimes(su, w, c);
    StepKeepsSeen(su, w, c);
    StepKeepsCooling(su, w, c);
    StepKeepsSweeps(su, w, c);
    StepKeepsClaims(su, w, c);
  }

  /** Every world of every run satisfies the invariant. */
  lemma {:induction false} RunHolds(su: Setup, commands: seq<Command>, run: seq<World>, i: nat)
    requires IsRun(su, commands, run) && i < |run|
    ensures Inv(su, run[i])
  {
    hide Inv, Apply, Enabled;
    if i == 0 {
      InitHolds(su, run[0].clock);
    } else {
      RunHolds(su, commands, run, i - 1);
      StepHolds(su, run[i - 1], commands[i - 1]);
    }
  }

  // ----------------------------------------------------- one action per service

  /** In every world of every run: inflight is exactly the set of services with a
      goroutine between acquire and releaseSlot, and each has one. */
  lemma {:induction false} InflightIsExact(su: Setup, commands: seq<Command>, run: seq<World>, i: nat)
    requires IsRun(su, commands, run) && i < |run|
    ensures forall s :: s in run[i].tables.inflight <==> exists k: nat :: HoldsSlot(run[i], k, s)
    ensures forall j: nat, k: nat, s :: HoldsSlot(run[i], j, s) && HoldsSlot(run[i], k, s) ==> j == k
  {
    hide IsRun;
    RunHolds(su, commands, run, i);
    hide Shape, Times, SlotsSeen, CooldownsKept, SweepsSee, CallsPermitted, ResultsMatch, ClientsWaited, ClaimsOk;
    SlotsAreExact(run[i]);
  }

  lemma {:induction false} SlotsAreExact(w: World)
    requires SlotsExact(w)
    ensures forall s :: s in w.tables.inflight <==> exists k: nat :: HoldsSlot(w, k, s)
    ensures forall j: nat, k: nat, s :: HoldsSlot(w, j, s) && HoldsSlot(w, k, s) ==> j == k
  {
  }

  /** A service leaves inflight only by the release of the goroutine whose slot
      it was: a skipped goroutine never frees another's slot. */
  lemma {:induction false} OnlyTheHolderFrees(su: Setup, w: World, c: Command, service: string)
    requires Enabled(su, w, c)
    requires service in w.tables.inflight && service !in Apply(su, w, c).tables.inflight
    ensures c.ReleaseSlot? && HoldsSlot(w, c.k, service)
  {
    if MovesWorker(c) {
      WorkerSlotStep(su, w, c);
      hide Apply;
    } else {
      OtherStepKeepsWorkers(su, w, c);
      hide Apply;
    }
  }

  /** Every adapter call of every run is made under the service's own slot, on a
      configured service, never by a dry-run daemon, and a stop only where
      allow_stop says so. */
  lemma {:induction false} CallsAreSafe(su: Setup, commands: seq<Command>, run: seq<World>, i: nat, k: nat)
    requires IsRun(su, commands, run) && i < |run|
    requires WorkerAt(run[i], k, Calling)
    ensures var a := run[i].workers[k].action;
      && HoldsSlot(run[i], k, a.service)
      && (forall j: nat :: HoldsSlot(run[i], j, a.service) ==> j == k)
      && Configured(su.cfg, a.service) && !su.dryRun
      && (a.verb == Stop ==> LookUp(su.cfg, a.service).value.allowStop)
  {
    hide IsRun;
    RunHolds(su, commands, run, i);
    InflightIsExact(su, commands, run, i);
    assert GateOf(su, run[i].workers[k].action) == Call;
  }

  /** executeOne's own refusals are dead in every run over distinct names: what
      the scheduler plans is always configured and permitted. */
  lemma {:induction false} NothingIsRefused(su: Setup, commands: seq<Command>, run: seq<World>, i: nat, k: nat)
    requires IsRun(su, commands, run) && i < |run| && k < |run[i].workers|
    requires DistinctServices(su.cfg.services)
    ensures GateOf(su, run[i].workers[k].action) != Refuse
  {
    hide IsRun;
    RunHolds(su, commands, run, i);
    GateNeverRefuses(su, run[i], k);
  }

  /** No action is ever started for a preview, for a dry-run request or eviction,
      or for any client of a dry-run daemon. */
  lemma {:induction false} DryRunsStartNothing(su: Setup, commands: seq<Command>, run: seq<World>, i: nat, k: nat)
    requires IsRun(su, commands, run) && i < |run| && k < |run[i].workers|
    ensures run[i].workers[k].planner < |run[i].planners|
    ensures match run[i].planners[run[i].workers[k].planner].kind
      case Tick => true
      case PlanQuery => false
      case RequestFor(_, _, dry) => !dry && !su.dryRun
      case EvictFor(_, _, dry) => !dry && !su.dryRun
  {
    var w := run[i];
    hide IsRun;
    RunHolds(su, commands, run, i);
    assert WorkerOk(w.planners, w.workers[k]);
    assert PlannerOk(su, w.planners[w.workers[k].planner]);
  }

  /** When a client's plan is done, result i is the result of action i: it comes
      from the one goroutine that ran it, and every action has one. */
  lemma {:induction false} ExecuteAnswersInOrder(
    su: Setup, commands: seq<Command>, run: seq<World>, n: nat, p: nat, i: nat)
    requires IsRun(su, commands, run) && n < |run|
    requires PlannerAt(run[n], p, Finished) && !run[n].planners[p].kind.Tick? && !AsksOnly(su, run[n].planners[p].kind)
    requires i < |run[n].planners[p].plan.actions|
    ensures var pl := run[n].planners[p];
      && |pl.results| == |pl.plan.actions| && pl.results[i].Some?
      && pl.results[i].value.service == pl.plan.actions[i].service
      && pl.results[i].value.verb == pl.plan.actions[i].verb
      && exists k: nat :: ReportedFor(run[n], k, p, i) && run[n].workers[k].result == pl.results[i].value
            && forall j ::
                 0 <= j < |run[n].workers| && run[n].workers[j].planner == p && run[n].workers[j].index == i ==> j == k
  {
    hide IsRun, PlanFor, AsksOnly;
    RunHolds(su, commands, run, n);
    var w := run[n];
    var pl := w.planners[p];
    assert PlannerOk(su, pl) && Waited(su, pl);
    assert pl.results[i] in pl.results;
    var k: nat :| ReportedFor(w, k, p, i);
    assert WorkerOk(w.planners, w.workers[k]);
    assert forall j :: 0 <= j < |w.workers| && w.workers[j].planner == p && w.workers[j].index == i ==> j == k;
  }

  // ------------------------------------------------------------------- no gap

  /** A plan of the loop, or a preview of one, names neither a service whose slot
      was taken when it looked nor one it saw cooling. */
  lemma {:induction false} PlanAvoids(su: Setup, pl: Planner, a: Action)
    requires PlannerOk(su, pl) && Decided(pl.pc) && a in pl.plan.actions
    ensures !Marked(pl.obs.services, a.service)
    ensures Sweeps(pl.kind) ==> !Cooling(pl.obs.services, a.service)
  {
    PlanActsOnSeen(su, pl.kind, pl.obs);
    if Sweeps(pl.kind) {
      DecideActsOnSeen(su.cfg, pl.obs);
    }
  }

  /** No gap between slot and cooldown. Take any world of any run, a finished
      plan of the loop in it, and an action on s that took its slot before that
      plan read inflight. If the plan names s, the action had given its slot back
      by then; and if it was useless, its cooldown had ended by the time the plan
      swept the cooldowns, or a later action on s had measurably worked. */
  lemma {:induction false} NoGapBetweenSlotAndCooldown(
    su: Setup, commands: seq<Command>, run: seq<World>, n: nat, p: nat, k: nat, a: Action)
    requires IsRun(su, commands, run) && n < |run|
    requires p < |run[n].planners| && (run[n].planners[p].kind.Tick? || run[n].planners[p].kind.PlanQuery?)
    requires Decided(run[n].planners[p].pc)
    requires k < |run[n].workers| && TookSlot(run[n].workers[k].pc)
    requires run[n].workers[k].acqAt < run[n].planners[p].snapAt
    requires a in run[n].planners[p].plan.actions && a.service == run[n].workers[k].action.service
    ensures var pl, wk := run[n].planners[p], run[n].workers[k];
      && wk.pc == Released && wk.relAt < pl.snapAt
      && (wk.effect == Useless ==> pl.sweepClock >= Until(su, wk) || ClearedBefore(run[n].workers, k, pl.sweptAt))
  {
    hide IsRun, Marked, Cooling, PlanFor, Judge;
    RunHolds(su, commands, run, n);
    NoGapInWorld(su, run[n], p, k, a);
  }

  lemma {:induction false} NoGapInWorld(su: Setup, w: World, p: nat, k: nat, a: Action)
    requires Inv(su, w)
    requires p < |w.planners| && Sweeps(w.planners[p].kind) && Decided(w.planners[p].pc)
    requires k < |w.workers| && TookSlot(w.workers[k].pc) && w.workers[k].acqAt < w.planners[p].snapAt
    requires a in w.planners[p].plan.actions && a.service == w.workers[k].action.service
    ensures w.workers[k].pc == Released && w.workers[k].relAt < w.planners[p].snapAt
    ensures w.workers[k].effect == Useless ==>
      w.planners[p].sweepClock >= Until(su, w.workers[k]) || ClearedBefore(w.workers, k, w.planners[p].sweptAt)
  {
    hide Marked, Cooling, PlanFor;
    var pl, wk := w.planners[p], w.workers[k];
    assert PlannerOk(su, pl) && WorkerTimes(w, wk) && PlannerTimes(w, pl);
    PlanAvoids(su, pl, a);
    assert SlotSeen(pl, wk, Marked(pl.obs.services, wk.action.service));
    assert SweepSees(su, w.workers, pl, k);
  }

  /** No plan of any kind names a service that was in inflight when it looked. */
  lemma {:induction false} NeverASecondAction(
    su: Setup, commands: seq<Command>, run: seq<World>, n: nat, p: nat, k: nat, a: Action)
    requires IsRun(su, commands, run) && n < |run|
    requires p < |run[n].planners| && Decided(run[n].planners[p].pc) && a in run[n].planners[p].plan.actions
    requires k < |run[n].workers| && TookSlot(run[n].workers[k].pc)
    requires run[n].workers[k].acqAt < run[n].planners[p].snapAt
    requires a.service == run[n].workers[k].action.service
    ensures run[n].workers[k].pc == Released && run[n].workers[k].relAt < run[n].planners[p].snapAt
  {
    hide IsRun, Marked, PlanFor;
    RunHolds(su, commands, run, n);
    var pl, wk := run[n].planners[p], run[n].workers[k];
    assert PlannerOk(su, pl);
    PlanAvoids(su, pl, a);
    assert SlotSeen(pl, wk, Marked(pl.obs.services, wk.action.service));
  }

  // ------------------------------------------------------------ no turn taking

  /** What every planner that has decided by priority saw, oldest first. */
  function Decisions(planners: seq<Planner>): seq<Observation> {
    if planners == [] then []
    else
      var rest := Decisions(planners[1..]);
      if Decided(planners[0].pc) && !planners[0].kind.EvictFor? then [planners[0].obs] + rest else rest
  }

  lemma {:induction false} DecisionsSeeConfig(su: Setup, planners: seq<Planner>)
    requires DistinctServices(su.cfg.services)
    requires forall pl :: pl in planners ==> PlannerOk(su, pl)
    ensures forall obs :: obs in Decisions(planners) ==> Greedy.SeenUnder(su.cfg, obs)
  {
    if planners != [] {
      DecisionsSeeConfig(su, planners[1..]);
      var pl := planners[0];
      if Decided(pl.pc) {
        assert PlannerOk(su, pl);
        forall s | s in pl.obs.services
          ensures LookUp(su.cfg, s.name).Some? && LookUp(su.cfg, s.name).value.priority == s.priority
        {
          var i :| 0 <= i < |pl.obs.services| && pl.obs.services[i] == s;
          LookUpAt(su.cfg, i);
        }
      }
    }
  }

  /** Over all the plans a run has made by priority, services never evict one
      another in a circle. */
  lemma {:induction false} RunsNeverTakeTurns(
    su: Setup, commands: seq<Command>, run: seq<World>, n: nat, chain: seq<string>)
    requires IsRun(su, commands, run) && n < |run| && DistinctServices(su.cfg.services)
    requires |chain| >= 2 && Greedy.EvictionChain(su.cfg, Decisions(run[n].planners), chain)
    ensures chain[0] != chain[|chain| - 1]
  {
    hide IsRun, PlanFor, Greedy.EvictionChain;
    RunHolds(su, commands, run, n);
    forall pl | pl in run[n].planners ensures PlannerOk(su, pl) {
      var p :| 0 <= p < |run[n].planners| && run[n].planners[p] == pl;
    }
    hide PlannerOk;
    DecisionsSeeConfig(su, run[n].planners);
    Greedy.NoEvictionCycle(su.cfg, Decisions(run[n].planners), chain);
  }

  /** A claim table in any world is what the claim section kept it to be. */
  lemma {:induction false} ClaimTableInRuns(su: Setup, commands: seq<Command>, run: seq<World>, n: nat)
    requires IsRun(su, commands, run) && n < |run|
    ensures forall s :: s in run[n].tables.claims ==> Configured(su.cfg, s) && run[n].tables.claims[s].service == s
    ensures su.dryRun ==> run[n].tables.claims == map[]
    ensures n + 1 < |run| ==> forall s :: s in run[n].tables.claims && s in run[n + 1].tables.claims ==>
      run[n + 1].tables.claims[s].at == run[n].tables.claims[s].at
  {
    hide Apply, Enabled;
    RunHolds(su, commands, run, n);
    if n + 1 < |run| {
      forall s | s in run[n].tables.claims && s in run[n + 1].tables.claims
        ensures run[n + 1].tables.claims[s].at == run[n].tables.claims[s].at
      {
        StandingClaimKeepsItsTime(su, run[n], commands[n], s);
      }
    }
  }
}
