/** Inputs on which a promise fails, each on a configuration that loads and with
    an observation a daemon on it can make. */
module Examples {
  import opened Machine
  import opened Domain
  import opened Scheduler
  import opened Greedy
  import Accounting
  import ConfigLayers
  import Deadlines
  import ExampleFiles
  import FewestOfAll
  import Handlers
  import Observe
  import Protocol
  import RetryBreaks
  import Sorting
  import Tables
  import World

  // ------------------------------------------------------ fewest disruptions

  function ThreeEntries(): seq<ExampleFiles.Entry> {
    [ExampleFiles.Usual("top", 10), ExampleFiles.Usual("small", 1), ExampleFiles.Usual("large", 2)]
  }

  function State(name: string, priority: int, held: u64): ServiceState {
    ServiceState(name, priority, true, held, true, false, false, false, false, false, None, false)
  }

  /** A full card; small holds 100 MiB and large 900. */
  function FullCard(): Observation {
    Observation(Some(Device(1000, 1000)), [State("top", 10, 0), State("small", 1, 100), State("large", 2, 900)], [])
  }

  function Holding(held: u64): Observe.Probe {
    Observe.Answered(true, held, false, false)
  }

  function ThreeProbes(): seq<Observe.Probe> {
    [Holding(0), Holding(100), Holding(900)]
  }

  lemma {:induction false} FullCardIsObserved()
    ensures var services, probes := ExampleFiles.ConfigOf(ThreeEntries()).services, ThreeProbes();
      Observe.Answers(services, probes) && FullCard().services == Observe.States(services, probes)
    ensures DistinctNames(FullCard().services)
  {
  }

  lemma {:induction false} TopIsServed()
    ensures var cfg := ExampleFiles.ConfigOf(ThreeEntries());
      && Contested(cfg, FullCard())
      && Beneficiary(cfg, FullCard()) == State("top", 10, 0) && Needed(cfg, FullCard()) == 500
  {
    var cfg, services := ExampleFiles.ConfigOf(ThreeEntries()), FullCard().services;
    var top, small, large := State("top", 10, 0), State("small", 1, 100), State("large", 2, 900);
    assert Sorting.Sort(ScoredLess, Live(cfg, [])) == [];
    assert services[1..] == [small, large] && [small, large][1..] == [large] && [large][1..] == [];
    assert TopFrom(Some(top), [large]) == Some(top);
    assert TopFrom(Some(top), [small, large]) == Some(top);
    assert TopFrom(None, services) == Some(top);
    assert DemandOf(cfg, FullCard(), 0) == Demand("top", 500, Reactive, []);
  }

  lemma {:induction false} BothQueue()
    ensures Queue(FullCard().services, State("top", 10, 0)) == [State("small", 1, 100), State("large", 2, 900)]
  {
    var top, small, large := State("top", 10, 0), State("small", 1, 100), State("large", 2, 900);
    var services := FullCard().services;
    assert services[1..] == [small, large] && [small, large][1..] == [large];
    assert EvictableIn([large], top) == [large];
    assert EvictableIn([small, large], top) == [small, large];
    assert EvictableIn(services, top) == [small, large];
    assert Sorting.Sort(CandidateLess, [large]) == [large] by {
      assert Sorting.Sort(CandidateLess, []) == [];
    }
    assert Candidates(services, top) == [small, large];
    assert WithVerb([large]) == [large];
  }

  lemma {:induction false} WhatIsHeld()
    ensures var small, large := State("small", 1, 100), State("large", 2, 900);
      && HeldSum([small, large][..0]) == 0 && HeldSum([small, large][..1]) == 100 && HeldSum([small, large]) == 1000
      && HeldSum(FullCard().services) == 1000 && HeldBy(FullCard().services, {"large"}) == 900
  {
    var top, small, large := State("top", 10, 0), State("small", 1, 100), State("large", 2, 900);
    assert [small, large][..1] == [small] && [small, large][1..] == [large];
    assert HeldSum([small]) == 100 && HeldSum([large]) == 900;
    assert FullCard().services[1..] == [small, large];
    assert HeldBy([large], {"large"}) == 900;
    assert HeldBy([small, large], {"large"}) == 900;
  }

  lemma {:induction false} DecideFreesBoth()
    ensures |DecidePlan(ExampleFiles.ConfigOf(ThreeEntries()), FullCard()).actions| == 2
  {
    var cfg, q := ExampleFiles.ConfigOf(ThreeEntries()), [State("small", 1, 100), State("large", 2, 900)];
    hide DecidePlan, Queue, DemandOf, HeldSum, ExampleFiles.ConfigOf, FullCard, Contested, Beneficiary, Needed;
    TopIsServed();
    BothQueue();
    WhatIsHeld();
    ExactGreedyShape(cfg, FullCard());
    assert ShortestPrefix(q, 500, |DecidePlan(cfg, FullCard()).actions|);
  }

  /** Decide's plan is not always the smallest that would do. On a config that
      loads and a card that is full, with 500 MiB asked for, it frees both small
      and large, though large alone would do. */
  lemma {:induction false} FewestOnlyAmongClosed(rules: ConfigLayers.Rules)
    requires ExampleFiles.WellWritten(rules, ThreeEntries())
    ensures var cfg, obs := ExampleFiles.ConfigOf(ThreeEntries()), FullCard();
      && ExampleFiles.LoadsTo(rules, ThreeEntries(), cfg)
      && Observe.Answers(cfg.services, ThreeProbes()) && obs.services == Observe.States(cfg.services, ThreeProbes())
      && Contested(cfg, obs) && NoOverflow(obs.services)
      && FewestOfAll.WouldDo(cfg, obs, {"large"}) && |DecidePlan(cfg, obs).actions| == 2
      && !FewestOfAll.SmallestOfAll(cfg, obs)
  {
    hide DecidePlan, ExampleFiles.ConfigOf, ExampleFiles.WellWritten, Contested, ThreeEntries, ExampleFiles.LoadsTo,
         FewestOfAll.WouldDo, FewestOfAll.SmallestOfAll;
    ExampleFiles.FileLoadsTo(rules, ThreeEntries());
    FullCardIsObserved();
    TopIsServed();
    WhatIsHeld();
    DecideFreesBoth();
    LargeWouldDo();
    FewestOfAll.BeatenBy(ExampleFiles.ConfigOf(ThreeEntries()), FullCard(), {"large"});
  }

  lemma {:induction false} LargeWouldDo()
    ensures var cfg := ExampleFiles.ConfigOf(ThreeEntries());
      Contested(cfg, FullCard()) && FewestOfAll.WouldDo(cfg, FullCard(), {"large"})
  {
    assert forall s :: s in FullCard().services && s.name == "large" ==> s == State("large", 2, 900);
    hide ExampleFiles.ConfigOf, Contested, Beneficiary, Needed, HeldBy, HeldSum, FullCard, ThreeEntries;
    TopIsServed();
    WhatIsHeld();
  }

  // --------------------------------------------------------------- deadlines

  /** A local service given just under a millisecond for a release. */
  function Hasty(): seq<ExampleFiles.Entry> {
    [ExampleFiles.Entry("hasty", 1, 900_000, "900us", 50_000, "50us")]
  }

  /** The service answers its probe, holds 100 MiB, and nothing is under way. */
  function HastyScene(device: Device, carryOut: Plan -> Handlers.Done): Handlers.Scene {
    Handlers.Scene(Tables.EMPTY, 0, 0, Some(device),
                   Observe.States(ExampleFiles.ConfigOf(Hasty()).services, [Holding(100)]), carryOut)
  }

  const EVICT_HASTY := Protocol.Query(Protocol.Op.Evict, "hasty", 0, false, false, true)

  /** The deadlines do not always nest. On a config that loads, the daemon is
      asked to evict its one service and announces the plan as taking 0 ms; the
      client then waits out its flat 90 s, and whenever it read the announcement
      it outwaits the daemon, which gives the connection 70 s and a millisecond. */
  lemma {:induction false} DeadlinesCross(
    rules: ConfigLayers.Rules, device: Device, carryOut: Plan -> Handlers.Done, start: Instant)
    requires ExampleFiles.WellWritten(rules, Hasty())
    ensures var cfg := ExampleFiles.ConfigOf(Hasty());
      var su, sc := World.Setup(cfg, false), HastyScene(device, carryOut);
      var plan := Handlers.EvictPlan(sc, EVICT_HASTY);
      && ExampleFiles.LoadsTo(rules, Hasty(), cfg) && Observe.Answers(cfg.services, [Holding(100)])
      && plan.actions == [Action("hasty", Release, 100)]
      && Handlers.Handle(su, sc, EVICT_HASTY).sent == [Protocol.Response(false, Some(plan), 0, false, [], None, None)]
      && Deadlines.LongestOf(cfg, plan.actions) == 950_000
      && (forall readAt :: readAt >= start ==>
            Deadlines.ClientDeadline(readAt, 950_000) > start + Deadlines.BudgetOf(cfg.services))
      && !Deadlines.DeadlinesNest(cfg, plan, start)
  {
    var cfg := ExampleFiles.ConfigOf(Hasty());
    var sc := HastyScene(device, carryOut);
    var plan := Handlers.EvictPlan(sc, EVICT_HASTY);
    hide ExampleFiles.ConfigOf, ExampleFiles.WellWritten, ExampleFiles.LoadsTo, Deadlines.LongestOf,
         Deadlines.LongestConfigured, Deadlines.BudgetOf, Deadlines.ClientWait, Hasty, HastyScene, Handlers.EvictPlan,
         Scheduler.EvictPlan;
    ExampleFiles.FileLoadsTo(rules, Hasty());
    HastyIsPlanned(device, carryOut);
    HastyTakesNoTime(plan);
    Deadlines.DeadlinesNestIff(cfg, plan, start);
    Deadlines.NoDeadlineWraps(950_000);
    Deadlines.BudgetIsPlainSum(cfg.services);
  }

  lemma {:induction false} HastyIsPlanned(device: Device, carryOut: Plan -> Handlers.Done)
    ensures var su, sc := World.Setup(ExampleFiles.ConfigOf(Hasty()), false), HastyScene(device, carryOut);
      && Handlers.EvictPlan(sc, EVICT_HASTY).actions == [Action("hasty", Release, 100)]
      && Handlers.Names(su, EVICT_HASTY) && Observe.Answers(su.cfg.services, [Holding(100)])
  {
    var cfg, sc := ExampleFiles.ConfigOf(Hasty()), HastyScene(device, carryOut);
    var seen := Handlers.Seen(sc, Tables.SnapshotOf(sc.tables.claims)).services;
    assert |cfg.services| == 1 && cfg.services[0] == ExampleFiles.ServiceOf(Hasty()[0]);
    assert seen == [State("hasty", 1, 100)];
    assert FindService(seen, "hasty") == Some(State("hasty", 1, 100));
    assert ["hasty"][1..] == [] && EvictActions(seen, []) == [];
    assert EvictActions(seen, ["hasty"]) == [Action("hasty", Release, 100)];
  }

  lemma {:induction false} HastyTakesNoTime(plan: Plan)
    requires plan.actions == [Action("hasty", Release, 100)]
    ensures var cfg := ExampleFiles.ConfigOf(Hasty());
      Deadlines.LongestOf(cfg, plan.actions) == 950_000 && Deadlines.LongestConfigured(cfg.services) == 950_000
  {
    var cfg, svc := ExampleFiles.ConfigOf(Hasty()), ExampleFiles.ServiceOf(Hasty()[0]);
    assert cfg.services == [svc] && [svc][1..] == [] && plan.actions[1..] == [];
    assert LookUp(cfg, "hasty") == Some(svc);
    assert Deadlines.ActionBound(svc) == 950_000;
    assert Deadlines.LongestConfigured([]) == 0 && Deadlines.LongestOf(cfg, []) == 0;
  }

  // ------------------------------------------------------------- silent plans

  function Alone(): seq<ExampleFiles.Entry> {
    [ExampleFiles.Usual("only", 1)]
  }

  /** `evict --all-except` with nothing else configured says nothing at all. */
  lemma {:induction false} EvictAllExceptSilent(rules: ConfigLayers.Rules, probe: Observe.Probe, device: Device)
    requires ExampleFiles.WellWritten(rules, Alone())
    ensures var cfg := ExampleFiles.ConfigOf(Alone());
      var plan := EvictAllExceptPlan(Observation(Some(device), Observe.States(cfg.services, [probe]), []), "only");
      ExampleFiles.LoadsTo(rules, Alone(), cfg) && plan.actions == [] && plan.notes == []
  {
    var cfg := ExampleFiles.ConfigOf(Alone());
    ExampleFiles.FileLoadsTo(rules, Alone());
    hide ExampleFiles.LoadsTo;
    var obs := Observation(Some(device), Observe.States(cfg.services, [probe]), []);
    assert obs.services[0].name == "only";
    Accounting.EvictAllExceptSilentIff(obs, "only");
  }

  // -------------------------------------------------------------- bounded retry

  function TwoEntries(): seq<ExampleFiles.Entry> {
    [ExampleFiles.Usual("top", 10), ExampleFiles.Usual("low", 1)]
  }

  lemma {:induction false} LowIsExposed()
    ensures var su := World.Setup(ExampleFiles.ConfigOf(TwoEntries()), false);
      && RetryBreaks.ExposedPair(su, 1, 0) && DistinctServices(su.cfg.services)
      && su.cfg.policy.pollInterval == 5 * SECOND && su.cfg.policy.actionCooldown == 60 * SECOND
  {
  }

  /** The retry bound needs its hypothesis. On a config that loads, with the loop
      alone acting: the second round, a poll interval after the first, looks before
      the first one's action has reached acquire; both actions run and come to
      nothing, the second a second after the first and well inside its cooldown. */
  lemma {:induction false} TwoUselessInOneCooldown(rules: ConfigLayers.Rules)
    returns (commands: seq<World.Command>, run: seq<World.World>)
    requires ExampleFiles.WellWritten(rules, TwoEntries())
    ensures var cfg := ExampleFiles.ConfigOf(TwoEntries());
      && ExampleFiles.LoadsTo(rules, TwoEntries(), cfg)
      && RetryBreaks.Breaks(World.Setup(cfg, false), commands, run)
    ensures var w := run[|commands|];
      && |w.planners| == 2 && w.planners[1].now == w.planners[0].now + 5 * SECOND
      && |w.workers| == 2 && w.workers[0].action.service == w.workers[1].action.service == "low"
      && w.workers[1].recClock == w.workers[0].recClock + SECOND
  {
    var su := World.Setup(ExampleFiles.ConfigOf(TwoEntries()), false);
    hide ExampleFiles.WellWritten, ExampleFiles.LoadsTo, RetryBreaks.Breaks, RetryBreaks.Fits, RetryBreaks.ExposedPair;
    ExampleFiles.FileLoadsTo(rules, TwoEntries());
    LowIsExposed();
    RetryBreaks.ExposedPairFits(su, 1, 0);
    commands, run := RetryBreaks.TwoFailures(RetryBreaks.CaseFor(su, 1, 0), SECOND);
  }
}
