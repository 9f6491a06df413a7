/** What holds of a daemon running on any configuration that loads. */
module EndToEnd {
  import opened Machine
  import opened Domain
  import ConfigKeys
  import ConfigLayers
  import ConfigLoad
  import Deadlines
  import LastWriterWins
  import LoadsMean
  import Retry
  import RetryBreaks
  import Runs
  import Targets
  import World

  /** On a loaded config no action's bound is capped: it is the service's timeout
      and drain together, seventy minutes at most. */
  lemma {:induction false} LoadedBoundsAreSums(
    rules: ConfigLayers.Rules, explicit: bool, sources: seq<ConfigLayers.Source>, svc: Service)
    requires ConfigLoad.Loadable(rules, explicit, sources)
    requires svc in ConfigLoad.Loaded(ConfigLoad.LayersOf(sources)).services
    ensures Deadlines.ActionBound(svc) == svc.timeout + svc.drainTimeout
    ensures 2 <= Deadlines.ActionBound(svc) <= 70 * Deadlines.MINUTE
  {
    hide ConfigLoad.Loadable, ConfigLoad.Loaded, ConfigLoad.LayersOf, LastWriterWins.PolicyInBounds,
         LastWriterWins.ServiceInBounds;
    LastWriterWins.EveryLoadIsSound(rules, explicit, sources);
    Deadlines.ActionBoundIsCappedSumIff(svc);
  }

  lemma {:induction false} LongestIsSome(services: seq<Service>)
    requires forall s :: s in services ==> Deadlines.ActionBound(s) > 0
    ensures Deadlines.LongestConfigured(services) == 0 <==> services == []
  {
    hide Deadlines.ActionBound;
    if services != [] {
      assert services[0] in services;
    }
  }

  /** On a loaded config with a service, a client that hears the plan announced
      within a minute is waited for exactly when the plan's longest action takes a
      millisecond or some service may take 80 s; a plan without actions is not
      announced. */
  lemma {:induction false} LoadedDeadlinesNestIff(
    rules: ConfigLayers.Rules, explicit: bool, sources: seq<ConfigLayers.Source>, plan: Plan, start: Instant)
    requires ConfigLoad.Loadable(rules, explicit, sources)
    requires ConfigLoad.Loaded(ConfigLoad.LayersOf(sources)).services != []
    ensures var cfg := ConfigLoad.Loaded(ConfigLoad.LayersOf(sources));
      Deadlines.DeadlinesNest(cfg, plan, start) <==>
        || plan.actions == []
        || Deadlines.LongestOf(cfg, plan.actions) >= Deadlines.MILLISECOND
        || exists s :: s in cfg.services && s.timeout + s.drainTimeout >= 80 * SECOND
  {
    var cfg := ConfigLoad.Loaded(ConfigLoad.LayersOf(sources));
    hide ConfigLoad.Loadable, ConfigLoad.Loaded, ConfigLoad.LayersOf, Deadlines.ActionBound, Deadlines.DeadlinesNest;
    forall s | s in cfg.services
      ensures Deadlines.ActionBound(s) == s.timeout + s.drainTimeout && Deadlines.ActionBound(s) > 0
    {
      LoadedBoundsAreSums(rules, explicit, sources, s);
    }
    LongestIsSome(cfg.services);
    LongestIsOneOf(cfg.services);
    Deadlines.DeadlinesNestIff(cfg, plan, start);
    forall s | s in cfg.services ensures Deadlines.ActionBound(s) <= Deadlines.LongestConfigured(cfg.services) {
      Deadlines.LongestCovers(cfg.services, s);
    }
  }

  lemma {:induction false} LongestIsOneOf(services: seq<Service>)
    ensures Deadlines.LongestConfigured(services) > 0 ==>
      exists s :: s in services && Deadlines.ActionBound(s) == Deadlines.LongestConfigured(services)
  {
    hide Deadlines.ActionBound;
    if services != [] {
      LongestIsOneOf(services[1..]);
      assert services[0] in services;
    }
  }

  /** On any loaded config, a calm run of the loop retries what does not help at
      most once per cooldown, and once more. */
  lemma {:induction false} LoadedRetryIsBounded(
    rules: ConfigLayers.Rules, explicit: bool, sources: seq<ConfigLayers.Source>, su: World.Setup,
    commands: seq<World.Command>, run: seq<World.World>, n: nat, service: string, start: Instant, span: nat,
    ks: set<nat>)
    requires ConfigLoad.Loadable(rules, explicit, sources)
    requires su.cfg == ConfigLoad.Loaded(ConfigLoad.LayersOf(sources))
    requires Retry.IsCalmRun(su, commands, run, service) && n < |run|
    requires forall k :: k in ks ==> Retry.UselessWithin(run[n], k, service, start, span)
    ensures su.cfg.policy.actionCooldown > 0
    ensures |ks| <= span / su.cfg.policy.actionCooldown + 1
  {
    hide ConfigLoad.Loadable, ConfigLoad.Loaded, ConfigLoad.LayersOf, Retry.IsCalmRun, DistinctServices;
    LastWriterWins.EveryLoadIsSound(rules, explicit, sources);
    Retry.BoundedRetry(su, commands, run, n, service, start, span, ks);
  }

  /** A daemon on a loaded config can break that bound by its loop alone exactly
      when it is no dry run, reactive mode is on with a floor, and it may act on a
      service, other than the default workload, that is below another. */
  lemma {:induction false} LoadedRetryBreaksIff(
    rules: ConfigLayers.Rules, explicit: bool, sources: seq<ConfigLayers.Source>, dryRun: bool)
    requires ConfigLoad.Loadable(rules, explicit, sources)
    ensures var su := World.Setup(ConfigLoad.Loaded(ConfigLoad.LayersOf(sources)), dryRun);
      && ((exists commands, run :: RetryBreaks.Breaks(su, commands, run)) <==> RetryBreaks.Exposed(su))
      && ((exists commands, run :: RetryBreaks.Breaks(su, commands, run) && RetryBreaks.Paced(su, run[|commands|])) <==>
            RetryBreaks.Exposed(su))
  {
    hide ConfigLoad.Loadable, ConfigLoad.Loaded, ConfigLoad.LayersOf, RetryBreaks.Exposed,
         RetryBreaks.LoopOnly, RetryBreaks.Paced, DistinctServices;
    LastWriterWins.EveryLoadIsSound(rules, explicit, sources);
    RetryBreaks.BreaksIffExposed(World.Setup(ConfigLoad.Loaded(ConfigLoad.LayersOf(sources)), dryRun));
  }

  /** Nothing is ever stopped on a whim: if a daemon on a loaded config calls Stop
      on a service, a client asked for an eviction, and some file says of that
      very service that it may be stopped. */
  lemma {:induction false} StopsAreWritten(
    rules: ConfigLayers.Rules, explicit: bool, sources: seq<ConfigLayers.Source>, su: World.Setup,
    commands: seq<World.Command>, run: seq<World.World>, n: nat, k: nat, service: string)
    requires ConfigLoad.Loadable(rules, explicit, sources)
    requires su.cfg == ConfigLoad.Loaded(ConfigLoad.LayersOf(sources))
    requires World.IsRun(su, commands, run) && n < |run| && Targets.Calls(run[n], k, Stop, service)
    ensures !Targets.ByPriority(run[n], k)
    ensures exists b :: b in ConfigLayers.AllBlocks(ConfigLoad.LayersOf(sources)) && b.name == service
                        && ConfigKeys.AllowStop in b.keys && b.keys[ConfigKeys.AllowStop] == ConfigKeys.Truth(true)
  {
    var layers := ConfigLoad.LayersOf(sources);
    CalledIsConfigured(su, commands, run, n, k, service);
    var svc :| svc in su.cfg.services && svc.name == service;
    LastWriterWins.EveryLoadIsSound(rules, explicit, sources);
    LastWriterWins.LayersAreAccepted(rules, sources);
    hide ConfigLoad.Loadable, ConfigLoad.Loaded, ConfigLoad.LayersOf, World.IsRun, Targets.Calls, DistinctServices,
         ConfigLayers.AllBlocks, Targets.ByPriority;
    Targets.CallsArePermitted(su, commands, run, n, k, Stop, svc);
    LoadsMean.StopMustBeWritten(rules, layers, svc);
  }

  lemma {:induction false} CalledIsConfigured(
    su: World.Setup, commands: seq<World.Command>, run: seq<World.World>, n: nat, k: nat, service: string)
    requires World.IsRun(su, commands, run) && n < |run| && Targets.Calls(run[n], k, Stop, service)
    ensures exists svc :: svc in su.cfg.services && svc.name == service
  {
    var w := run[n];
    hide World.IsRun;
    Runs.CallsAreSafe(su, commands, run, n, k);
    var svc := LookUp(su.cfg, service).value;
    assert svc in su.cfg.services && svc.name == service;
  }
}
