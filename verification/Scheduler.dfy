/** Who wants the GPU, who has to let go of it, and in what order. */
module Scheduler {
  import opened Machine
  import opened Domain
  import Ordering
  import Sorting

  // ------------------------------------------------------------ who asks

  datatype Scored = Scored(claim: Claim, priority: int)

  /** Highest priority first, then who asked first, then by name. */
  predicate ScoredLess(a: Scored, b: Scored) {
    if a.priority != b.priority then a.priority > b.priority
    else if a.claim.at != b.claim.at then a.claim.at < b.claim.at
    else Ordering.Before(a.claim.service, b.claim.service)
  }

  /** The claims on configured services, each with its service's priority. */
  function Live(cfg: Config, claims: seq<Claim>): (r: seq<Scored>) {
    if claims == [] then []
    else
      var rest := Live(cfg, claims[1..]);
      match LookUp(cfg, claims[0].service)
      case None => rest
      case Some(svc) => [Scored(claims[0], svc.priority)] + rest
  }

  function BestClaim(cfg: Config, claims: seq<Claim>): Option<Claim> {
    var sorted := Sorting.Sort(ScoredLess, Live(cfg, claims));
    if sorted == [] then None else Some(sorted[0].claim)
  }

  /** bestClaim. */
  method PickClaim(cfg: Config, claims: seq<Claim>) returns (best: Option<Claim>)
    ensures best == BestClaim(cfg, claims)
  {
    var live: seq<Scored> := [];
    for i := 0 to |claims|
      invariant live + Live(cfg, claims[i..]) == Live(cfg, claims)
    {
      assert claims[i..][1..] == claims[i + 1..];
      match LookUp(cfg, claims[i].service) {
        case None =>
        case Some(svc) =>
          live := live + [Scored(claims[i], svc.priority)];
      }
    }
    assert live == Live(cfg, claims);
    if |live| == 0 {
      return None;
    }
    live := Sorting.Sort(ScoredLess, live);
    return Some(live[0].claim);
  }

  predicate Alive(s: ServiceState) {
    s.up && !s.probeErr
  }

  /** a defends the GPU ahead of b: higher priority, then name. */
  predicate Outranks(a: ServiceState, b: ServiceState) {
    a.priority > b.priority || (a.priority == b.priority && Ordering.Before(a.name, b.name))
  }

  /** The best of best and s, as the scan keeps it. */
  function Better(best: Option<ServiceState>, s: ServiceState): Option<ServiceState> {
    if !Alive(s) then best
    else if best.None? || Outranks(s, best.value) then Some(s)
    else best
  }

  function TopFrom(best: Option<ServiceState>, services: seq<ServiceState>): Option<ServiceState>
    decreases |services|
  {
    if services == [] then best else TopFrom(Better(best, services[0]), services[1..])
  }

  /** highestPriorityUp. */
  method HighestPriorityUp(services: seq<ServiceState>) returns (best: Option<ServiceState>)
    ensures best == TopFrom(None, services)
  {
    best := None;
    for i := 0 to |services|
      invariant TopFrom(best, services[i..]) == TopFrom(None, services)
    {
      assert services[i..][1..] == services[i + 1..];
      var s := services[i];
      if !s.up || s.probeErr {
        continue;
      }
      if best.None? || s.priority > best.value.priority
         || (s.priority == best.value.priority && Ordering.Before(s.name, best.value.name)) {
        best := Some(s);
      }
    }
  }

  datatype Demand = Demand(beneficiary: string, target: u64, trigger: Trigger, notes: seq<Note>)

  /** Whose room it is under reactive policy alone. */
  function ReactiveDemand(cfg: Config, obs: Observation, free: u64, notes: seq<Note>): Demand {
    var floor := cfg.policy.vramFloorMiB;
    if !cfg.policy.reactive then Demand("", 0, NoTrigger, notes + [ReactiveOff])
    else if floor == 0 then Demand("", 0, NoTrigger, notes + [NoFloor])
    else if free >= floor then Demand("", 0, NoTrigger, notes + [AboveFloor])
    else
      var wl := cfg.policy.defaultWorkload;
      var svc := FindService(obs.services, wl);
      if wl != "" && svc.Some? && Alive(svc.value) then Demand(wl, floor, Reactive, notes)
      else
        var notes := if wl != "" then notes + [WorkloadNotUp] else notes;
        match TopFrom(None, obs.services)
        case None => Demand("", 0, NoTrigger, notes + [NobodyUp])
        case Some(top) => Demand(top.name, floor, Reactive, notes)
  }

  /** A claim's own figure, or the policy floor when it names none. */
  function Wanted(cfg: Config, claim: Claim): u64 {
    if claim.needMiB == 0 then cfg.policy.vramFloorMiB else claim.needMiB
  }

  function DemandOf(cfg: Config, obs: Observation, free: u64): Demand {
    match BestClaim(cfg, obs.claims)
    case Some(best) => Demand(best.service, Wanted(cfg, best), Request, [])
    case None =>
      ReactiveDemand(cfg, obs, free, if obs.claims != [] then [ClaimsIgnored] else [])
  }

  /** selectDemand. */
  method SelectDemand(cfg: Config, obs: Observation, free: u64) returns (d: Demand)
    ensures d == DemandOf(cfg, obs, free)
  {
    var floor := cfg.policy.vramFloorMiB;
    var notes: seq<Note> := [];
    if |obs.claims| > 0 {
      var best := PickClaim(cfg, obs.claims);
      if best.Some? {
        var need := best.value.needMiB;
        if need == 0 {
          need := floor;
        }
        return Demand(best.value.service, need, Request, []);
      }
      notes := notes + [ClaimsIgnored];
    }
    if !cfg.policy.reactive {
      return Demand("", 0, NoTrigger, notes + [ReactiveOff]);
    }
    if floor == 0 {
      return Demand("", 0, NoTrigger, notes + [NoFloor]);
    }
    if free >= floor {
      return Demand("", 0, NoTrigger, notes + [AboveFloor]);
    }
    var wl := cfg.policy.defaultWorkload;
    if wl != "" {
      var svc := FindService(obs.services, wl);
      if svc.Some? && svc.value.up && !svc.value.probeErr {
        return Demand(wl, floor, Reactive, notes);
      }
      notes := notes + [WorkloadNotUp];
    }
    var top := HighestPriorityUp(obs.services);
    if top.None? {
      return Demand("", 0, NoTrigger, notes + [NobodyUp]);
    }
    return Demand(top.value.name, floor, Reactive, notes);
  }

  // -------------------------------------------------------- who may be freed

  /** Why s may not be freed for the beneficiary, or None when it may. */
  function PassOver(s: ServiceState, beneficiary: ServiceState): Option<Why> {
    if s.probeErr then Some(ProbeFailed)
    else if !s.up then Some(NotRunning)
    else if s.priority >= beneficiary.priority then Some(NotBelow)
    else if s.heldMiB == 0 then Some(HoldsNothing)
    else if s.cooldownUntil.Some? then Some(CoolingDown)
    else if s.actionInFlight then Some(InFlight)
    else None
  }

  predicate Evictable(s: ServiceState, beneficiary: ServiceState) {
    s.name != beneficiary.name && PassOver(s, beneficiary).None?
  }

  /** Lowest priority first, the largest holder first within one, then by name. */
  predicate CandidateLess(a: ServiceState, b: ServiceState) {
    if a.priority != b.priority then a.priority < b.priority
    else if a.heldMiB != b.heldMiB then a.heldMiB > b.heldMiB
    else Ordering.Before(a.name, b.name)
  }

  function EvictableIn(services: seq<ServiceState>, beneficiary: ServiceState): seq<ServiceState> {
    if services == [] then []
    else
      var rest := EvictableIn(services[1..], beneficiary);
      if Evictable(services[0], beneficiary) then [services[0]] + rest else rest
  }

  function PassedOver(services: seq<ServiceState>, beneficiary: ServiceState): seq<Note> {
    if services == [] then []
    else
      var rest := PassedOver(services[1..], beneficiary);
      var s := services[0];
      if s.name == beneficiary.name || PassOver(s, beneficiary).None? then rest
      else [About(s.name, PassOver(s, beneficiary).value)] + rest
  }

  function Candidates(services: seq<ServiceState>, beneficiary: ServiceState): seq<ServiceState> {
    Sorting.Sort(CandidateLess, EvictableIn(services, beneficiary))
  }

  /** evictionCandidates. */
  method EvictionCandidates(services: seq<ServiceState>, beneficiary: ServiceState)
    returns (candidates: seq<ServiceState>, notes: seq<Note>)
    ensures candidates == Candidates(services, beneficiary)
    ensures notes == PassedOver(services, beneficiary)
  {
    candidates, notes := [], [];
    for i := 0 to |services|
      invariant candidates + EvictableIn(services[i..], beneficiary) == EvictableIn(services, beneficiary)
      invariant notes + PassedOver(services[i..], beneficiary) == PassedOver(services, beneficiary)
    {
      assert services[i..][1..] == services[i + 1..];
      var s := services[i];
      if s.name == beneficiary.name {
        continue;
      }
      match PassOver(s, beneficiary) {
        case Some(why) =>
          notes := notes + [About(s.name, why)];
        case None =>
          candidates := candidates + [s];
      }
    }
    assert candidates == EvictableIn(services, beneficiary);
    candidates := Sorting.Sort(CandidateLess, candidates);
  }

  /** The least invasive action a service permits, or why none is permitted. */
  function ChooseVerb(s: ServiceState): (r: Result<Verb, Why>)
    ensures r == Ok(Stop) ==> s.allowStop && s.stopUnit && !s.canRelease
    ensures r == Ok(Release) ==> s.canRelease
    ensures r.Ok? ==> !(s.idleKnown && !s.idle)
  {
    if s.idleKnown && !s.idle then Err(Busy)
    else if s.canRelease then Ok(Release)
    else if s.stopUnit && s.allowStop then Ok(Stop)
    else if s.stopUnit && !s.allowStop then Err(StopForbidden)
    else Err(NoWayToRelease)
  }

  // ------------------------------------------------------------- the decision

  datatype Walked = Walked(actions: seq<Action>, notes: seq<Note>, freed: u64)

  /** What the loop over the candidates adds, from freed onwards. */
  function Walk(candidates: seq<ServiceState>, needed: u64, freed: u64): Walked {
    if candidates == [] then Walked([], [], freed)
    else
      var c := candidates[0];
      if freed >= needed then
        var rest := Walk(candidates[1..], needed, freed);
        rest.(notes := [About(c.name, TargetMet)] + rest.notes)
      else
        match ChooseVerb(c)
        case Err(why) =>
          var rest := Walk(candidates[1..], needed, freed);
          rest.(notes := [About(c.name, why)] + rest.notes)
        case Ok(verb) =>
          var rest := Walk(candidates[1..], needed, WrapU64(freed + c.heldMiB));
          rest.(actions := [Action(c.name, verb, c.heldMiB)] + rest.actions)
  }

  /** The plan as selectDemand leaves it, before anything is decided. */
  function Opening(cfg: Config, obs: Observation, device: Device): Plan {
    var d := DemandOf(cfg, obs, device.FreeMiB());
    Plan(d.trigger, d.beneficiary, device.FreeMiB(), d.target, device.totalMiB, [], d.notes)
  }

  function Resolve(services: seq<ServiceState>, start: Plan): Plan {
    if start.trigger == NoTrigger then start
    else if start.currentFreeMiB >= start.targetFreeMiB then start.(notes := start.notes + [AlreadyFree])
    else
      match FindService(services, start.beneficiary)
      case None => start.(notes := start.notes + [BeneficiaryNotConfigured], trigger := NoTrigger)
      case Some(benefit) => Freeing(services, start, benefit)
  }

  /** The rest of a plan that has a beneficiary and a shortfall. */
  function Freeing(services: seq<ServiceState>, start: Plan, benefit: ServiceState): Plan
    requires start.currentFreeMiB < start.targetFreeMiB
  {
    var needed := start.targetFreeMiB - start.currentFreeMiB;
    WithWalk(start, PassedOver(services, benefit), Walk(Candidates(services, benefit), needed, 0), needed)
  }

  function DecidePlan(cfg: Config, obs: Observation): Plan {
    match obs.device
    case None => NewPlan(NoTrigger).(notes := [DeviceUnknown])
    case Some(device) => Resolve(obs.services, Opening(cfg, obs, device))
  }

  /** The plan once its walk is over. */
  function WithWalk(plan: Plan, passedOver: seq<Note>, walk: Walked, needed: u64): Plan {
    var shortfall := if walk.freed < needed then [BestEffort] else [];
    plan.(actions := walk.actions, notes := plan.notes + passedOver + walk.notes + shortfall)
  }

  lemma {:induction false} WalkUnfolds(c: seq<ServiceState>, needed: u64, freed: u64)
    ensures c == [] ==> Walk(c, needed, freed) == Walked([], [], freed)
    ensures c != [] && freed >= needed ==>
      var rest := Walk(c[1..], needed, freed);
      Walk(c, needed, freed) == rest.(notes := [About(c[0].name, TargetMet)] + rest.notes)
    ensures c != [] && freed < needed && ChooseVerb(c[0]).Err? ==>
      var rest := Walk(c[1..], needed, freed);
      Walk(c, needed, freed) == rest.(notes := [About(c[0].name, ChooseVerb(c[0]).error)] + rest.notes)
    ensures c != [] && freed < needed && ChooseVerb(c[0]).Ok? ==>
      var rest := Walk(c[1..], needed, WrapU64(freed + c[0].heldMiB));
      Walk(c, needed, freed)
        == rest.(actions := [Action(c[0].name, ChooseVerb(c[0]).value, c[0].heldMiB)] + rest.actions)
  {
  }

  /** The loop of Decide: frees candidates in order until enough is expected. */
  method FreeInOrder(candidates: seq<ServiceState>, needed: u64) returns (walk: Walked)
    ensures walk == Walk(candidates, needed, 0)
  {
    hide ChooseVerb, WrapU64, Walk;
    var actions: seq<Action>, notes: seq<Note>, freed: u64 := [], [], 0;
    ghost var whole := Walk(candidates, needed, 0);
    for i := 0 to |candidates|
      invariant var rest := Walk(candidates[i..], needed, freed);
        actions + rest.actions == whole.actions && notes + rest.notes == whole.notes && rest.freed == whole.freed
    {
      assert candidates[i..][0] == candidates[i] && candidates[i..][1..] == candidates[i + 1..];
      WalkUnfolds(candidates[i..], needed, freed);
      var c := candidates[i];
      if freed >= needed {
        notes := notes + [About(c.name, TargetMet)];
        continue;
      }
      match ChooseVerb(c) {
        case Err(why) =>
          notes := notes + [About(c.name, why)];
        case Ok(verb) =>
          actions := actions + [Action(c.name, verb, c.heldMiB)];
          freed := WrapU64(freed + c.heldMiB);
      }
    }
    WalkUnfolds(candidates[|candidates|..], needed, freed);
    assert actions == whole.actions && notes == whole.notes;
    return Walked(actions, notes, freed);
  }

  method Decide(cfg: Config, obs: Observation) returns (plan: Plan)
    ensures plan == DecidePlan(cfg, obs)
    ensures obs.device.Some? ==>
      plan.currentFreeMiB == obs.device.value.FreeMiB() && plan.totalMiB == obs.device.value.totalMiB
    ensures obs.device.Some? && obs.device.value.FreeMiB() >= plan.targetFreeMiB ==> plan.actions == []
  {
    hide Walk, PassedOver, Candidates, DemandOf;
    plan := NewPlan(NoTrigger);
    if obs.device.None? {
      plan := plan.(notes := plan.notes + [DeviceUnknown]);
      return;
    }
    var device := obs.device.value;
    var free := device.FreeMiB();
    plan := plan.(currentFreeMiB := free, totalMiB := device.totalMiB);
    var d := SelectDemand(cfg, obs, free);
    plan := plan.(notes := plan.notes + d.notes, trigger := d.trigger,
                  beneficiary := d.beneficiary, targetFreeMiB := d.target);
    assert plan == Plan(d.trigger, d.beneficiary, free, d.target, device.totalMiB, [], d.notes);
    if d.trigger == NoTrigger {
      return;
    }
    if free >= d.target {
      plan := plan.(notes := plan.notes + [AlreadyFree]);
      return;
    }
    var needed := d.target - free;
    var found := FindService(obs.services, d.beneficiary);
    if found.None? {
      plan := plan.(notes := plan.notes + [BeneficiaryNotConfigured], trigger := NoTrigger);
      return;
    }
    var candidates, passedOver := EvictionCandidates(obs.services, found.value);
    var walk := FreeInOrder(candidates, needed);
    ghost var before := plan;
    plan := plan.(actions := walk.actions, notes := plan.notes + passedOver + walk.notes);
    if walk.freed < needed {
      plan := plan.(notes := plan.notes + [BestEffort]);
    }
    assert plan.notes == WithWalk(before, passedOver, walk, needed).notes;
  }

  // ------------------------------------------------------ operator overrides

  /** What Evict does about one name: an action, or a note. */
  function EvictOne(services: seq<ServiceState>, name: string): Result<Action, Note> {
    match FindService(services, name)
    case None => Err(About(name, NotInConfig))
    case Some(svc) =>
      if svc.probeErr then Err(About(name, ProbeFailed))
      else if !svc.up then Err(About(name, NotRunning))
      else if svc.actionInFlight then Err(About(name, InFlight))
      else
        match ChooseVerb(svc)
        case Err(why) => Err(About(name, why))
        case Ok(verb) => Ok(Action(name, verb, svc.heldMiB))
  }

  function EvictActions(services: seq<ServiceState>, names: seq<string>): seq<Action> {
    if names == [] then []
    else
      var rest := EvictActions(services, names[1..]);
      match EvictOne(services, names[0])
      case Ok(action) => [action] + rest
      case Err(_) => rest
  }

  function EvictNotes(services: seq<ServiceState>, names: seq<string>): seq<Note> {
    if names == [] then []
    else
      var rest := EvictNotes(services, names[1..]);
      match EvictOne(services, names[0])
      case Ok(_) => rest
      case Err(note) => [note] + rest
  }

  function EvictPlan(obs: Observation, names: seq<string>): Plan {
    match obs.device
    case None => NewPlan(Eviction).(notes := [DeviceUnknown])
    case Some(device) =>
      Plan(Eviction, "", device.FreeMiB(), 0, device.totalMiB,
           EvictActions(obs.services, names), EvictNotes(obs.services, names))
  }

  method Evict(obs: Observation, names: seq<string>) returns (plan: Plan)
    ensures plan == EvictPlan(obs, names)
    ensures obs.device.Some? ==>
      plan.currentFreeMiB == obs.device.value.FreeMiB() && plan.totalMiB == obs.device.value.totalMiB
  {
    plan := NewPlan(Eviction);
    if obs.device.None? {
      plan := plan.(notes := plan.notes + [DeviceUnknown]);
      return;
    }
    plan := plan.(currentFreeMiB := obs.device.value.FreeMiB(), totalMiB := obs.device.value.totalMiB);
    ghost var start := plan;
    for i := 0 to |names|
      invariant plan == start.(actions := plan.actions, notes := plan.notes)
      invariant plan.actions + EvictActions(obs.services, names[i..]) == EvictActions(obs.services, names)
      invariant plan.notes + EvictNotes(obs.services, names[i..]) == EvictNotes(obs.services, names)
    {
      assert names[i..][1..] == names[i + 1..];
      match EvictOne(obs.services, names[i]) {
        case Ok(action) => plan := plan.(actions := plan.actions + [action]);
        case Err(note) => plan := plan.(notes := plan.notes + [note]);
      }
    }
  }

  /** The names other than keep, in the order the services come. */
  function Others(services: seq<ServiceState>, keep: string): seq<string> {
    if services == [] then []
    else
      var rest := Others(services[1..], keep);
      if services[0].name != keep then [services[0].name] + rest else rest
  }

  function EvictAllExceptPlan(obs: Observation, keep: string): Plan {
    if FindService(obs.services, keep).None? then
      match obs.device
      case Some(device) =>
        Plan(Eviction, "", device.FreeMiB(), 0, device.totalMiB, [], [KeptNotInConfig])
      case None => NewPlan(Eviction).(notes := [KeptNotInConfig, DeviceUnknown])
    else
      EvictPlan(obs, Sorting.Sort(Ordering.Before, Others(obs.services, keep))).(beneficiary := keep)
  }

  method EvictAllExcept(obs: Observation, keep: string) returns (plan: Plan)
    ensures plan == EvictAllExceptPlan(obs, keep)
    ensures obs.device.Some? ==>
      plan.currentFreeMiB == obs.device.value.FreeMiB() && plan.totalMiB == obs.device.value.totalMiB
    ensures obs.device.Some? && FindService(obs.services, keep).Some? ==> plan.beneficiary == keep
  {
    if FindService(obs.services, keep).None? {
      plan := NewPlan(Eviction).(notes := [KeptNotInConfig]);
      if obs.device.Some? {
        plan := plan.(currentFreeMiB := obs.device.value.FreeMiB(), totalMiB := obs.device.value.totalMiB);
      } else {
        plan := plan.(notes := plan.notes + [DeviceUnknown]);
      }
      return;
    }
    var names: seq<string> := [];
    for i := 0 to |obs.services|
      invariant names + Others(obs.services[i..], keep) == Others(obs.services, keep)
    {
      assert obs.services[i..][1..] == obs.services[i + 1..];
      if obs.services[i].name != keep {
        names := names + [obs.services[i].name];
      }
    }
    assert names == Others(obs.services, keep);
    names := Sorting.Sort(Ordering.Before, names);
    plan := Evict(obs, names);
    plan := plan.(beneficiary := keep);
  }

  /** The sum of what the actions expect to free, as the loop wraps it. */
  function ExpectedSum(total: u64, actions: seq<Action>): u64
    decreases |actions|
  {
    if actions == [] then total
    else ExpectedSum(WrapU64(total + actions[0].expectFreeMiB), actions[1..])
  }

  function ExpectedFree(plan: Plan): u64 {
    var total := ExpectedSum(plan.currentFreeMiB, plan.actions);
    if plan.totalMiB > 0 && total > plan.totalMiB then plan.totalMiB else total
  }

  /** Plan.ExpectedFreeMiB. */
  method ExpectedFreeMiB(plan: Plan) returns (free: u64)
    ensures free == ExpectedFree(plan)
  {
    var total: u64 := plan.currentFreeMiB;
    for i := 0 to |plan.actions|
      invariant ExpectedSum(total, plan.actions[i..]) == ExpectedSum(plan.currentFreeMiB, plan.actions)
    {
      assert plan.actions[i..][1..] == plan.actions[i + 1..];
      total := WrapU64(total + plan.actions[i].expectFreeMiB);
    }
    if plan.totalMiB > 0 && total > plan.totalMiB {
      return plan.totalMiB;
    }
    return total;
  }
}
