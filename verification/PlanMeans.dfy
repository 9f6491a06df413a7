/** What Decide and Evict answer in every case, in terms of the card, the
    services observed and the configuration alone. */
module PlanMeans {
  import opened Machine
  import opened Domain
  import opened Scheduler
  import opened Greedy
  import opened PlainTerms
  import Accounting
  import OrderIndependence
  import Ordering
  import Sorting

  // ------------------------------------------------------------------- figures

  /** The figures of a plan are the card's own, and nothing is done for a demand
      that the free memory already meets. */
  lemma {:induction false} DecideFigures(cfg: Config, obs: Observation)
    ensures var plan := DecidePlan(cfg, obs);
      && (obs.device.None? ==>
            && plan.trigger == NoTrigger && plan.beneficiary == ""
            && plan.actions == [] && plan.notes == [DeviceUnknown]
            && plan.currentFreeMiB == plan.targetFreeMiB == plan.totalMiB == 0)
      && (obs.device.Some? ==>
            var free := obs.device.value.FreeMiB();
            && plan.currentFreeMiB == free && plan.totalMiB == obs.device.value.totalMiB
            && plan.targetFreeMiB == Asked(cfg, obs).target && plan.beneficiary == Asked(cfg, obs).beneficiary
            && (free >= plan.targetFreeMiB ==> plan.actions == []))
  {
    hide Walk, PassedOver, Candidates, DemandOf;
  }

  /** What becomes of a demand: met already, for nobody observed, or worked on. */
  lemma {:induction false} DecideCases(cfg: Config, obs: Observation)
    requires obs.device.Some?
    ensures var plan, asked, free := DecidePlan(cfg, obs), Asked(cfg, obs), obs.device.value.FreeMiB();
      var wanted := asked.trigger != NoTrigger;
      var served := FindService(obs.services, asked.beneficiary).Some?;
      && (AlreadyFree in plan.notes <==> wanted && free >= asked.target)
      && (BeneficiaryNotConfigured in plan.notes <==> wanted && free < asked.target && !served)
      && plan.trigger == (if wanted && free < asked.target && !served then NoTrigger else asked.trigger)
      && (Contested(cfg, obs) <==> wanted && free < asked.target && served)
      && DeviceUnknown !in plan.notes
  {
    NoVerdict(Asked(cfg, obs).notes);
    DemandNotesMean(cfg, obs, obs.device.value.FreeMiB());
    hide DemandOf, DecidePlan, BelowFloor;
    if Contested(cfg, obs) {
      ContestedCase(cfg, obs);
    } else {
      UncontestedCase(cfg, obs);
    }
  }

  /** The notes of a demand are about why nobody is served. */
  predicate OnDemand(notes: seq<Note>) {
    forall n :: n in notes ==> n in {ClaimsIgnored, ReactiveOff, NoFloor, AboveFloor, WorkloadNotUp, NobodyUp}
  }

  lemma {:induction false} NoVerdict(notes: seq<Note>)
    ensures OnDemand(notes) ==> AlreadyFree !in notes && BeneficiaryNotConfigured !in notes && DeviceUnknown !in notes
  {
  }

  lemma {:induction false} UncontestedCase(cfg: Config, obs: Observation)
    requires obs.device.Some? && !Contested(cfg, obs)
    ensures var plan, asked := DecidePlan(cfg, obs), Asked(cfg, obs);
      if asked.trigger == NoTrigger then plan.notes == asked.notes && plan.trigger == NoTrigger
      else if obs.device.value.FreeMiB() >= asked.target then
        plan.notes == asked.notes + [AlreadyFree] && plan.trigger == asked.trigger
      else plan.notes == asked.notes + [BeneficiaryNotConfigured] && plan.trigger == NoTrigger
  {
    hide Walk, PassedOver, Candidates, DemandOf;
  }

  /** A plan without a beneficiary and a shortfall says nothing of any service. */
  lemma {:induction false} NobodyNoted(cfg: Config, obs: Observation)
    requires !Contested(cfg, obs)
    ensures forall n :: n in DecidePlan(cfg, obs).notes ==> !n.About?
  {
    if obs.device.Some? {
      DemandNotesMean(cfg, obs, obs.device.value.FreeMiB());
      UncontestedCase(cfg, obs);
      NobodyAmong(Asked(cfg, obs).notes);
      hide *;
    } else {
      DecideFigures(cfg, obs);
      hide *;
    }
  }

  lemma {:induction false} NobodyAmong(notes: seq<Note>)
    requires OnDemand(notes)
    ensures forall n :: n in notes ==> !n.About?
  {
  }

  lemma {:induction false} ContestedCase(cfg: Config, obs: Observation)
    requires Contested(cfg, obs) && OnDemand(Asked(cfg, obs).notes)
    ensures var notes := DecidePlan(cfg, obs).notes;
      AlreadyFree !in notes && BeneficiaryNotConfigured !in notes && DeviceUnknown !in notes
    ensures DecidePlan(cfg, obs).trigger == Asked(cfg, obs).trigger
  {
    var b, need := Beneficiary(cfg, obs), Needed(cfg, obs);
    var passed, walk := PassedOver(obs.services, b), Walk(Candidates(obs.services, b), need, 0);
    NotesInParts(cfg, obs);
    NotesOfWalk(Candidates(obs.services, b), need, 0);
    NotesOfPassing(obs.services, b);
    NoVerdict(Asked(cfg, obs).notes);
    hide *;
    var shortfall := if walk.freed < need then [BestEffort] else [];
    NoVerdictInParts(Asked(cfg, obs).notes, passed, walk.notes, shortfall);
  }

  lemma {:induction false} NotesInParts(cfg: Config, obs: Observation)
    requires Contested(cfg, obs)
    ensures var b, need := Beneficiary(cfg, obs), Needed(cfg, obs);
      var walk := Walk(Candidates(obs.services, b), need, 0);
      var shortfall := if walk.freed < need then [BestEffort] else [];
      && DecidePlan(cfg, obs).notes == Asked(cfg, obs).notes + PassedOver(obs.services, b) + walk.notes + shortfall
      && DecidePlan(cfg, obs).trigger == Asked(cfg, obs).trigger
  {
    hide Walk, PassedOver, Candidates, DemandOf;
    ContestedPlan(cfg, obs);
  }

  lemma {:induction false} NoVerdictInParts(asked: seq<Note>, passed: seq<Note>, walk: seq<Note>, shortfall: seq<Note>)
    requires AlreadyFree !in asked && BeneficiaryNotConfigured !in asked && DeviceUnknown !in asked
    requires (forall n :: n in passed ==> n.About?) && (forall n :: n in walk ==> n.About?)
    requires forall n :: n in shortfall ==> n.BestEffort?
    ensures var notes := asked + passed + walk + shortfall;
      AlreadyFree !in notes && BeneficiaryNotConfigured !in notes && DeviceUnknown !in notes
  {
  }

  /** Every note on why nobody is served says so exactly when it is so. */
  lemma {:induction false} DemandNotesMean(cfg: Config, obs: Observation, free: u64)
    ensures var notes, policy := DemandOf(cfg, obs, free).notes, cfg.policy;
      var unclaimed := BestClaim(cfg, obs.claims).None?;
      var wl := FindService(obs.services, policy.defaultWorkload);
      && (ClaimsIgnored in notes <==> unclaimed && obs.claims != [])
      && (ReactiveOff in notes <==> unclaimed && !policy.reactive)
      && (NoFloor in notes <==> unclaimed && policy.reactive && policy.vramFloorMiB == 0)
      && (AboveFloor in notes <==> unclaimed && policy.reactive && 0 < policy.vramFloorMiB <= free)
      && (WorkloadNotUp in notes <==>
            && unclaimed && BelowFloor(cfg, free) && policy.defaultWorkload != ""
            && !(wl.Some? && Alive(wl.value)))
      && (NobodyUp in notes <==> unclaimed && BelowFloor(cfg, free) && forall s :: s in obs.services ==> !Alive(s))
      && OnDemand(notes)
  {
    hide BestClaim, TopFrom;
    OrderIndependence.TopIsTop(None, obs.services);
  }

  /** Without a claim, the floor is defended for the default workload if it is up,
      and otherwise for a service that is up and that none up has priority over. */
  lemma {:induction false} ReactiveMeans(cfg: Config, obs: Observation, free: u64)
    ensures var d, wl := DemandOf(cfg, obs, free), FindService(obs.services, cfg.policy.defaultWorkload);
      && (d.trigger == Reactive <==>
            && (forall c :: c in obs.claims ==> !IsLive(cfg, c)) && BelowFloor(cfg, free)
            && exists s :: s in obs.services && s.up && !s.probeErr)
      && (d.trigger == Reactive && cfg.policy.defaultWorkload != "" && wl.Some? && wl.value.up && !wl.value.probeErr ==>
            d.beneficiary == cfg.policy.defaultWorkload)
      && (d.trigger == Reactive && d.beneficiary != cfg.policy.defaultWorkload ==>
            exists s :: s in obs.services && s.name == d.beneficiary && s.up && !s.probeErr
                        && forall o :: o in obs.services && o.up && !o.probeErr ==> o.priority <= s.priority)
  {
    DemandMeans(cfg, obs, free);
    WinnerMeans(cfg, obs.claims);
    hide DemandOf, BestClaim, BelowFloor;
  }

  // ------------------------------------------------------ every service's answer

  /** A service Decide may free, and does not have to, or has to and cannot, or
      does: which of them depends on what those ahead of it hold. */
  lemma {:induction false} CandidateAnswers(cfg: Config, obs: Observation, i: nat)
    requires Contested(cfg, obs) && NoOverflow(obs.services)
    requires i < |Candidates(obs.services, Beneficiary(cfg, obs))|
    ensures var plan, c := DecidePlan(cfg, obs), Candidates(obs.services, Beneficiary(cfg, obs));
      var ahead := HeldSum(WithVerb(c[..i]));
      && (ahead >= Needed(cfg, obs) ==> About(c[i].name, TargetMet) in plan.notes)
      && (ahead < Needed(cfg, obs) ==>
            && (forall verb :: Permits(c[i], verb) ==> Action(c[i].name, verb, c[i].heldMiB) in plan.actions)
            && (forall why :: Denies(c[i], why) ==> About(c[i].name, why) in plan.notes))
  {
    var b, need := Beneficiary(cfg, obs), Needed(cfg, obs);
    var c := Candidates(obs.services, b);
    CandidateMembers(obs.services, b);
    ContestedNotes(cfg, obs);
    hide DecidePlan, Contested, Beneficiary, Needed, Candidates, Walk, NoOverflow;
    assert HeldSum(c) < TWO_64;
    AheadHoldsLess(c, i);
    WalkIsShortest(c[..i], need);
    WalkAnswersAt(c, need, 0, i);
    VerbsMean(c[i]);
  }

  lemma {:induction false} VerbsMean(s: ServiceState)
    ensures forall verb :: Permits(s, verb) ==> ChooseVerb(s) == Ok(verb)
    ensures forall why :: Denies(s, why) ==> ChooseVerb(s) == Err(why)
  {
  }

  lemma {:induction false} AheadHoldsLess(c: seq<ServiceState>, i: nat)
    requires i <= |c|
    ensures HeldSum(c[..i]) <= HeldSum(c)
  {
    PrefixHoldsLess(c, i);
  }

  lemma {:induction false} ContestedNotes(cfg: Config, obs: Observation)
    requires Contested(cfg, obs)
    ensures var walk := Walk(Candidates(obs.services, Beneficiary(cfg, obs)), Needed(cfg, obs), 0);
      && DecidePlan(cfg, obs).actions == walk.actions
      && (forall n :: n in walk.notes ==> n in DecidePlan(cfg, obs).notes)
      && (forall n :: n in PassedOver(obs.services, Beneficiary(cfg, obs)) ==> n in DecidePlan(cfg, obs).notes)
  {
    hide Walk, PassedOver, Candidates, DemandOf;
    ContestedPlan(cfg, obs);
  }

  /** The walk's answer to candidate i, by what it had freed when it came to it. */
  lemma {:induction false} WalkAnswersAt(c: seq<ServiceState>, needed: u64, freed: u64, i: nat)
    requires i < |c|
    ensures var walk, before := Walk(c, needed, freed), Walk(c[..i], needed, freed).freed;
      if before >= needed then About(c[i].name, TargetMet) in walk.notes
      else match ChooseVerb(c[i])
           case Ok(verb) => Action(c[i].name, verb, c[i].heldMiB) in walk.actions
           case Err(why) => About(c[i].name, why) in walk.notes
    decreases i
  {
    hide ChooseVerb, WrapU64;
    if i > 0 {
      assert c[..i][0] == c[0] && c[..i][1..] == c[1..][..i - 1];
      var next := if freed >= needed || ChooseVerb(c[0]).Err? then freed else WrapU64(freed + c[0].heldMiB);
      WalkAnswersAt(c[1..], needed, next, i - 1);
    }
  }

  /** Who may be freed at all is a candidate, in the order the walk takes them;
      every other service but the beneficiary is noted with what is in the way. */
  lemma {:induction false} WhoMayBeFreed(services: seq<ServiceState>, b: ServiceState)
    ensures forall s :: s in Candidates(services, b) <==> s in services && MayBeFreed(s, b)
    ensures var c := Candidates(services, b); forall i, j :: 0 <= i < j < |c| ==> TakenAhead(c[i], c[j])
    ensures |Candidates(services, b)| == |EvictableIn(services, b)|
  {
    CandidateMembers(services, b);
    CandidatesSorted(services, b);
    var c := Candidates(services, b);
    forall i, j | 0 <= i < j < |c| ensures TakenAhead(c[i], c[j]) {
      assert !CandidateLess(c[j], c[i]);
    }
    assert multiset(c) == multiset(EvictableIn(services, b));
    assert |multiset(c)| == |multiset(EvictableIn(services, b))|;
  }

  lemma {:induction false} PassedOverAnswers(cfg: Config, obs: Observation, s: ServiceState)
    requires Contested(cfg, obs) && s in obs.services && s.name != Beneficiary(cfg, obs).name
    requires !MayBeFreed(s, Beneficiary(cfg, obs))
    ensures exists why :: About(s.name, why) in DecidePlan(cfg, obs).notes && Says(why, s, Beneficiary(cfg, obs))
  {
    var b := Beneficiary(cfg, obs);
    ContestedNotes(cfg, obs);
    hide DecidePlan, Contested, Beneficiary, Needed, Candidates, Walk;
    PassedOverNotes(obs.services, b, s);
  }

  lemma {:induction false} PassedOverNotes(services: seq<ServiceState>, b: ServiceState, s: ServiceState)
    requires s in services && s.name != b.name && !MayBeFreed(s, b)
    ensures exists why :: About(s.name, why) in PassedOver(services, b) && Says(why, s, b)
  {
    if s == services[0] {
      var why := PassOver(s, b).value;
      assert About(s.name, why) in PassedOver(services, b) && Says(why, s, b);
    } else {
      PassedOverNotes(services[1..], b, s);
    }
  }

  /** All in all: each service but the beneficiary is acted on or noted, as often
      as it is observed. */
  lemma {:induction false} DecideCounts(cfg: Config, obs: Observation)
    requires Contested(cfg, obs)
    ensures var plan := DecidePlan(cfg, obs);
      forall n ::
        multiset(Accounting.ActedOn(plan.actions))[n] + multiset(Accounting.NotedIn(plan.notes))[n]
          == if n == Asked(cfg, obs).beneficiary then 0 else multiset(Accounting.NamesOf(obs.services))[n]
  {
    DecideFigures(cfg, obs);
    assert obs.device.Some?;
    hide DecidePlan, Contested, Others, Accounting.ActedOn, Accounting.NotedIn, Accounting.NamesOf;
    Accounting.DecideAccounts(cfg, obs);
    var plan := DecidePlan(cfg, obs);
    Accounting.OthersCount(obs.services, plan.beneficiary);
    CountsAddUp(Accounting.ActedOn(plan.actions), Accounting.NotedIn(plan.notes),
                Others(obs.services, plan.beneficiary));
    hide *;
  }

  lemma {:induction false} CountsAddUp(a: seq<string>, b: seq<string>, both: seq<string>)
    requires multiset(a) + multiset(b) == multiset(both)
    ensures forall n :: multiset(a)[n] + multiset(b)[n] == multiset(both)[n]
  {
    forall n ensures multiset(a)[n] + multiset(b)[n] == multiset(both)[n] {
      assert (multiset(a) + multiset(b))[n] == multiset(a)[n] + multiset(b)[n];
    }
  }

  // ----------------------------------------------------------------- evictions

  /** s can be acted on by an operator: it answered, is up, has no action on it
      and permits one. Cooldowns and priorities do not come into it. */
  predicate MayBeEvicted(s: ServiceState, verb: Verb) {
    !s.probeErr && s.up && !s.actionInFlight && Permits(s, verb)
  }

  /** The first thing in the way of that. */
  predicate EvictSays(why: Why, s: ServiceState) {
    match why
    case ProbeFailed => s.probeErr
    case NotRunning => !s.probeErr && !s.up
    case InFlight => !s.probeErr && s.up && s.actionInFlight
    case _ => !s.probeErr && s.up && !s.actionInFlight && Denies(s, why)
  }

  /** The answer to one name: the action the service permits, or what is in the way. */
  lemma {:induction false} EvictOneMeans(services: seq<ServiceState>, name: string)
    ensures var answer, found := EvictOne(services, name), FindService(services, name);
      && (found.None? ==> answer == Err(About(name, NotInConfig)))
      && (found.Some? ==>
            && (forall verb :: MayBeEvicted(found.value, verb) ==>
                  answer == Ok(Action(name, verb, found.value.heldMiB)))
            && (forall why :: EvictSays(why, found.value) ==> answer == Err(About(name, why)))
            && ((exists verb :: MayBeEvicted(found.value, verb)) || exists why :: EvictSays(why, found.value)))
  {
    var found := FindService(services, name);
    if found.Some? {
      var s := found.value;
      match ChooseVerb(s) {
        case Ok(verb) => assert Permits(s, verb);
        case Err(why) => assert Denies(s, why);
      }
      assert MayBeEvicted(s, Release) || MayBeEvicted(s, Stop) || EvictSays(ProbeFailed, s) || EvictSays(NotRunning, s)
        || EvictSays(InFlight, s) || EvictSays(Busy, s) || EvictSays(StopForbidden, s) || EvictSays(NoWayToRelease, s);
    }
  }

  lemma {:induction false} EvictAnswersIn(services: seq<ServiceState>, names: seq<string>, i: nat)
    requires i < |names|
    ensures match EvictOne(services, names[i])
      case Ok(action) => action in EvictActions(services, names)
      case Err(note) => note in EvictNotes(services, names)
  {
    hide EvictOne;
    if i > 0 {
      EvictAnswersIn(services, names[1..], i - 1);
    }
  }

  /** The figures of an eviction are the card's own, and on a card that cannot be
      read nothing is done. */
  lemma {:induction false} EvictFigures(obs: Observation, names: seq<string>)
    ensures var plan := EvictPlan(obs, names);
      && plan.trigger == Eviction && plan.beneficiary == "" && plan.targetFreeMiB == 0
      && (obs.device.None? ==> plan.actions == [] && plan.notes == [DeviceUnknown]
                               && plan.currentFreeMiB == plan.totalMiB == 0)
      && (obs.device.Some? ==>
            plan.currentFreeMiB == obs.device.value.FreeMiB() && plan.totalMiB == obs.device.value.totalMiB)
  {
  }

  /** On a readable card every name is answered: acted on by the verb its service
      permits when it may be, and otherwise noted with what is in the way. */
  lemma {:induction false} EvictAnswers(obs: Observation, names: seq<string>, i: nat)
    requires obs.device.Some? && i < |names|
    ensures Answered(EvictPlan(obs, names), obs.services, names[i])
  {
    EvictOneMeans(obs.services, names[i]);
    EvictAnswersIn(obs.services, names, i);
    hide EvictOne;
  }

  /** Each action is the answer to the name at its place, and the places ascend. */
  ghost predicate InOrder(services: seq<ServiceState>, names: seq<string>, actions: seq<Action>, at: seq<nat>) {
    && |at| == |actions|
    && (forall i, j :: 0 <= i < j < |at| ==> at[i] < at[j])
    && (forall i :: 0 <= i < |at| ==> at[i] < |names| && EvictOne(services, names[at[i]]) == Ok(actions[i]))
  }

  /** Each action is the answer to a name, and they come in the order of the names. */
  lemma {:induction false} EvictOrder(services: seq<ServiceState>, names: seq<string>) returns (at: seq<nat>)
    ensures InOrder(services, names, EvictActions(services, names), at)
  {
    if names == [] {
      at := [];
    } else {
      hide InOrder, EvictOne, EvictActions;
      at := EvictOrder(services, names[1..]);
      EvictActionsStep(services, names);
      var actions := EvictActions(services, names[1..]);
      OrderShifts(services, names, actions, at);
      at := OneLater(at);
      if EvictOne(services, names[0]).Ok? {
        OrderGrows(services, names, actions, at);
        at := [0] + at;
      }
    }
  }

  lemma {:induction false} OrderShifts(
    services: seq<ServiceState>, names: seq<string>, actions: seq<Action>, at: seq<nat>)
    requires names != [] && InOrder(services, names[1..], actions, at)
    ensures InOrder(services, names, actions, OneLater(at))
  {
    hide EvictOne;
    assert forall i :: 0 <= i < |at| ==> names[1..][at[i]] == names[OneLater(at)[i]];
  }

  lemma {:induction false} OrderGrows(
    services: seq<ServiceState>, names: seq<string>, actions: seq<Action>, at: seq<nat>)
    requires names != [] && InOrder(services, names, actions, at) && EvictOne(services, names[0]).Ok?
    requires forall i :: 0 <= i < |at| ==> at[i] > 0
    ensures InOrder(services, names, [EvictOne(services, names[0]).value] + actions, [0] + at)
  {
    hide EvictOne;
  }

  function OneLater(at: seq<nat>): (r: seq<nat>)
    ensures |r| == |at|
    ensures forall i :: 0 <= i < |r| ==> r[i] == at[i] + 1
  {
    seq(|at|, i requires 0 <= i < |at| => at[i] + 1)
  }

  lemma {:induction false} EvictActionsStep(services: seq<ServiceState>, names: seq<string>)
    requires names != []
    ensures var first, rest := EvictOne(services, names[0]), EvictActions(services, names[1..]);
      EvictActions(services, names) == if first.Ok? then [first.value] + rest else rest
  {
  }

  /** `evict --all-except` on a readable card with the kept service observed: each
      other service is acted on or noted, as often as it is observed, and the
      kept service is the beneficiary. */
  lemma {:induction false} EvictAllExceptAccounts(obs: Observation, keep: string)
    requires obs.device.Some? && FindService(obs.services, keep).Some?
    ensures var plan := EvictAllExceptPlan(obs, keep);
      && plan.trigger == Eviction && plan.beneficiary == keep && plan.targetFreeMiB == 0
      && plan.currentFreeMiB == obs.device.value.FreeMiB() && plan.totalMiB == obs.device.value.totalMiB
      && (forall n ::
            multiset(Accounting.ActedOn(plan.actions))[n] + multiset(Accounting.NotedIn(plan.notes))[n]
              == if n == keep then 0 else multiset(Accounting.NamesOf(obs.services))[n])
  {
    var others := Others(obs.services, keep);
    var names := Sorting.Sort(Ordering.Before, others);
    var actions, notes := EvictActions(obs.services, names), EvictNotes(obs.services, names);
    assert EvictAllExceptPlan(obs, keep) == EvictPlan(obs, names).(beneficiary := keep);
    assert EvictPlan(obs, names).actions == actions && EvictPlan(obs, names).notes == notes;
    EvictFigures(obs, names);
    Accounting.EvictAccounts(obs.services, names);
    Accounting.OthersCount(obs.services, keep);
    hide *;
    assert multiset(names) == multiset(others);
    CountsAddUp(Accounting.ActedOn(actions), Accounting.NotedIn(notes), others);
  }

  /** What an eviction of the service of this name comes to in the plan. */
  ghost predicate Answered(plan: Plan, services: seq<ServiceState>, name: string) {
    var found := FindService(services, name);
    && (found.None? ==> About(name, NotInConfig) in plan.notes)
    && (found.Some? ==>
          && (forall verb :: MayBeEvicted(found.value, verb) ==>
                Action(name, verb, found.value.heldMiB) in plan.actions)
          && (forall why :: EvictSays(why, found.value) ==> About(name, why) in plan.notes))
  }

  /** The actions come in the order of the names. */
  lemma {:induction false} EvictAllExceptOrder(obs: Observation, keep: string)
    ensures var actions := EvictAllExceptPlan(obs, keep).actions;
      forall i, j :: 0 <= i < j < |actions| ==> !Ordering.Before(actions[j].service, actions[i].service)
  {
    var others := Others(obs.services, keep);
    var names := Sorting.Sort(Ordering.Before, others);
    hide Others, EvictActions, EvictNotes, Sorting.Sort, Ordering.Before;
    NamesInOrder(obs.services, names, others);
    var actions := EvictAllExceptPlan(obs, keep).actions;
    assert actions == [] || actions == EvictActions(obs.services, names);
  }

  /** Each other service has the answer it would have to an eviction of its own. */
  lemma {:induction false} EvictAllExceptAnswers(obs: Observation, keep: string, s: ServiceState)
    requires obs.device.Some? && FindService(obs.services, keep).Some?
    requires s in obs.services && s.name != keep
    ensures Answered(EvictAllExceptPlan(obs, keep), obs.services, s.name)
  {
    var others := Others(obs.services, keep);
    var names := Sorting.Sort(Ordering.Before, others);
    var plan := EvictPlan(obs, names);
    assert EvictAllExceptPlan(obs, keep) == plan.(beneficiary := keep);
    OtherIsNamed(obs.services, keep, s);
    hide *;
    assert multiset(names) == multiset(others);
    assert s.name in multiset(names);
    var i :| 0 <= i < |names| && names[i] == s.name;
    EvictAnswers(obs, names, i);
    AnsweredAlike(plan, plan.(beneficiary := keep), obs.services, s.name);
  }

  lemma {:induction false} AnsweredAlike(a: Plan, b: Plan, services: seq<ServiceState>, name: string)
    requires Answered(a, services, name) && a.actions == b.actions && a.notes == b.notes
    ensures Answered(b, services, name)
  {
  }

  lemma {:induction false} OtherIsNamed(services: seq<ServiceState>, keep: string, s: ServiceState)
    requires s in services && s.name != keep
    ensures s.name in Others(services, keep)
  {
    if s != services[0] {
      OtherIsNamed(services[1..], keep, s);
    }
  }

  lemma {:induction false} NamesInOrder(services: seq<ServiceState>, names: seq<string>, others: seq<string>)
    requires names == Sorting.Sort(Ordering.Before, others)
    ensures var actions := EvictActions(services, names);
      forall i, j :: 0 <= i < j < |actions| ==> !Ordering.Before(actions[j].service, actions[i].service)
  {
    Ordering.BeforeIsStrictTotalOrder();
    Sorting.SortSorted(Ordering.Before, others);
    var actions := EvictActions(services, names);
    var at := EvictOrder(services, names);
    forall i | 0 <= i < |actions| ensures actions[i].service == names[at[i]] {
      Accounting.AnswerNamesIt(services, names[at[i]]);
    }
  }

  /** On a card that cannot be read, or without the kept service, nothing is done. */
  lemma {:induction false} EvictAllExceptRefuses(obs: Observation, keep: string)
    requires obs.device.None? || FindService(obs.services, keep).None?
    ensures var plan := EvictAllExceptPlan(obs, keep);
      && plan.actions == [] && plan.trigger == Eviction && plan.targetFreeMiB == 0
      && (DeviceUnknown in plan.notes <==> obs.device.None?)
      && (KeptNotInConfig in plan.notes <==> FindService(obs.services, keep).None?)
      && (obs.device.Some? ==>
            plan.currentFreeMiB == obs.device.value.FreeMiB() && plan.totalMiB == obs.device.value.totalMiB)
  {
  }
}
