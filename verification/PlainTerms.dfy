/** What a plan means, in terms of the figures observed and nothing else: who it
    is for, who is freed in what order, and why the others are not. */
module PlainTerms {
  import opened Machine
  import opened Domain
  import opened Scheduler
  import opened Greedy
  import OrderIndependence
  import Ordering
  import Sorting

  // ------------------------------------------------------------------- claims

  predicate IsLive(cfg: Config, c: Claim) {
    LookUp(cfg, c.service).Some?
  }

  function PriorityOf(cfg: Config, c: Claim): int
    requires IsLive(cfg, c)
  {
    LookUp(cfg, c.service).value.priority
  }

  /** No claim on a configured service has a higher priority than the winner's;
      among equals none was made earlier; among those none sorts before it. */
  lemma {:induction false} WinnerMeans(cfg: Config, claims: seq<Claim>)
    ensures BestClaim(cfg, claims).None? <==> forall c :: c in claims ==> !IsLive(cfg, c)
    ensures BestClaim(cfg, claims).Some? ==>
      var w := BestClaim(cfg, claims).value;
      && w in claims && IsLive(cfg, w)
      && forall c :: c in claims && IsLive(cfg, c) ==>
          && PriorityOf(cfg, c) <= PriorityOf(cfg, w)
          && (PriorityOf(cfg, c) == PriorityOf(cfg, w) ==>
                c.at >= w.at && (c.at == w.at ==> !Ordering.Before(c.service, w.service)))
  {
    hide BestClaim;
    OrderIndependence.BestClaimIsFirst(cfg, claims);
    OrderIndependence.LiveMembers(cfg, claims);
    var live := Live(cfg, claims);
    if live == [] {
      forall c | c in claims ensures !IsLive(cfg, c) {
        assert IsLive(cfg, c) ==> Scored(c, PriorityOf(cfg, c)) in live;
      }
    } else {
      var x :| OrderIndependence.IsFirst(x, live) && BestClaim(cfg, claims) == Some(x.claim);
      forall c | c in claims && IsLive(cfg, c) ensures !ScoredLess(Scored(c, PriorityOf(cfg, c)), x) {
        assert Scored(c, PriorityOf(cfg, c)) in live;
      }
    }
  }

  // ------------------------------------------------------------------- demand

  /** The service reactive policy defends, when one is up. */
  predicate Defended(cfg: Config, obs: Observation, name: string) {
    var wl := FindService(obs.services, cfg.policy.defaultWorkload);
    if cfg.policy.defaultWorkload != "" && wl.Some? && Alive(wl.value) then name == cfg.policy.defaultWorkload
    else exists s :: s in obs.services && s.name == name && Alive(s) && TopOf(obs.services, s)
  }

  predicate TopOf(services: seq<ServiceState>, s: ServiceState) {
    forall o :: o in services && Alive(o) ==>
      o.priority < s.priority || (o.priority == s.priority && !Ordering.Before(o.name, s.name))
  }

  /** Reactive policy has something to do: it is on, has a floor, and the card is below it. */
  predicate BelowFloor(cfg: Config, free: u64) {
    cfg.policy.reactive && cfg.policy.vramFloorMiB > 0 && free < cfg.policy.vramFloorMiB
  }

  /** A claim on a configured service outranks reactive policy. Otherwise the
      floor is defended exactly when reactive mode is on, there is a floor, the
      card is below it and somebody is up to defend it for. */
  lemma {:induction false} DemandMeans(cfg: Config, obs: Observation, free: u64)
    ensures var d, best := DemandOf(cfg, obs, free), BestClaim(cfg, obs.claims);
      && (d.trigger == Request <==> exists c :: c in obs.claims && IsLive(cfg, c))
      && (d.trigger == Request ==>
            && best.Some? && d.beneficiary == best.value.service
            && d.target == if best.value.needMiB == 0 then cfg.policy.vramFloorMiB else best.value.needMiB)
      && (d.trigger == Reactive <==> best.None? && BelowFloor(cfg, free) && exists s :: s in obs.services && Alive(s))
      && (d.trigger == Reactive ==> Defended(cfg, obs, d.beneficiary) && d.target == cfg.policy.vramFloorMiB)
      && (d.trigger == NoTrigger || d.trigger == Request || d.trigger == Reactive)
  {
    WinnerMeans(cfg, obs.claims);
    hide BestClaim, TopFrom;
    OrderIndependence.TopIsTop(None, obs.services);
    var top := TopFrom(None, obs.services);
    if top.Some? {
      forall o | o in obs.services && Alive(o)
        ensures o.priority < top.value.priority
             || (o.priority == top.value.priority && !Ordering.Before(o.name, top.value.name))
      {
        assert !Outranks(o, top.value);
      }
    }
  }

  // ------------------------------------------------------------------ actions

  /** s may be freed for the beneficiary, spelled out. */
  predicate MayBeFreed(s: ServiceState, beneficiary: ServiceState) {
    && s.name != beneficiary.name && !s.probeErr && s.up && s.priority < beneficiary.priority
    && s.heldMiB > 0 && s.cooldownUntil.None? && !s.actionInFlight
  }

  /** verb is what s permits, spelled out. */
  predicate Permits(s: ServiceState, verb: Verb) {
    && !(s.idleKnown && !s.idle)
    && (verb == Release <==> s.canRelease)
    && (verb == Stop ==> s.stopUnit && s.allowStop && !s.canRelease)
  }

  predicate TakenAhead(a: ServiceState, b: ServiceState) {
    || a.priority < b.priority
    || (a.priority == b.priority && a.heldMiB > b.heldMiB)
    || (a.priority == b.priority && a.heldMiB == b.heldMiB && !Ordering.Before(b.name, a.name))
  }

  /** The services the walk takes, in the order it takes them. */
  function Taken(c: seq<ServiceState>, needed: u64, freed: u64): (r: seq<ServiceState>)
    ensures forall x :: x in r ==> x in c && ChooseVerb(x).Ok?
    decreases |c|
  {
    if c == [] then []
    else if freed >= needed || ChooseVerb(c[0]).Err? then Taken(c[1..], needed, freed)
    else [c[0]] + Taken(c[1..], needed, WrapU64(freed + c[0].heldMiB))
  }

  lemma {:induction false} WalkTakes(c: seq<ServiceState>, needed: u64, freed: u64)
    requires Sorting.Sorted(CandidateLess, c)
    ensures Walk(c, needed, freed).actions == ActionsOn(Taken(c, needed, freed))
    ensures Sorting.Sorted(CandidateLess, Taken(c, needed, freed))
    decreases |c|
  {
    if c != [] {
      hide CandidateLess, WrapU64;
      var next := if freed >= needed || ChooseVerb(c[0]).Err? then freed else WrapU64(freed + c[0].heldMiB);
      WalkTakes(c[1..], needed, next);
      var rest := Taken(c[1..], needed, next);
      assert ([c[0]] + rest)[1..] == rest;
      forall j | 0 <= j < |rest| ensures !CandidateLess(rest[j], c[0]) {
        assert rest[j] in c[1..];
      }
    }
  }

  /** Decide's actions, one for one with services that may be freed, by the verb
      each permits, lowest priority first, the largest holder first within a
      priority, then by name. Nothing is asked of how much they hold. */
  lemma {:induction false} ActionsMean(cfg: Config, obs: Observation)
    returns (freed: seq<ServiceState>)
    requires Contested(cfg, obs)
    ensures var plan := DecidePlan(cfg, obs);
      && |freed| == |plan.actions|
      && (forall i :: 0 <= i < |freed| ==>
            && freed[i] in obs.services && MayBeFreed(freed[i], Beneficiary(cfg, obs))
            && plan.actions[i].service == freed[i].name && plan.actions[i].expectFreeMiB == freed[i].heldMiB
            && Permits(freed[i], plan.actions[i].verb))
      && (forall i, j :: 0 <= i < j < |freed| ==> TakenAhead(freed[i], freed[j]))
  {
    hide DecidePlan, Walk, Contested, Beneficiary, Needed, Candidates;
    var b, c := Beneficiary(cfg, obs), Candidates(obs.services, Beneficiary(cfg, obs));
    ContestedPlan(cfg, obs);
    CandidatesEvictable(obs.services, b);
    CandidatesSorted(obs.services, b);
    WalkTakes(c, Needed(cfg, obs), 0);
    freed := Taken(c, Needed(cfg, obs), 0);
    forall i | 0 <= i < |freed| ensures freed[i] in obs.services && MayBeFreed(freed[i], b)
      && Permits(freed[i], DecidePlan(cfg, obs).actions[i].verb)
    {
      assert freed[i] in freed;
      assert DecidePlan(cfg, obs).actions[i] == ActionOn(freed[i]);
    }
    forall i, j | 0 <= i < j < |freed| ensures TakenAhead(freed[i], freed[j]) {
      assert !CandidateLess(freed[j], freed[i]);
    }
  }

  lemma {:induction false} CandidatesSorted(services: seq<ServiceState>, b: ServiceState)
    ensures Sorting.Sorted(CandidateLess, Candidates(services, b))
  {
    CandidateOrder();
    Sorting.SortSorted(CandidateLess, EvictableIn(services, b));
  }

  // -------------------------------------------------------------------- notes

  /** What a note says of a service, spelled out: the first thing in the way of
      freeing it. */
  predicate Says(why: Why, s: ServiceState, beneficiary: ServiceState) {
    var below := s.up && !s.probeErr && s.priority < beneficiary.priority;
    match why
    case ProbeFailed => s.probeErr
    case NotRunning => !s.probeErr && !s.up
    case NotBelow => !s.probeErr && s.up && s.priority >= beneficiary.priority
    case HoldsNothing => below && s.heldMiB == 0
    case CoolingDown => below && s.heldMiB > 0 && s.cooldownUntil.Some?
    case InFlight => below && s.heldMiB > 0 && s.cooldownUntil.None? && s.actionInFlight
    case TargetMet => MayBeFreed(s, beneficiary)
    case NotInConfig => false
    case _ => MayBeFreed(s, beneficiary) && Denies(s, why)
  }

  /** Why s permits no action, spelled out. */
  predicate Denies(s: ServiceState, why: Why) {
    match why
    case Busy => s.idleKnown && !s.idle
    case StopForbidden => !(s.idleKnown && !s.idle) && !s.canRelease && s.stopUnit && !s.allowStop
    case NoWayToRelease => !(s.idleKnown && !s.idle) && !s.canRelease && !s.stopUnit
    case _ => false
  }

  /** The verb chosen is the one permitted, and the reason given for none is so. */
  lemma {:induction false} VerbMeans(s: ServiceState, verb: Verb, why: Why)
    ensures ChooseVerb(s) == Ok(verb) <==> Permits(s, verb)
    ensures ChooseVerb(s) == Err(why) <==> Denies(s, why)
  {
  }

  ghost predicate TrueNote(n: Note, services: seq<ServiceState>, beneficiary: ServiceState) {
    n.About? ==>
      exists s :: s in services && s.name == n.service && s.name != beneficiary.name && Says(n.why, s, beneficiary)
  }

  lemma {:induction false} PassedOverIsTrue(services: seq<ServiceState>, b: ServiceState)
    ensures forall n :: n in PassedOver(services, b) ==> TrueNote(n, services, b)
  {
    if services != [] {
      PassedOverIsTrue(services[1..], b);
      forall n | n in PassedOver(services, b) ensures TrueNote(n, services, b) {
        if n in PassedOver(services[1..], b) {
          assert TrueNote(n, services[1..], b);
        } else {
          assert services[0] in services;
        }
      }
    }
  }

  lemma {:induction false} WalkNotesAreTrue(c: seq<ServiceState>, b: ServiceState, needed: u64, freed: u64)
    requires forall s :: s in c ==> Evictable(s, b)
    ensures forall n :: n in Walk(c, needed, freed).notes ==> TrueNote(n, c, b)
    decreases |c|
  {
    if c != [] {
      var next := if freed >= needed || ChooseVerb(c[0]).Err? then freed else WrapU64(freed + c[0].heldMiB);
      WalkNotesAreTrue(c[1..], b, needed, next);
      var rest := Walk(c[1..], needed, next).notes;
      forall n | n in Walk(c, needed, freed).notes ensures TrueNote(n, c, b) {
        if n in rest {
          assert TrueNote(n, c[1..], b);
        } else {
          assert c[0] in c && Evictable(c[0], b);
        }
      }
    }
  }

  /** Every note Decide writes about a service says something true of it. */
  lemma {:induction false} NotesAreTrue(cfg: Config, obs: Observation)
    requires Contested(cfg, obs)
    ensures forall n :: n in DecidePlan(cfg, obs).notes ==> TrueNote(n, obs.services, Beneficiary(cfg, obs))
  {
    var b, need := Beneficiary(cfg, obs), Needed(cfg, obs);
    var c := Candidates(obs.services, b);
    hide *;
    DecideNotes(cfg, obs);
    PassedOverIsTrue(obs.services, b);
    CandidatesEvictable(obs.services, b);
    WalkNotesAreTrue(c, b, need, 0);
    forall n | n in DecidePlan(cfg, obs).notes ensures TrueNote(n, obs.services, b) {
      if n in Walk(c, need, 0).notes {
        TrueOfMore(n, c, obs.services, b);
      } else if n !in PassedOver(obs.services, b) {
        TrueIfAboutNobody(n, obs.services, b);
      }
    }
  }

  lemma {:induction false} DecideNotes(cfg: Config, obs: Observation)
    requires Contested(cfg, obs)
    ensures forall n :: n in DecidePlan(cfg, obs).notes ==>
      || !n.About? || n in PassedOver(obs.services, Beneficiary(cfg, obs))
      || n in Walk(Candidates(obs.services, Beneficiary(cfg, obs)), Needed(cfg, obs), 0).notes
  {
    hide Walk, PassedOver, Candidates, DemandOf;
    ContestedPlan(cfg, obs);
    NotesOfDemand(cfg, obs, obs.device.value.FreeMiB());
  }

  lemma {:induction false} CandidatesEvictable(services: seq<ServiceState>, b: ServiceState)
    ensures forall s :: s in Candidates(services, b) ==> s in services && Evictable(s, b)
  {
    CandidateMembers(services, b);
  }

  lemma {:induction false} TrueOfMore(n: Note, some: seq<ServiceState>, all: seq<ServiceState>, b: ServiceState)
    requires TrueNote(n, some, b) && forall s :: s in some ==> s in all
    ensures TrueNote(n, all, b)
  {
  }

  lemma {:induction false} TrueIfAboutNobody(n: Note, services: seq<ServiceState>, b: ServiceState)
    requires !n.About?
    ensures TrueNote(n, services, b)
  {
  }

  // --------------------------------------------------------------- evictions

  /** An eviction only ever asks a named, observed service that answered, is up
      and has no action on it, by the verb it permits. */
  lemma {:induction false} EvictionsMean(services: seq<ServiceState>, names: seq<string>)
    ensures forall a :: a in EvictActions(services, names) ==>
      && a.service in names
      && exists s :: s in services && s.name == a.service && !s.probeErr && s.up && !s.actionInFlight
           && ChooseVerb(s) == Ok(a.verb) && Permits(s, a.verb) && a.expectFreeMiB == s.heldMiB
  {
    if names != [] {
      EvictionsMean(services, names[1..]);
      var rest := EvictActions(services, names[1..]);
      forall a | a in EvictActions(services, names)
        ensures a.service in names
        ensures exists s :: s in services && s.name == a.service && !s.probeErr && s.up && !s.actionInFlight
                  && ChooseVerb(s) == Ok(a.verb) && Permits(s, a.verb) && a.expectFreeMiB == s.heldMiB
      {
        if a !in rest {
          var s := FindService(services, names[0]).value;
          assert s in services;
        }
      }
    }
  }
}
