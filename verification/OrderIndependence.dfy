/** Decide's answer never depends on the order services or claims come in. */
module OrderIndependence {
  import opened Machine
  import opened Domain
  import opened Scheduler
  import opened Greedy
  import Ordering
  import Sorting

  // ------------------------------------------------------------------ claims

  lemma {:induction false} LiveMembers(cfg: Config, claims: seq<Claim>)
    ensures forall x :: x in Live(cfg, claims) <==>
      x.claim in claims && LookUp(cfg, x.claim.service).Some?
      && x.priority == LookUp(cfg, x.claim.service).value.priority
  {
    if claims != [] {
      LiveMembers(cfg, claims[1..]);
    }
  }

  ghost predicate IsFirst(x: Scored, live: seq<Scored>) {
    x in live && forall y :: y in live ==> !ScoredLess(y, x)
  }

  /** BestClaim is the one live claim that no other live claim is ahead of. */
  lemma {:induction false} BestClaimIsFirst(cfg: Config, claims: seq<Claim>)
    ensures BestClaim(cfg, claims).None? <==> Live(cfg, claims) == []
    ensures BestClaim(cfg, claims).Some? ==>
      exists x :: IsFirst(x, Live(cfg, claims)) && BestClaim(cfg, claims) == Some(x.claim)
  {
    var live := Live(cfg, claims);
    var sorted := Sorting.Sort(ScoredLess, live);
    ScoredOrder();
    Sorting.SortSorted(ScoredLess, live);
    Sorting.SameMembers(live, sorted);
    if sorted != [] {
      assert sorted[0] in live;
      forall y | y in live ensures !ScoredLess(y, sorted[0]) {
        assert y in sorted;
      }
      assert IsFirst(sorted[0], live);
    }
  }

  lemma {:induction false} BestClaimForgetsOrder(cfg: Config, a: seq<Claim>, b: seq<Claim>)
    requires DistinctClaims(a)
    requires forall c :: c in a <==> c in b
    ensures BestClaim(cfg, a) == BestClaim(cfg, b)
  {
    LiveMembers(cfg, a);
    LiveMembers(cfg, b);
    BestClaimIsFirst(cfg, a);
    BestClaimIsFirst(cfg, b);
    var la, lb := Live(cfg, a), Live(cfg, b);
    assert forall x :: x in la <==> x in lb;
    assert la != [] ==> la[0] in lb;
    assert lb != [] ==> lb[0] in la;
    if la != [] {
      var x :| IsFirst(x, la) && BestClaim(cfg, a) == Some(x.claim);
      var z :| IsFirst(z, lb) && BestClaim(cfg, b) == Some(z.claim);
      Ordering.BeforeTotal(x.claim.service, z.claim.service);
      assert x.claim in a && z.claim in a;
    }
  }

  // ---------------------------------------------------------------- services

  lemma {:induction false} TopIsTop(best: Option<ServiceState>, s: seq<ServiceState>)
    requires best.Some? ==> Alive(best.value)
    ensures var top := TopFrom(best, s);
      && (top.None? <==> best.None? && forall x :: x in s ==> !Alive(x))
      && (top.Some? ==> Alive(top.value) && (top == best || top.value in s))
      && (top.Some? && best.Some? ==> !Outranks(best.value, top.value))
      && (top.Some? ==> forall x :: x in s && Alive(x) ==> !Outranks(x, top.value))
    decreases |s|
  {
    if s == [] {
      if best.Some? {
        Ordering.BeforeIrreflexive(best.value.name);
      }
    } else {
      var next := Better(best, s[0]);
      TopIsTop(next, s[1..]);
      var top := TopFrom(next, s[1..]);
      if top.Some? {
        StillBelow(best, s[0], top.value);
      }
    }
  }

  /** What the scan drops stays below what it ends with. */
  lemma {:induction false} StillBelow(best: Option<ServiceState>, x: ServiceState, top: ServiceState)
    requires best.Some? || Alive(x) ==> Better(best, x).Some? && !Outranks(Better(best, x).value, top)
    ensures best.Some? ==> !Outranks(best.value, top)
    ensures Alive(x) ==> !Outranks(x, top)
  {
    Ordering.BeforeIsStrictTotalOrder();
  }

  lemma {:induction false} TopForgetsOrder(a: seq<ServiceState>, b: seq<ServiceState>)
    requires DistinctNames(a)
    requires forall x :: x in a <==> x in b
    ensures TopFrom(None, a) == TopFrom(None, b)
  {
    TopIsTop(None, a);
    TopIsTop(None, b);
    if TopFrom(None, a).Some? {
      var x, y := TopFrom(None, a).value, TopFrom(None, b).value;
      Ordering.BeforeTotal(x.name, y.name);
    }
  }

  lemma {:induction false} FindForgetsOrder(a: seq<ServiceState>, b: seq<ServiceState>, name: string)
    requires DistinctNames(a)
    requires forall x :: x in a <==> x in b
    ensures FindService(a, name) == FindService(b, name)
  {
  }

  lemma {:induction false} CandidatesForgetOrder(a: seq<ServiceState>, b: seq<ServiceState>, benefit: ServiceState)
    requires DistinctNames(a) && DistinctNames(b)
    requires forall x :: x in a <==> x in b
    ensures Candidates(a, benefit) == Candidates(b, benefit)
  {
    var ca, cb := Candidates(a, benefit), Candidates(b, benefit);
    CandidateOrder();
    CandidateMembers(a, benefit);
    CandidateMembers(b, benefit);
    CandidatesDistinct(a, benefit);
    CandidatesDistinct(b, benefit);
    Sorting.SortSorted(CandidateLess, EvictableIn(a, benefit));
    Sorting.SortSorted(CandidateLess, EvictableIn(b, benefit));
    forall x, y | x in ca && y in ca && x != y ensures CandidateLess(x, y) || CandidateLess(y, x) {
      Ordering.BeforeTotal(x.name, y.name);
    }
    Sorting.SortedSameMembers(CandidateLess, ca, cb);
  }

  lemma {:induction false} CandidatesDistinct(s: seq<ServiceState>, benefit: ServiceState)
    requires DistinctNames(s)
    ensures DistinctNames(Candidates(s, benefit))
  {
    SubsequencesStayDistinct(s, benefit);
    RearrangedStaysDistinct(EvictableIn(s, benefit), Candidates(s, benefit));
  }

  // -------------------------------------------------------------- the answer

  lemma {:induction false} DemandForgetsOrder(cfg: Config, a: Observation, b: Observation, free: u64)
    requires DistinctNames(a.services)
    requires forall s :: s in a.services <==> s in b.services
    requires BestClaim(cfg, a.claims) == BestClaim(cfg, b.claims)
    requires a.claims == [] <==> b.claims == []
    ensures DemandOf(cfg, a, free) == DemandOf(cfg, b, free)
  {
    hide BestClaim, TopFrom;
    TopForgetsOrder(a.services, b.services);
    FindForgetsOrder(a.services, b.services, cfg.policy.defaultWorkload);
  }

  /** With distinct service names and at most one claim per service, every
      permutation of the services and of the claims gives the same trigger, the
      same beneficiary, the same target and the same actions in the same order. */
  lemma {:induction false} DecideForgetsOrder(cfg: Config, a: Observation, b: Observation)
    requires a.device == b.device
    requires multiset(a.services) == multiset(b.services) && DistinctNames(a.services)
    requires multiset(a.claims) == multiset(b.claims) && DistinctClaims(a.claims)
    ensures var p, q := DecidePlan(cfg, a), DecidePlan(cfg, b);
      && p.trigger == q.trigger && p.beneficiary == q.beneficiary
      && p.currentFreeMiB == q.currentFreeMiB && p.targetFreeMiB == q.targetFreeMiB
      && p.actions == q.actions
  {
    hide DemandOf, Walk, PassedOver, Candidates, BestClaim;
    Sorting.SameMembers(a.services, b.services);
    Sorting.SameMembers(a.claims, b.claims);
    RearrangedStaysDistinct(a.services, b.services);
    BestClaimForgetsOrder(cfg, a.claims, b.claims);
    if a.device.Some? {
      var device := a.device.value;
      DemandForgetsOrder(cfg, a, b, device.FreeMiB());
      var start := Opening(cfg, a, device);
      assert start == Opening(cfg, b, device);
      FindForgetsOrder(a.services, b.services, start.beneficiary);
      match FindService(a.services, start.beneficiary) {
        case None =>
        case Some(benefit) => CandidatesForgetOrder(a.services, b.services, benefit);
      }
    }
  }
}
