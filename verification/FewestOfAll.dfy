/** When Decide's plan is the smallest of all that would do, and not only of
    those that spare no lower priority for the sake of a higher one. */
module FewestOfAll {
  import opened Machine
  import opened Domain
  import opened Scheduler
  import opened Greedy
  import Sorting

  predicate HoldsMore(a: ServiceState, b: ServiceState) {
    a.heldMiB > b.heldMiB
  }

  /** The services Decide may act on, the largest holder first. */
  function LargestFirst(services: seq<ServiceState>, b: ServiceState): seq<ServiceState> {
    Sorting.Sort(HoldsMore, Queue(services, b))
  }

  /** Any services Decide may act on, whatever their priorities, that together
      hold what is needed. */
  ghost predicate WouldDo(cfg: Config, obs: Observation, rival: set<string>)
    requires Contested(cfg, obs)
  {
    && (forall s :: s in obs.services && s.name in rival ==> Actionable(s, Beneficiary(cfg, obs)))
    && HeldBy(obs.services, rival) >= Needed(cfg, obs)
  }

  /** No set of services that would do is smaller than Decide's plan. */
  ghost predicate SmallestOfAll(cfg: Config, obs: Observation)
    requires Contested(cfg, obs)
  {
    forall rival :: WouldDo(cfg, obs, rival) ==> |DecidePlan(cfg, obs).actions| <= |rival|
  }

  /** Nobody may be acted on; or, taking them in order, n meet the need or use
      them all up, and the n - 1 largest together hold too little. */
  predicate OneFewerFallsShort(cfg: Config, obs: Observation)
    requires Contested(cfg, obs)
  {
    var b, need := Beneficiary(cfg, obs), Needed(cfg, obs);
    var n, big := Cut(Queue(obs.services, b), need), LargestFirst(obs.services, b);
    n == 0 || (n <= |big| && HeldSum(big[..n - 1]) < need)
  }

  // ------------------------------------------------------- the largest m hold most

  /** m chosen services hold no more than the m largest. */
  lemma {:induction false} LargestHoldMost(big: seq<ServiceState>, chosen: set<string>)
    requires Sorting.Sorted(HoldsMore, big) && DistinctNames(big)
    ensures CountIn(big, chosen) <= |big| && CountIn(big, chosen) <= |chosen|
    ensures HeldBy(big, chosen) <= HeldSum(big[..CountIn(big, chosen)])
    decreases |big|
  {
    var m := CountIn(big, chosen);
    CountFits(big, chosen);
    if m > 0 {
      var tail := big[1..];
      assert big[..m][1..] == tail[..m - 1];
      if big[0].name in chosen {
        LargestHoldMost(tail, chosen);
      } else {
        var i := SomeChosen(big, chosen);
        assert tail[i - 1] == big[i] && !HoldsMore(big[i], big[0]);
        LeaveOut(tail, chosen, i - 1);
        LargestHoldMost(tail, chosen - {big[i].name});
      }
    }
  }

  lemma {:induction false} LongerHoldsMore(s: seq<ServiceState>, m: nat, n: nat)
    requires m <= n <= |s|
    ensures HeldSum(s[..m]) <= HeldSum(s[..n])
  {
    PrefixHoldsLess(s[..n], m);
    assert s[..n][..m] == s[..m];
  }

  function FirstNames(s: seq<ServiceState>, k: nat): set<string>
    requires k <= |s|
  {
    if k == 0 then {} else {s[0].name} + FirstNames(s[1..], k - 1)
  }

  lemma {:induction false} FirstNamesAre(s: seq<ServiceState>, k: nat, name: string)
    requires k <= |s| && name in FirstNames(s, k)
    ensures exists i :: 0 <= i < k && s[i].name == name
  {
    if name == s[0].name {
    } else {
      FirstNamesAre(s[1..], k - 1, name);
      var i :| 0 <= i < k - 1 && s[1..][i].name == name;
      assert s[i + 1].name == name;
    }
  }

  /** The first k services, by name: so many names, holding what they hold. */
  lemma {:induction false} FirstNamesHold(s: seq<ServiceState>, k: nat)
    requires DistinctNames(s) && k <= |s|
    ensures |FirstNames(s, k)| == k
    ensures HeldBy(s, FirstNames(s, k)) == HeldSum(s[..k])
  {
    if k == 0 {
      NobodyHolds(s);
      assert s[..0] == [];
    } else {
      FirstNamesHold(s[1..], k - 1);
      var rest := FirstNames(s[1..], k - 1);
      if s[0].name in rest {
        FirstNamesAre(s[1..], k - 1, s[0].name);
      }
      HeadHolds(s, rest);
      assert s[..k] == [s[0]] + s[1..][..k - 1];
      assert ([s[0]] + s[1..][..k - 1])[1..] == s[1..][..k - 1];
    }
  }

  lemma {:induction false} HeadHolds(s: seq<ServiceState>, rest: set<string>)
    requires s != [] && s[0].name !in rest
    requires forall i :: 0 <= i < |s[1..]| ==> s[1..][i].name != s[0].name
    ensures HeldBy(s, {s[0].name} + rest) == s[0].heldMiB + HeldBy(s[1..], rest)
    ensures |{s[0].name} + rest| == |rest| + 1
  {
    assert ({s[0].name} + rest) - {s[0].name} == rest;
    Unaffected(s[1..], {s[0].name} + rest, s[0].name);
  }

  lemma {:induction false} NobodyHolds(s: seq<ServiceState>)
    ensures HeldBy(s, {}) == 0
  {
    if s != [] {
      NobodyHolds(s[1..]);
    }
  }

  // ------------------------------------------------------------- the theorem

  lemma {:induction false} LargestFacts(services: seq<ServiceState>, b: ServiceState)
    requires DistinctNames(services)
    ensures var big := LargestFirst(services, b);
      && Sorting.Sorted(HoldsMore, big) && DistinctNames(big) && |big| == |Queue(services, b)|
      && (forall s :: s in big <==> s in services && Actionable(s, b))
  {
    var q := Queue(services, b);
    Sorting.SortSorted(HoldsMore, q);
    Sorting.SameMembers(q, LargestFirst(services, b));
    QueueDistinct(services, b);
    RearrangedStaysDistinct(q, LargestFirst(services, b));
    CandidateMembers(services, b);
  }

  /** What actionable services hold is what they hold in that list. */
  lemma {:induction false} HeldInLargest(services: seq<ServiceState>, b: ServiceState, rival: set<string>)
    requires forall s :: s in services && s.name in rival ==> Actionable(s, b)
    ensures HeldBy(LargestFirst(services, b), rival) == HeldBy(services, rival)
  {
    HeldByEvictable(services, b, rival);
    HeldBySort(CandidateLess, EvictableIn(services, b), rival);
    CandidateMembers(services, b);
    HeldByFilter(Candidates(services, b), rival);
    HeldBySort(HoldsMore, Queue(services, b), rival);
  }

  /** Decide's plan is the smallest of all that would do exactly when one service
      fewer could not have been enough: it acts on nobody, or the n - 1 largest
      of those it may act on together hold too little. The condition is on what
      is observed and nothing else. */
  lemma {:induction false} SmallestOfAllIff(cfg: Config, obs: Observation)
    requires Contested(cfg, obs) && NoOverflow(obs.services) && DistinctNames(obs.services)
    ensures SmallestOfAll(cfg, obs) <==> OneFewerFallsShort(cfg, obs)
  {
    hide *;
    LengthIsCut(cfg, obs);
    if OneFewerFallsShort(cfg, obs) {
      NothingSmaller(cfg, obs);
    } else {
      SomethingSmaller(cfg, obs);
    }
  }

  /** How many services Decide acts on can be told before it does. */
  lemma {:induction false} LengthIsCut(cfg: Config, obs: Observation)
    requires Contested(cfg, obs) && NoOverflow(obs.services)
    ensures |DecidePlan(cfg, obs).actions| == Cut(Queue(obs.services, Beneficiary(cfg, obs)), Needed(cfg, obs))
  {
    hide DecidePlan, Contested, Beneficiary, Needed, Walk, HeldSum, Candidates, Cut;
    var b := Beneficiary(cfg, obs);
    CandidateMembers(obs.services, b);
    ContestedPlan(cfg, obs);
    WalkTakesCut(Candidates(obs.services, b), Needed(cfg, obs), 0);
  }

  lemma {:induction false} PlanFits(cfg: Config, obs: Observation)
    requires Contested(cfg, obs) && NoOverflow(obs.services) && DistinctNames(obs.services)
    ensures |DecidePlan(cfg, obs).actions| <= |LargestFirst(obs.services, Beneficiary(cfg, obs))|
  {
    ExactGreedyShape(cfg, obs);
    hide LargestFirst, DecidePlan, Contested, Beneficiary, Needed, Queue;
    LargestFacts(obs.services, Beneficiary(cfg, obs));
  }

  lemma {:induction false} BeatenBy(cfg: Config, obs: Observation, rival: set<string>)
    requires Contested(cfg, obs) && WouldDo(cfg, obs, rival) && |rival| < |DecidePlan(cfg, obs).actions|
    ensures !SmallestOfAll(cfg, obs)
  {
    hide DecidePlan, WouldDo, Contested;
  }

  lemma {:induction false} SomethingSmaller(cfg: Config, obs: Observation)
    requires Contested(cfg, obs) && NoOverflow(obs.services) && DistinctNames(obs.services)
    requires !OneFewerFallsShort(cfg, obs)
    requires |DecidePlan(cfg, obs).actions| == Cut(Queue(obs.services, Beneficiary(cfg, obs)), Needed(cfg, obs))
    ensures !SmallestOfAll(cfg, obs)
  {
    PlanFits(cfg, obs);
    hide DecidePlan, Beneficiary, Contested, Needed, LargestFirst, HeldSum, SmallestOfAll, WouldDo, Queue, Cut,
         NoOverflow, DistinctNames;
    var rival := SmallerRival(cfg, obs, |DecidePlan(cfg, obs).actions| - 1);
    BeatenBy(cfg, obs, rival);
  }

  lemma {:induction false} NothingSmaller(cfg: Config, obs: Observation)
    requires Contested(cfg, obs) && DistinctNames(obs.services) && OneFewerFallsShort(cfg, obs)
    requires |DecidePlan(cfg, obs).actions| == Cut(Queue(obs.services, Beneficiary(cfg, obs)), Needed(cfg, obs))
    ensures SmallestOfAll(cfg, obs)
  {
    hide DecidePlan, Beneficiary, Contested, Needed, LargestFirst, HeldSum, HeldBy, CountIn, Actionable, Queue, Cut;
    var b, n := Beneficiary(cfg, obs), |DecidePlan(cfg, obs).actions|;
    var big := LargestFirst(obs.services, b);
    LargestFacts(obs.services, b);
    forall rival | WouldDo(cfg, obs, rival) ensures n <= |rival| {
      HeldInLargest(obs.services, b, rival);
      LargestHoldMost(big, rival);
      if CountIn(big, rival) < n {
        LongerHoldsMore(big, CountIn(big, rival), n - 1);
      }
    }
  }

  /** If the k largest hold enough, they would do. */
  lemma {:induction false} SmallerRival(cfg: Config, obs: Observation, k: nat) returns (rival: set<string>)
    requires Contested(cfg, obs) && DistinctNames(obs.services)
    requires k <= |LargestFirst(obs.services, Beneficiary(cfg, obs))|
    requires HeldSum(LargestFirst(obs.services, Beneficiary(cfg, obs))[..k]) >= Needed(cfg, obs)
    ensures WouldDo(cfg, obs, rival) && |rival| == k
  {
    var b := Beneficiary(cfg, obs);
    var big := LargestFirst(obs.services, b);
    LargestFacts(obs.services, b);
    FirstNamesHold(big, k);
    forall n | n in FirstNames(big, k) ensures exists i :: 0 <= i < k && big[i].name == n {
      FirstNamesAre(big, k, n);
    }
    rival := FirstNames(big, k);
    hide Beneficiary, Contested, Needed, LargestFirst, HeldSum, HeldBy, FirstNames, Actionable;
    forall s | s in obs.services && s.name in rival ensures Actionable(s, b) {
      var i :| 0 <= i < k && big[i].name == s.name;
      assert big[i] in big;
    }
    HeldInLargest(obs.services, b, rival);
  }
}
