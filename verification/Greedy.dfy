/** What the greedy walk of Decide amounts to: the shortest prefix of the
    actionable services that meets the need, and why that disrupts fewest. */
module Greedy {
  import opened Machine
  import opened Domain
  import opened Scheduler
  import Ordering
  import Sorting

  // ------------------------------------------------------------- vocabulary

  /** Decide may act on s for the beneficiary: nothing shields it and a verb is permitted. */
  predicate Actionable(s: ServiceState, beneficiary: ServiceState) {
    Evictable(s, beneficiary) && ChooseVerb(s).Ok?
  }

  function WithVerb(s: seq<ServiceState>): (r: seq<ServiceState>)
    ensures forall x :: x in r <==> x in s && ChooseVerb(x).Ok?
    ensures |r| <= |s|
  {
    if s == [] then []
    else if ChooseVerb(s[0]).Ok? then [s[0]] + WithVerb(s[1..])
    else WithVerb(s[1..])
  }

  /** The actionable services in the order Decide takes them. */
  function Queue(services: seq<ServiceState>, beneficiary: ServiceState): seq<ServiceState> {
    WithVerb(Candidates(services, beneficiary))
  }

  function HeldSum(s: seq<ServiceState>): nat {
    if s == [] then 0 else s[0].heldMiB + HeldSum(s[1..])
  }

  /** What the services of s whose name is in chosen hold together. */
  function HeldBy(s: seq<ServiceState>, chosen: set<string>): nat {
    if s == [] then 0
    else (if s[0].name in chosen then s[0].heldMiB else 0) + HeldBy(s[1..], chosen)
  }

  function ActionOn(s: ServiceState): Action
    requires ChooseVerb(s).Ok?
  {
    Action(s.name, ChooseVerb(s).value, s.heldMiB)
  }

  function ActionsOn(s: seq<ServiceState>): (r: seq<Action>)
    requires forall x :: x in s ==> ChooseVerb(x).Ok?
    ensures |r| == |s|
    ensures forall i :: 0 <= i < |s| ==> r[i] == ActionOn(s[i])
  {
    if s == [] then [] else [ActionOn(s[0])] + ActionsOn(s[1..])
  }

  /** The sums Decide forms in uint64 are the true ones. */
  ghost predicate NoOverflow(services: seq<ServiceState>) {
    HeldSum(services) < TWO_64
  }

  /** Decide has somebody to free memory for, and not enough of it free. */
  predicate Contested(cfg: Config, obs: Observation) {
    obs.device.Some? &&
    var demand := Asked(cfg, obs);
    && demand.trigger != NoTrigger
    && obs.device.value.FreeMiB() < demand.target
    && FindService(obs.services, demand.beneficiary).Some?
  }

  /** Who asks for how much, of what the card has free. */
  function Asked(cfg: Config, obs: Observation): Demand
    requires obs.device.Some?
  {
    DemandOf(cfg, obs, obs.device.value.FreeMiB())
  }

  function Beneficiary(cfg: Config, obs: Observation): (b: ServiceState)
    requires Contested(cfg, obs)
  {
    FindService(obs.services, Asked(cfg, obs).beneficiary).value
  }

  function Needed(cfg: Config, obs: Observation): (n: u64)
    requires Contested(cfg, obs)
  {
    Asked(cfg, obs).target - obs.device.value.FreeMiB()
  }

  /** k is the length of the shortest prefix of q that holds need, or all of q. */
  ghost predicate ShortestPrefix(q: seq<ServiceState>, need: int, k: nat) {
    && k <= |q|
    && (k == |q| || HeldSum(q[..k]) >= need)
    && forall j :: 0 <= j < k ==> HeldSum(q[..j]) < need
  }

  // ------------------------------------------------------------ sums and order

  lemma {:induction false} ScoredOrder()
    ensures Sorting.StrictWeakOrder(ScoredLess)
  {
    Ordering.BeforeIsStrictTotalOrder();
  }

  lemma {:induction false} CandidateOrder()
    ensures Sorting.StrictWeakOrder(CandidateLess)
  {
    Ordering.BeforeIsStrictTotalOrder();
  }

  lemma {:induction false} HeldByInsert(
    less: (ServiceState, ServiceState) -> bool, x: ServiceState, s: seq<ServiceState>, chosen: set<string>)
    ensures HeldBy(Sorting.Insert(less, x, s), chosen)
         == (if x.name in chosen then x.heldMiB else 0) + HeldBy(s, chosen)
    ensures HeldSum(Sorting.Insert(less, x, s)) == x.heldMiB + HeldSum(s)
  {
    if s == [] || !less(s[0], x) {
      assert ([x] + s)[1..] == s;
    } else {
      HeldByInsert(less, x, s[1..], chosen);
      var tail := Sorting.Insert(less, x, s[1..]);
      assert ([s[0]] + tail)[1..] == tail;
    }
  }

  /** Sorting changes nothing about what is held. */
  lemma {:induction false} HeldBySort(
    less: (ServiceState, ServiceState) -> bool, s: seq<ServiceState>, chosen: set<string>)
    ensures HeldBy(Sorting.Sort(less, s), chosen) == HeldBy(s, chosen)
    ensures HeldSum(Sorting.Sort(less, s)) == HeldSum(s)
  {
    if s != [] {
      HeldBySort(less, s[1..], chosen);
      HeldByInsert(less, s[0], Sorting.Sort(less, s[1..]), chosen);
    }
  }

  lemma {:induction false} HeldSumEvictable(s: seq<ServiceState>, b: ServiceState)
    ensures HeldSum(EvictableIn(s, b)) <= HeldSum(s)
    ensures forall x :: x in EvictableIn(s, b) <==> x in s && Evictable(x, b)
  {
    if s != [] {
      HeldSumEvictable(s[1..], b);
      var rest := EvictableIn(s[1..], b);
      assert ([s[0]] + rest)[1..] == rest;
    }
  }

  lemma {:induction false} CandidateMembers(s: seq<ServiceState>, b: ServiceState)
    ensures forall x :: x in Candidates(s, b) <==> x in s && Evictable(x, b)
    ensures forall x :: x in Queue(s, b) <==> x in s && Actionable(x, b)
    ensures HeldSum(Candidates(s, b)) <= HeldSum(s)
  {
    HeldSumEvictable(s, b);
    HeldBySort(CandidateLess, EvictableIn(s, b), {});
    Sorting.SameMembers(Candidates(s, b), EvictableIn(s, b));
  }

  lemma {:induction false} WithVerbSorted(s: seq<ServiceState>)
    requires Sorting.Sorted(CandidateLess, s)
    ensures Sorting.Sorted(CandidateLess, WithVerb(s))
  {
    if s != [] {
      WithVerbSorted(s[1..]);
      var r, tail := WithVerb(s), WithVerb(s[1..]);
      if ChooseVerb(s[0]).Ok? {
        forall j | 0 < j < |r| ensures !CandidateLess(r[j], r[0]) {
          assert r[j] == tail[j - 1] && tail[j - 1] in s[1..];
        }
      }
    }
  }

  // ----------------------------------------------------------- the exact shape

  /** How many of q the walk takes before the need is met. */
  function Cut(q: seq<ServiceState>, need: int): (k: nat)
    ensures k <= |q|
  {
    if q == [] || need <= 0 then 0 else 1 + Cut(q[1..], need - q[0].heldMiB)
  }

  lemma {:induction false} CutIsShortest(q: seq<ServiceState>, need: int)
    ensures ShortestPrefix(q, need, Cut(q, need))
  {
    if q != [] && need > 0 {
      CutIsShortest(q[1..], need - q[0].heldMiB);
      var k := Cut(q, need);
      assert q[..k][1..] == q[1..][..k - 1];
      forall j | 0 <= j < k ensures HeldSum(q[..j]) < need {
        if j > 0 {
          assert q[..j][1..] == q[1..][..j - 1];
        }
      }
    }
  }

  ghost predicate TakesCut(c: seq<ServiceState>, needed: u64, freed: u64) {
    var q := WithVerb(c);
    var k := Cut(q, needed - freed);
    && Walk(c, needed, freed).actions == ActionsOn(q[..k])
    && Walk(c, needed, freed).freed == freed + HeldSum(q[..k])
  }

  lemma {:induction false} WalkTakesCut(c: seq<ServiceState>, needed: u64, freed: u64)
    requires freed + HeldSum(c) < TWO_64
    ensures TakesCut(c, needed, freed)
    decreases |c|
  {
    if c == [] {
    } else if freed >= needed || ChooseVerb(c[0]).Err? {
      WalkTakesCut(c[1..], needed, freed);
    } else {
      WalkTakesCut(c[1..], needed, freed + c[0].heldMiB);
      TakeOneMore(c, needed, freed);
    }
  }

  lemma {:induction false} TakeOneMore(c: seq<ServiceState>, needed: u64, freed: u64)
    requires c != [] && freed + HeldSum(c) < TWO_64
    requires freed < needed && ChooseVerb(c[0]).Ok?
    requires TakesCut(c[1..], needed, freed + c[0].heldMiB)
    ensures TakesCut(c, needed, freed)
  {
    hide Walk, Cut, WithVerb, HeldSum, ActionsOn, ActionOn, ChooseVerb;
    var f1 := freed + c[0].heldMiB;
    var q1 := WithVerb(c[1..]);
    var rest := q1[..Cut(q1, needed - f1)];
    WalkStep(c, needed, freed);
    CutStep(c, needed - freed);
    assert (needed - freed) - c[0].heldMiB == needed - f1;
    TakenStep(c[0], rest);
    assert WithVerb(c)[..Cut(WithVerb(c), needed - freed)] == [c[0]] + rest;
  }

  lemma {:induction false} WalkStep(c: seq<ServiceState>, needed: u64, freed: u64)
    requires c != [] && freed + HeldSum(c) < TWO_64 && freed < needed && ChooseVerb(c[0]).Ok?
    ensures freed + c[0].heldMiB < TWO_64
    ensures Walk(c, needed, freed).actions == [ActionOn(c[0])] + Walk(c[1..], needed, freed + c[0].heldMiB).actions
    ensures Walk(c, needed, freed).freed == Walk(c[1..], needed, freed + c[0].heldMiB).freed
  {
    assert WrapU64(freed + c[0].heldMiB) == freed + c[0].heldMiB;
    hide WrapU64, HeldSum;
  }

  lemma {:induction false} CutStep(c: seq<ServiceState>, need: int)
    requires c != [] && need > 0 && ChooseVerb(c[0]).Ok?
    ensures var q, q1 := WithVerb(c), WithVerb(c[1..]);
      q[..Cut(q, need)] == [c[0]] + q1[..Cut(q1, need - c[0].heldMiB)]
  {
    hide ChooseVerb;
    var q, q1 := WithVerb(c), WithVerb(c[1..]);
    assert q == [c[0]] + q1 && q[1..] == q1;
  }

  lemma {:induction false} TakenStep(x: ServiceState, rest: seq<ServiceState>)
    requires ChooseVerb(x).Ok?
    requires forall y :: y in rest ==> ChooseVerb(y).Ok?
    ensures ActionsOn([x] + rest) == [ActionOn(x)] + ActionsOn(rest)
    ensures HeldSum([x] + rest) == x.heldMiB + HeldSum(rest)
  {
    assert ([x] + rest)[1..] == rest;
  }

  /** A contested plan is exactly the walk over its candidates. */
  lemma {:induction false} ContestedPlan(cfg: Config, obs: Observation)
    requires Contested(cfg, obs)
    ensures var start := Opening(cfg, obs, obs.device.value);
      && DecidePlan(cfg, obs) == Freeing(obs.services, start, Beneficiary(cfg, obs))
      && DecidePlan(cfg, obs).actions
         == Walk(Candidates(obs.services, Beneficiary(cfg, obs)), Needed(cfg, obs), 0).actions
      && DecidePlan(cfg, obs).beneficiary == Beneficiary(cfg, obs).name
      && start.notes == Asked(cfg, obs).notes
      && DecidePlan(cfg, obs).targetFreeMiB == Asked(cfg, obs).target
      && Needed(cfg, obs) == DecidePlan(cfg, obs).targetFreeMiB - obs.device.value.FreeMiB()
  {
    hide Walk, PassedOver, Candidates, DemandOf;
  }

  /** The plan admits to best effort exactly when the walk ends short. */
  lemma {:induction false} BestEffortNote(cfg: Config, obs: Observation)
    requires Contested(cfg, obs)
    ensures BestEffort in DecidePlan(cfg, obs).notes
       <==> Walk(Candidates(obs.services, Beneficiary(cfg, obs)), Needed(cfg, obs), 0).freed < Needed(cfg, obs)
  {
    hide Walk, PassedOver, Candidates, DemandOf;
    var b := Beneficiary(cfg, obs);
    ContestedPlan(cfg, obs);
    NotesOfWalk(Candidates(obs.services, b), Needed(cfg, obs), 0);
    NotesOfPassing(obs.services, b);
    NotesOfDemand(cfg, obs, obs.device.value.FreeMiB());
  }

  lemma {:induction false} NotesOfDemand(cfg: Config, obs: Observation, free: u64)
    ensures forall n :: n in DemandOf(cfg, obs, free).notes ==> !n.About? && !n.BestEffort?
  {
  }

  /** Decide's actions are the shortest prefix of the actionable services, in
      order, that holds what is needed, or all of them; and it admits to best
      effort exactly when all of them together hold too little. */
  lemma {:induction false} ExactGreedyShape(cfg: Config, obs: Observation)
    requires Contested(cfg, obs) && NoOverflow(obs.services)
    ensures var q := Queue(obs.services, Beneficiary(cfg, obs));
      var plan := DecidePlan(cfg, obs);
      && Needed(cfg, obs) == plan.targetFreeMiB - obs.device.value.FreeMiB()
      && Sorting.Sorted(CandidateLess, q)
      && (forall s :: s in q <==> s in obs.services && Actionable(s, Beneficiary(cfg, obs)))
      && ShortestPrefix(q, Needed(cfg, obs), |plan.actions|)
      && plan.actions == ActionsOn(q[..|plan.actions|])
      && (BestEffort in plan.notes <==> HeldSum(q) < Needed(cfg, obs))
  {
    var b, need := Beneficiary(cfg, obs), Needed(cfg, obs);
    CandidateOrder();
    Sorting.SortSorted(CandidateLess, EvictableIn(obs.services, b));
    WithVerbSorted(Candidates(obs.services, b));
    CandidateMembers(obs.services, b);
    ContestedPlan(cfg, obs);
    BestEffortNote(cfg, obs);
    WalkIsShortest(Candidates(obs.services, b), need);
  }

  lemma {:induction false} WalkIsShortest(c: seq<ServiceState>, need: u64)
    requires HeldSum(c) < TWO_64
    ensures var q := WithVerb(c);
      var walk := Walk(c, need, 0);
      && ShortestPrefix(q, need, |walk.actions|)
      && walk.actions == ActionsOn(q[..|walk.actions|])
      && (walk.freed < need <==> HeldSum(q) < need)
  {
    var q := WithVerb(c);
    var k := Cut(q, need);
    WalkTakesCut(c, need, 0);
    CutIsShortest(q, need);
    PrefixHoldsLess(q, k);
    if k == |q| {
      assert q[..k] == q;
    }
  }

  lemma {:induction false} PrefixHoldsLess(q: seq<ServiceState>, k: nat)
    requires k <= |q|
    ensures HeldSum(q[..k]) <= HeldSum(q)
  {
    if k > 0 {
      PrefixHoldsLess(q[1..], k - 1);
      assert q[..k][1..] == q[1..][..k - 1];
    }
  }

  lemma {:induction false} NotesOfWalk(c: seq<ServiceState>, needed: u64, freed: u64)
    ensures forall n :: n in Walk(c, needed, freed).notes ==> n.About?
    decreases |c|
  {
    if c != [] {
      NotesOfWalk(c[1..], needed, freed);
      NotesOfWalk(c[1..], needed, WrapU64(freed + c[0].heldMiB));
    }
  }

  lemma {:induction false} NotesOfPassing(s: seq<ServiceState>, b: ServiceState)
    ensures forall n :: n in PassedOver(s, b) ==> n.About?
  {
    if s != [] {
      NotesOfPassing(s[1..], b);
    }
  }

  // ------------------------------------------------------ fewest disruptions

  function CountIn(q: seq<ServiceState>, chosen: set<string>): nat {
    if q == [] then 0 else (if q[0].name in chosen then 1 else 0) + CountIn(q[1..], chosen)
  }

  /** A service is freed only after everything actionable below its priority. */
  ghost predicate ClosedDownward(q: seq<ServiceState>, chosen: set<string>) {
    forall x, y :: x in q && y in q && x.name in chosen && y.priority < x.priority ==> y.name in chosen
  }

  lemma {:induction false} CountFits(q: seq<ServiceState>, chosen: set<string>)
    requires DistinctNames(q)
    ensures CountIn(q, chosen) <= |q| && CountIn(q, chosen) <= |chosen|
    ensures HeldBy(q, chosen) > 0 ==> CountIn(q, chosen) > 0
  {
    if q != [] {
      CountFits(q[1..], chosen);
      var rest := chosen - {q[0].name};
      CountFits(q[1..], rest);
      Unaffected(q[1..], chosen, q[0].name);
    }
  }

  /** Names that do not occur do not matter. */
  lemma {:induction false} Unaffected(q: seq<ServiceState>, chosen: set<string>, name: string)
    requires forall i :: 0 <= i < |q| ==> q[i].name != name
    ensures CountIn(q, chosen - {name}) == CountIn(q, chosen)
    ensures HeldBy(q, chosen - {name}) == HeldBy(q, chosen)
  {
    if q != [] {
      Unaffected(q[1..], chosen, name);
    }
  }

  /** Leaving out one occurring service takes one away, and what it holds. */
  lemma {:induction false} LeaveOut(q: seq<ServiceState>, chosen: set<string>, i: nat)
    requires DistinctNames(q) && i < |q| && q[i].name in chosen
    ensures CountIn(q, chosen - {q[i].name}) == CountIn(q, chosen) - 1
    ensures HeldBy(q, chosen - {q[i].name}) == HeldBy(q, chosen) - q[i].heldMiB
  {
    if i == 0 {
      Unaffected(q[1..], chosen, q[0].name);
    } else {
      LeaveOut(q[1..], chosen, i - 1);
    }
  }

  lemma {:induction false} SomeChosen(q: seq<ServiceState>, chosen: set<string>) returns (i: nat)
    requires CountIn(q, chosen) > 0
    ensures i < |q| && q[i].name in chosen
  {
    if q[0].name in chosen {
      i := 0;
    } else {
      i := SomeChosen(q[1..], chosen);
      i := i + 1;
    }
  }

  /** The exchange argument: a downward-closed choice of m services holds no
      more than the first m in order. */
  lemma {:induction false} Exchange(q: seq<ServiceState>, chosen: set<string>)
    requires Sorting.Sorted(CandidateLess, q) && DistinctNames(q) && ClosedDownward(q, chosen)
    requires CountIn(q, chosen) <= |q|
    ensures HeldBy(q, chosen) <= HeldSum(q[..CountIn(q, chosen)])
    decreases |q|
  {
    hide CandidateLess;
    var m := CountIn(q, chosen);
    CountFits(q, chosen);
    if m > 0 {
      var tail := q[1..];
      assert q[..m][1..] == tail[..m - 1];
      if q[0].name in chosen {
        CountFits(tail, chosen);
        Exchange(tail, chosen);
      } else {
        var x := DropOne(q, chosen);
        CountFits(tail, chosen - {x.name});
        Exchange(tail, chosen - {x.name});
      }
    }
  }

  /** With the head left out, some chosen service can be given up for it. */
  lemma {:induction false} DropOne(q: seq<ServiceState>, chosen: set<string>) returns (x: ServiceState)
    requires Sorting.Sorted(CandidateLess, q) && DistinctNames(q) && ClosedDownward(q, chosen)
    requires CountIn(q, chosen) > 0 && q[0].name !in chosen
    ensures x.heldMiB <= q[0].heldMiB
    ensures CountIn(q[1..], chosen - {x.name}) == CountIn(q, chosen) - 1
    ensures HeldBy(q[1..], chosen - {x.name}) == HeldBy(q, chosen) - x.heldMiB
    ensures ClosedDownward(q[1..], chosen - {x.name})
  {
    var i := SomeChosen(q, chosen);
    x := q[i];
    assert i > 0 && q[1..][i - 1] == x;
    assert x in q && q[0] in q;
    assert !CandidateLess(x, q[0]);
    LeaveOut(q[1..], chosen, i - 1);
    LowestClassOnly(q, chosen, x);
  }

  /** With the head left out, everything chosen has the head's priority. */
  lemma {:induction false} LowestClassOnly(q: seq<ServiceState>, chosen: set<string>, x: ServiceState)
    requires q != [] && Sorting.Sorted(CandidateLess, q) && ClosedDownward(q, chosen)
    requires q[0].name !in chosen
    ensures ClosedDownward(q[1..], chosen - {x.name})
  {
    forall y | y in q[1..] ensures q[0].priority <= y.priority {
      var i :| 1 <= i < |q| && q[i] == y;
      assert !CandidateLess(q[i], q[0]);
    }
    forall a | a in q[1..] && a.name in chosen ensures a.priority <= q[0].priority {
      assert a in q && q[0] in q;
    }
  }

  lemma {:induction false} HeldByFilter(s: seq<ServiceState>, chosen: set<string>)
    requires forall x :: x in s && x.name in chosen ==> ChooseVerb(x).Ok?
    ensures HeldBy(WithVerb(s), chosen) == HeldBy(s, chosen)
  {
    if s != [] {
      HeldByFilter(s[1..], chosen);
      var rest := WithVerb(s[1..]);
      assert ([s[0]] + rest)[1..] == rest;
    }
  }

  lemma {:induction false} HeldByEvictable(s: seq<ServiceState>, b: ServiceState, chosen: set<string>)
    requires forall x :: x in s && x.name in chosen ==> Evictable(x, b)
    ensures HeldBy(EvictableIn(s, b), chosen) == HeldBy(s, chosen)
  {
    if s != [] {
      HeldByEvictable(s[1..], b, chosen);
      var rest := EvictableIn(s[1..], b);
      assert ([s[0]] + rest)[1..] == rest;
    }
  }

  lemma {:induction false} SubsequencesStayDistinct(s: seq<ServiceState>, b: ServiceState)
    requires DistinctNames(s)
    ensures DistinctNames(EvictableIn(s, b)) && DistinctNames(WithVerb(s))
  {
    if s != [] {
      SubsequencesStayDistinct(s[1..], b);
      HeldSumEvictable(s[1..], b);
      var e, v := EvictableIn(s, b), WithVerb(s);
      forall j | 0 < j < |e| && Evictable(s[0], b) ensures e[j].name != e[0].name {
        assert e[j] in EvictableIn(s[1..], b);
      }
      forall j | 0 < j < |v| && ChooseVerb(s[0]).Ok? ensures v[j].name != v[0].name {
        assert v[j] in WithVerb(s[1..]);
      }
    }
  }

  lemma {:induction false} OccursOnce(a: seq<ServiceState>, k: nat)
    requires DistinctNames(a) && k < |a|
    ensures multiset(a)[a[k]] == 1
  {
    assert a == a[..k] + [a[k]] + a[k + 1..];
    assert a[k] !in a[..k] && a[k] !in a[k + 1..];
  }

  /** A rearrangement of distinctly named services is distinctly named. */
  lemma {:induction false} RearrangedStaysDistinct(a: seq<ServiceState>, b: seq<ServiceState>)
    requires DistinctNames(a) && multiset(a) == multiset(b)
    ensures DistinctNames(b)
  {
    Sorting.SameMembers(a, b);
    forall i, j | 0 <= i < j < |b| ensures b[i].name != b[j].name {
      assert b[i] in a && b[j] in a;
      var k :| 0 <= k < |a| && a[k] == b[i];
      OccursOnce(a, k);
      if b[i] == b[j] {
        Sorting.OccursTwice(b, i, j);
      }
    }
  }

  lemma {:induction false} QueueDistinct(services: seq<ServiceState>, b: ServiceState)
    requires DistinctNames(services)
    ensures DistinctNames(Queue(services, b))
  {
    SubsequencesStayDistinct(services, b);
    RearrangedStaysDistinct(EvictableIn(services, b), Candidates(services, b));
    SubsequencesStayDistinct(Candidates(services, b), b);
  }

  /** A rival to Decide's plan: services it could have acted on, lower
      priorities first, that together hold what is needed. */
  ghost predicate Suffices(cfg: Config, obs: Observation, rival: set<string>)
    requires Contested(cfg, obs)
  {
    var b := Beneficiary(cfg, obs);
    && (forall s :: s in obs.services && s.name in rival ==> Actionable(s, b))
    && (forall x, y |
          x in obs.services && y in obs.services && Actionable(y, b) && x.name in rival && y.priority < x.priority ::
          y.name in rival)
    && HeldBy(obs.services, rival) >= Needed(cfg, obs)
  }

  /** No downward-closed set of actionable services that meets the need is
      smaller than Decide's own plan; and whenever there is such a set,
      Decide's plan meets the need too. */
  lemma {:induction false} FewestDisruptions(cfg: Config, obs: Observation, rival: set<string>)
    requires Contested(cfg, obs) && NoOverflow(obs.services) && DistinctNames(obs.services)
    requires Suffices(cfg, obs, rival)
    ensures |DecidePlan(cfg, obs).actions| <= |rival|
    ensures BestEffort !in DecidePlan(cfg, obs).notes
  {
    var b, need := Beneficiary(cfg, obs), Needed(cfg, obs);
    var q := Queue(obs.services, b);
    ExactGreedyShape(cfg, obs);
    CandidateMembers(obs.services, b);
    QueueDistinct(obs.services, b);
    HeldByEvictable(obs.services, b, rival);
    HeldBySort(CandidateLess, EvictableIn(obs.services, b), rival);
    HeldByFilter(Candidates(obs.services, b), rival);
    CountFits(q, rival);
    Exchange(q, rival);
    PrefixHoldsLess(q, CountIn(q, rival));
  }

  // ------------------------------------------------------------- who is hit

  /** Every action is on an observed, actionable service, with the verb that
      service permits; in particular a stop is only for allow_stop. No bound on
      what is held is needed. */
  lemma {:induction false} ActionsAreActionable(cfg: Config, obs: Observation)
    ensures forall a :: a in DecidePlan(cfg, obs).actions ==>
      Contested(cfg, obs) && exists s :: s in obs.services && Actionable(s, Beneficiary(cfg, obs)) && a == ActionOn(s)
  {
    if Contested(cfg, obs) {
      var b := Beneficiary(cfg, obs);
      CandidateMembers(obs.services, b);
      ContestedPlan(cfg, obs);
      WalkActsOnCandidates(Candidates(obs.services, b), Needed(cfg, obs), 0);
    }
  }

  lemma {:induction false} WalkActsOnCandidates(c: seq<ServiceState>, needed: u64, freed: u64)
    ensures forall a :: a in Walk(c, needed, freed).actions ==>
      exists s :: s in c && ChooseVerb(s).Ok? && a == ActionOn(s)
    decreases |c|
  {
    if c != [] {
      WalkActsOnCandidates(c[1..], needed, freed);
      WalkActsOnCandidates(c[1..], needed, WrapU64(freed + c[0].heldMiB));
      var rest := if freed >= needed || ChooseVerb(c[0]).Err? then Walk(c[1..], needed, freed)
                  else Walk(c[1..], needed, WrapU64(freed + c[0].heldMiB));
      forall a | a in Walk(c, needed, freed).actions
        ensures exists s :: s in c && ChooseVerb(s).Ok? && a == ActionOn(s)
      {
        if a in rest.actions {
          var s :| s in c[1..] && ChooseVerb(s).Ok? && a == ActionOn(s);
          assert s in c;
        } else {
          assert a == ActionOn(c[0]);
        }
      }
    }
  }

  /** A plan made under cfg: what it saw carries the configured priorities. */
  ghost predicate SeenUnder(cfg: Config, obs: Observation) {
    forall s :: s in obs.services ==> LookUp(cfg, s.name).Some? && LookUp(cfg, s.name).value.priority == s.priority
  }

  /** Decide's plan for obs frees victim for the sake of winner. */
  ghost predicate PlanEvicts(cfg: Config, obs: Observation, victim: string, winner: string) {
    DecidePlan(cfg, obs).beneficiary == winner && exists a :: a in DecidePlan(cfg, obs).actions && a.service == victim
  }

  /** Some plan of the run frees victim for the sake of winner. */
  ghost predicate Evicts(cfg: Config, run: seq<Observation>, victim: string, winner: string) {
    exists obs :: obs in run && PlanEvicts(cfg, obs, victim, winner)
  }

  lemma {:induction false} VictimIsBelow(cfg: Config, obs: Observation, victim: string, winner: string)
    requires SeenUnder(cfg, obs) && PlanEvicts(cfg, obs, victim, winner)
    ensures LookUp(cfg, victim).Some? && LookUp(cfg, winner).Some?
    ensures LookUp(cfg, victim).value.priority < LookUp(cfg, winner).value.priority
  {
    var a :| a in DecidePlan(cfg, obs).actions && a.service == victim;
    ActionsAreActionable(cfg, obs);
    var s :| s in obs.services && Actionable(s, Beneficiary(cfg, obs)) && a == ActionOn(s);
  }

  lemma {:induction false} LinkIsBelow(cfg: Config, run: seq<Observation>, victim: string, winner: string)
    requires forall obs :: obs in run ==> SeenUnder(cfg, obs)
    requires Evicts(cfg, run, victim, winner)
    ensures LookUp(cfg, victim).Some? && LookUp(cfg, winner).Some?
    ensures LookUp(cfg, victim).value.priority < LookUp(cfg, winner).value.priority
  {
    var obs :| obs in run && PlanEvicts(cfg, obs, victim, winner);
    VictimIsBelow(cfg, obs, victim, winner);
  }

  /** Each service of the chain was evicted for the sake of the next. */
  ghost predicate EvictionChain(cfg: Config, run: seq<Observation>, chain: seq<string>) {
    |chain| >= 2 ==> Evicts(cfg, run, chain[0], chain[1]) && EvictionChain(cfg, run, chain[1..])
  }

  /** Over all the plans of a run, no chain of evictions comes back to where it
      started, so services cannot take turns throwing one another out. */
  lemma {:induction false} NoEvictionCycle(cfg: Config, run: seq<Observation>, chain: seq<string>)
    requires forall obs :: obs in run ==> SeenUnder(cfg, obs)
    requires |chain| >= 2 && EvictionChain(cfg, run, chain)
    ensures LookUp(cfg, chain[0]).Some? && LookUp(cfg, chain[|chain| - 1]).Some?
    ensures LookUp(cfg, chain[0]).value.priority < LookUp(cfg, chain[|chain| - 1]).value.priority
    ensures chain[0] != chain[|chain| - 1]
    decreases |chain|
  {
    hide LookUp, Evicts;
    LinkIsBelow(cfg, run, chain[0], chain[1]);
    if |chain| > 2 {
      NoEvictionCycle(cfg, run, chain[1..]);
    }
  }

  // ------------------------------------------------------- one service to free

  lemma {:induction false} FoundByName(services: seq<ServiceState>, b: nat)
    requires DistinctNames(services) && b < |services|
    ensures FindService(services, services[b].name) == Some(services[b])
  {
    assert services[b] in services;
    var found := FindService(services, services[b].name).value;
    var i :| 0 <= i < |services| && services[i] == found;
  }

  lemma {:induction false} OneToFree(services: seq<ServiceState>, v: nat, b: nat)
    requires DistinctNames(services) && v < |services| && b < |services|
    requires forall i :: 0 <= i < |services| && Alive(services[i]) ==> i == v || i == b
    requires Evictable(services[v], services[b])
    ensures Candidates(services, services[b]) == [services[v]]
  {
    var c := Candidates(services, services[b]);
    CandidateMembers(services, services[b]);
    DistinctCandidates(services, services[b]);
    hide Candidates, DistinctNames;
    assert services[v] in services;
    forall x | x in c ensures x == services[v] {
      var i :| 0 <= i < |services| && services[i] == x;
      assert Alive(services[i]);
    }
    OnlyMember(c, services[v]);
  }

  lemma {:induction false} OnlyMember(c: seq<ServiceState>, x: ServiceState)
    requires DistinctNames(c) && x in c && forall y :: y in c ==> y == x
    ensures c == [x]
  {
    assert c[0] in c;
    if |c| > 1 {
      TwoMembersDiffer(c);
    }
  }

  lemma {:induction false} TwoMembersDiffer(c: seq<ServiceState>)
    requires DistinctNames(c) && |c| > 1
    ensures exists x, y :: x in c && y in c && x != y
  {
    assert c[0] in c && c[1] in c && c[0].name != c[1].name;
  }

  lemma {:induction false} DistinctCandidates(services: seq<ServiceState>, b: ServiceState)
    requires DistinctNames(services)
    ensures DistinctNames(Candidates(services, b))
  {
    SubsequencesStayDistinct(services, b);
    RearrangedStaysDistinct(EvictableIn(services, b), Candidates(services, b));
  }

  lemma {:induction false} TakesTheOne(s: ServiceState, need: u64, a: Action)
    requires need > 0 && ChooseVerb(s) == Ok(a.verb) && a.service == s.name && a.expectFreeMiB == s.heldMiB
    ensures Walk([s], need, 0).actions == [a]
  {
    assert [s][1..] == [];
  }
}
