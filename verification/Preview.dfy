/** A dry-run request against the real one: when the plan it reports is the plan
    the real request would carry out, and that it leaves nothing behind. */
module Preview {
  import opened Machine
  import opened Domain
  import opened Scheduler
  import opened Tables
  import opened World
  import Greedy
  import Observe
  import OrderIndependence
  import Ordering
  import Runs
  import SlotSafety
  import Sorting

  // ---------------------------------------------------- what Decide is given

  /** The claims Decide sees for a real request: the table with the claim in it. */
  ghost function RealClaims(claims: map<string, Claim>, made: Claim): seq<Claim> {
    SnapshotOf(claims[made.service := made])
  }

  /** The claims Decide sees for a dry run: the table as it is, the claim last. */
  ghost function DryClaims(claims: map<string, Claim>, made: Claim): seq<Claim> {
    SnapshotOf(claims) + [made]
  }

  // ------------------------------------------------------- the head of a sort

  /** Who a stable sort puts first: on a tie, the one that came first. */
  function First<T>(less: (T, T) -> bool, s: seq<T>): T
    requires s != []
    decreases |s|
  {
    if |s| == 1 then s[0]
    else
      var rest := First(less, s[1..]);
      if less(rest, s[0]) then rest else s[0]
  }

  lemma {:induction false} SortPutsFirst<T>(less: (T, T) -> bool, s: seq<T>)
    requires s != []
    ensures Sorting.Sort(less, s)[0] == First(less, s)
    decreases |s|
  {
    if |s| == 1 {
      assert s[1..] == [];
    } else {
      SortPutsFirst(less, s[1..]);
    }
  }

  lemma {:induction false} NoneAheadOfFirst<T(!new)>(less: (T, T) -> bool, s: seq<T>)
    requires Sorting.StrictWeakOrder(less) && s != []
    ensures First(less, s) in s
    ensures forall y :: y in s ==> !less(y, First(less, s))
    decreases |s|
  {
    if |s| > 1 {
      NoneAheadOfFirst(less, s[1..]);
      assert forall y :: y in s <==> y == s[0] || y in s[1..];
      var rest := First(less, s[1..]);
      forall y | y in s[1..] && less(y, s[0]) ensures less(rest, s[0]) {
        assert less(y, rest) || less(rest, s[0]);
      }
    }
  }

  /** One more element at the end that is not ahead of the first changes
      nothing about who is first. */
  lemma {:induction false} AppendedBehind<T(!new)>(less: (T, T) -> bool, s: seq<T>, x: T)
    requires Sorting.StrictWeakOrder(less) && s != [] && !less(x, First(less, s))
    ensures First(less, s + [x]) == First(less, s)
    decreases |s|
  {
    assert (s + [x])[1..] == s[1..] + [x];
    if |s| > 1 {
      var rest := First(less, s[1..]);
      if less(rest, s[0]) {
        AppendedBehind(less, s[1..], x);
      } else {
        NoneAheadOfFirst(less, s[1..]);
        NoneAheadOfFirst(less, s[1..] + [x]);
        var y, head := First(less, s[1..] + [x]), s[0];
        assert y != x ==> y in s[1..];
        assert less(y, head) ==> less(y, rest) || less(rest, head);
      }
    }
  }

  lemma {:induction false} LiveAppend(cfg: Config, a: seq<Claim>, b: seq<Claim>)
    ensures Live(cfg, a + b) == Live(cfg, a) + Live(cfg, b)
  {
    if a == [] {
      assert a + b == b;
    } else {
      assert (a + b)[1..] == a[1..] + b;
      LiveAppend(cfg, a[1..], b);
    }
  }

  // ------------------------------------------------------------- best claims

  /** With a claim already held, a dry run is decided by the table as it stands:
      the claim it appends ties with the held one and loses. */
  lemma {:induction false} HeldClaimWinsTheTie(cfg: Config, claims: map<string, Claim>, made: Claim)
    requires Filed(claims) && made.service in claims && made.at == claims[made.service].at
    requires Configured(cfg, made.service)
    ensures BestClaim(cfg, DryClaims(claims, made)) == BestClaim(cfg, SnapshotOf(claims))
  {
    var l, held := SnapshotOf(claims), claims[made.service];
    var live, priority := Live(cfg, l), LookUp(cfg, made.service).value.priority;
    SnapshotUnique(claims, l);
    hide SnapshotOf;
    assert held in l;
    OrderIndependence.LiveMembers(cfg, l);
    assert Scored(held, priority) in live;
    LiveAppend(cfg, l, [made]);
    assert Live(cfg, [made]) == [Scored(made, priority)] by { assert [made][1..] == []; }
    Greedy.ScoredOrder();
    NoneAheadOfFirst(ScoredLess, live);
    Ordering.BeforeIrreflexive(held.service);
    assert !ScoredLess(Scored(made, priority), First(ScoredLess, live)) by {
      assert !ScoredLess(Scored(held, priority), First(ScoredLess, live));
    }
    AppendedBehind(ScoredLess, live, Scored(made, priority));
    SortPutsFirst(ScoredLess, live);
    SortPutsFirst(ScoredLess, live + [Scored(made, priority)]);
  }

  /** Members of a snapshot, and of the one a request makes of it. */
  lemma {:induction false} RealMembers(claims: map<string, Claim>, made: Claim)
    requires Filed(claims)
    ensures forall c :: c in RealClaims(claims, made) <==>
      c == made || (c.service != made.service && c.service in claims && claims[c.service] == c)
    ensures DistinctClaims(RealClaims(claims, made))
  {
    var filed := claims[made.service := made];
    SnapshotUnique(filed, SnapshotOf(filed));
  }

  /** The first of a listing with one claim per service is known by what it beats. */
  lemma {:induction false} WinnerBeatsAll(cfg: Config, l: seq<Claim>, c: Claim)
    requires DistinctClaims(l) && c in l && Configured(cfg, c.service)
    ensures BestClaim(cfg, l) == Some(c) <==>
      forall o :: o in l && o.service != c.service && Configured(cfg, o.service) ==> Ahead(cfg, c, o)
  {
    hide BestClaim;
    OrderIndependence.BestClaimIsFirst(cfg, l);
    OrderIndependence.LiveMembers(cfg, l);
    var live := Live(cfg, l);
    var mine := ScoredOf(cfg, c);
    assert mine in live;
    var x :| OrderIndependence.IsFirst(x, live) && BestClaim(cfg, l) == Some(x.claim);
    Greedy.ScoredOrder();
    forall o | o in l && o.service != c.service && Configured(cfg, o.service)
      ensures ScoredOf(cfg, o) in live
      ensures ScoredLess(mine, ScoredOf(cfg, o)) || ScoredLess(ScoredOf(cfg, o), mine)
    {
      Ordering.BeforeTotal(o.service, c.service);
    }
  }

  function ScoredOf(cfg: Config, c: Claim): Scored
    requires Configured(cfg, c.service)
  {
    Scored(c, LookUp(cfg, c.service).value.priority)
  }

  /** c outranks o: higher priority, then asked first, then by name. */
  predicate Ahead(cfg: Config, c: Claim, o: Claim)
    requires Configured(cfg, c.service) && Configured(cfg, o.service)
  {
    ScoredLess(ScoredOf(cfg, c), ScoredOf(cfg, o))
  }

  /** Asking again for a held claim never changes which service is served. */
  lemma {:induction false} AskingAgainKeepsTheWinner(cfg: Config, claims: map<string, Claim>, made: Claim)
    requires Filed(claims) && made.service in claims && made.at == claims[made.service].at
    requires Configured(cfg, made.service)
    ensures var before, after := BestClaim(cfg, SnapshotOf(claims)), BestClaim(cfg, RealClaims(claims, made));
      && before.Some? && after.Some? && after.value.service == before.value.service
      && after.value == if before.value.service == made.service then made else before.value
  {
    var l, l' := SnapshotOf(claims), RealClaims(claims, made);
    var held := claims[made.service];
    SnapshotUnique(claims, l);
    RealMembers(claims, made);
    hide SnapshotOf, BestClaim, RealClaims, Ahead;
    assert held in l && made in l';
    SomeoneWins(cfg, l, held);
    var won := BestClaim(cfg, l).value;
    var wins := if won.service == made.service then made else won;
    WinnerBeatsAll(cfg, l, won);
    assert won.service == made.service ==> won == held;
    forall o | o in l' && o.service != wins.service && Configured(cfg, o.service) ensures Ahead(cfg, wins, o) {
      AheadBySameKeys(cfg, won, wins, if o.service == made.service then held else o, o);
    }
    WinnerBeatsAll(cfg, l', wins);
  }

  lemma {:induction false} SomeoneWins(cfg: Config, l: seq<Claim>, c: Claim)
    requires c in l && Configured(cfg, c.service)
    ensures BestClaim(cfg, l).Some? && BestClaim(cfg, l).value in l && Configured(cfg, BestClaim(cfg, l).value.service)
  {
    OrderIndependence.BestClaimIsFirst(cfg, l);
    OrderIndependence.LiveMembers(cfg, l);
    assert ScoredOf(cfg, c) in Live(cfg, l);
  }

  /** The amount a claim is for has no say in who is ahead. */
  lemma {:induction false} AheadBySameKeys(cfg: Config, a: Claim, a': Claim, b: Claim, b': Claim)
    requires a.service == a'.service && a.at == a'.at && b.service == b'.service && b.at == b'.at
    requires Configured(cfg, a.service) && Configured(cfg, b.service)
    ensures Ahead(cfg, a, b) <==> Ahead(cfg, a', b')
  {
  }

  // ------------------------------------------------------------------- plans

  /** s holds the claim being served, for an amount other than the new one. */
  ghost predicate Resized(cfg: Config, claims: map<string, Claim>, made: Claim) {
    && made.service in claims
    && BestClaim(cfg, SnapshotOf(claims)) == Some(claims[made.service])
    && Wanted(cfg, claims[made.service]) != Wanted(cfg, made)
  }

  lemma {:induction false} TargetIsWanted(cfg: Config, obs: Observation, l: seq<Claim>)
    requires BestClaim(cfg, l).Some? && obs.device.Some?
    ensures DecidePlan(cfg, obs.(claims := l)).targetFreeMiB == Wanted(cfg, BestClaim(cfg, l).value)
  {
    hide BestClaim, Walk, PassedOver, Candidates;
  }

  /** Decide reads the claims only for the best of them, and for there being any. */
  lemma {:induction false} SameBestSamePlan(cfg: Config, obs: Observation, a: seq<Claim>, b: seq<Claim>)
    requires BestClaim(cfg, a).Some? && BestClaim(cfg, b).Some?
    requires BestClaim(cfg, a).value.service == BestClaim(cfg, b).value.service
    ensures DecidePlan(cfg, obs.(claims := a)) == DecidePlan(cfg, obs.(claims := b)) <==>
      obs.device.None? || Wanted(cfg, BestClaim(cfg, a).value) == Wanted(cfg, BestClaim(cfg, b).value)
  {
    hide BestClaim, Walk, PassedOver, Candidates;
    if obs.device.Some? {
      TargetIsWanted(cfg, obs, a);
      TargetIsWanted(cfg, obs, b);
    }
  }

  /** A dry run reports the plan of the real request exactly when the service
      does not hold the winning claim for another amount (or VRAM is unknown and
      neither plans anything). */
  lemma {:induction false} PreviewIsExactUnlessResized(
    cfg: Config, obs: Observation, claims: map<string, Claim>, service: string, need: u64, at: Instant)
    requires Filed(claims) && Configured(cfg, service)
    ensures var made := ClaimFor(claims, service, need, at);
      DecidePlan(cfg, obs.(claims := DryClaims(claims, made)))
        == DecidePlan(cfg, obs.(claims := RealClaims(claims, made)))
      <==> obs.device.None? || !Resized(cfg, claims, made)
  {
    var made := ClaimFor(claims, service, need, at);
    if service in claims {
      HeldClaimWinsTheTie(cfg, claims, made);
      AskingAgainKeepsTheWinner(cfg, claims, made);
      SnapshotUnique(claims, SnapshotOf(claims));
      BestIsMember(cfg, SnapshotOf(claims));
    } else {
      FirstClaimPreviews(cfg, claims, made);
    }
    hide BestClaim, DecidePlan, RealClaims, DryClaims, SnapshotOf;
    SameBestSamePlan(cfg, obs, DryClaims(claims, made), RealClaims(claims, made));
  }

  /** With no claim held, the dry run and the request see the same claims. */
  lemma {:induction false} FirstClaimPreviews(cfg: Config, claims: map<string, Claim>, made: Claim)
    requires Filed(claims) && made.service !in claims && Configured(cfg, made.service)
    ensures BestClaim(cfg, RealClaims(claims, made)).Some?
    ensures BestClaim(cfg, RealClaims(claims, made)) == BestClaim(cfg, DryClaims(claims, made))
  {
    var full, dry := RealClaims(claims, made), DryClaims(claims, made);
    RealMembers(claims, made);
    SnapshotUnique(claims, SnapshotOf(claims));
    hide RealClaims, SnapshotOf, BestClaim;
    assert forall c :: c in full <==> c in dry;
    OrderIndependence.BestClaimForgetsOrder(cfg, full, dry);
    SomeoneWins(cfg, full, made);
  }

  lemma {:induction false} BestIsMember(cfg: Config, l: seq<Claim>)
    ensures BestClaim(cfg, l).Some? ==> BestClaim(cfg, l).value in l
  {
    OrderIndependence.BestClaimIsFirst(cfg, l);
    OrderIndependence.LiveMembers(cfg, l);
  }

  // ------------------------------------------------------- the whole request

  ghost predicate Steps(su: Setup, w: World, commands: seq<Command>, after: World)
    decreases |commands|
  {
    if commands == [] then after == w
    else Enabled(su, w, commands[0]) && Steps(su, Apply(su, w, commands[0]), commands[1..], after)
  }

  /** A request handled from start to plan with nothing in between. */
  function RequestSteps(p: nat, kind: PlannerKind, at: Instant, device: Option<Device>, probes: seq<Observe.Probe>)
    : seq<Command>
  {
    [Begin(kind), FileClaim(p, at), Probe(p, device, probes), ReadClaims(p), ReadInflight(p), MakePlan(p)]
  }

  /** What handleRequest sees of the services. */
  ghost function Sight(su: Setup, w: World, device: Option<Device>, probes: seq<Observe.Probe>): Observation
    requires |probes| == |su.cfg.services|
  {
    Observation(device, MarkInflight(w.tables.inflight, Observe.States(su.cfg.services, probes)), [])
  }

  /** A request for a configured service that nothing interleaves with ends with
      the plan Decide makes of the real or the dry-run claims, and only the real
      one changes the daemon. */
  lemma {:induction false} RequestPlans(
    su: Setup, w: World, service: string, need: u64, dry: bool, at: Instant,
    device: Option<Device>, probes: seq<Observe.Probe>, after: World)
    requires |probes| == |su.cfg.services|
    requires var kind := RequestFor(service, need, dry);
      Steps(su, w, RequestSteps(|w.planners|, kind, at, device, probes), after)
    ensures Configured(su.cfg, service) && |after.planners| == |w.planners| + 1 && after.workers == w.workers
    ensures var made, asks := ClaimFor(w.tables.claims, service, need, at), dry || su.dryRun;
      && after.planners[|w.planners|].plan == Scheduler.DecidePlan(su.cfg, Sight(su, w, device, probes).(claims :=
                    if asks then DryClaims(w.tables.claims, made) else RealClaims(w.tables.claims, made)))
      && after.tables == if asks then w.tables else w.tables.(claims := w.tables.claims[service := made])
  {
    var p, kind := |w.planners|, RequestFor(service, need, dry);
    var commands := RequestSteps(p, kind, at, device, probes);
    var made, asks := ClaimFor(w.tables.claims, service, need, at), dry || su.dryRun;
    hide Apply, Enabled, Steps;
    assert AsksOnly(su, kind) == asks;
    var claims := if asks then DryClaims(w.tables.claims, made) else RealClaims(w.tables.claims, made);
    var tables := if asks then w.tables else w.tables.(claims := w.tables.claims[service := made]);
    assert asks ==> claims == SnapshotOf(tables.claims) + [made];
    assert !asks ==> claims == SnapshotOf(tables.claims) + [];
    hide *;
    var w2 := FileTheClaim(su, w, commands, after);
    var w4 := SeeAll(su, w2, p, device, probes, commands[2..], after);
    assert commands[2..][2..] == [ReadInflight(p), MakePlan(p)];
    LookAndPlan(su, w4, p, commands[2..][2..], after);
    assert w4.planners[p].obs.claims == claims;
  }

  lemma {:induction false} SeeAll(
    su: Setup, w: World, p: nat, device: Option<Device>, probes: seq<Observe.Probe>, commands: seq<Command>,
    after: World)
    returns (next: World)
    requires |commands| >= 2 && commands[0] == Probe(p, device, probes) && commands[1] == ReadClaims(p)
    requires p < |w.planners| && w.planners[p].mine.Some? && Steps(su, w, commands, after)
    requires |probes| == |su.cfg.services|
    ensures Steps(su, next, commands[2..], after)
    ensures next.tables == w.tables && next.workers == w.workers && |next.planners| == |w.planners|
    ensures next.planners[p].kind == w.planners[p].kind
    ensures var own := if AsksOnly(su, w.planners[p].kind) then [w.planners[p].mine.value] else [];
      next.planners[p].obs
        == Observation(device, Observe.States(su.cfg.services, probes), SnapshotOf(w.tables.claims) + own)
  {
    hide SnapshotOf, AsksOnly, Observe.States, StepWorker;
    var w1 := OneStep(su, w, commands, after);
    next := OneStep(su, w1, commands[1..], after);
    assert commands[1..][1..] == commands[2..];
  }

  lemma {:induction false} FileTheClaim(su: Setup, w: World, commands: seq<Command>, after: World) returns (next: World)
    requires |commands| >= 2 && Steps(su, w, commands, after)
    requires commands[0].Begin? && commands[0].kind.RequestFor?
    requires commands[1].FileClaim? && commands[1].p == |w.planners|
    ensures var kind := commands[0].kind;
      && Configured(su.cfg, kind.service) && Steps(su, next, commands[2..], after)
      && next.workers == w.workers && |next.planners| == |w.planners| + 1
      && var made := ClaimFor(w.tables.claims, kind.service, kind.needMiB, commands[1].at);
         var mine := next.planners[|w.planners|];
         && mine.kind == kind && mine.mine == Some(made)
         && next.tables == (if AsksOnly(su, kind) then w.tables
                            else w.tables.(claims := w.tables.claims[kind.service := made]))
  {
    var w1 := OneStep(su, w, commands, after);
    next := OneStep(su, w1, commands[1..], after);
    assert commands[1..][1..] == commands[2..];
  }

  lemma {:induction false} LookAndPlan(su: Setup, w: World, p: nat, commands: seq<Command>, after: World)
    requires commands == [ReadInflight(p), MakePlan(p)] && Steps(su, w, commands, after)
    requires p < |w.planners| && w.planners[p].kind.RequestFor?
    ensures |after.planners| == |w.planners| && after.tables == w.tables && after.workers == w.workers
    ensures var obs := w.planners[p].obs;
      after.planners[p].plan == DecidePlan(su.cfg, obs.(services := MarkInflight(w.tables.inflight, obs.services)))
  {
    hide DecidePlan, MarkInflight;
    var w1 := OneStep(su, w, commands, after);
    var w2 := OneStep(su, w1, commands[1..], after);
  }

  lemma {:induction false} OneStep(su: Setup, w: World, commands: seq<Command>, after: World) returns (next: World)
    requires commands != [] && Steps(su, w, commands, after)
    ensures Enabled(su, w, commands[0]) && next == Apply(su, w, commands[0]) && Steps(su, next, commands[1..], after)
    ensures |commands| == 1 ==> next == after
  {
    next := Apply(su, w, commands[0]);
    if |commands| == 1 {
      assert commands[1..] == [];
    }
  }

  // ------------------------------------------------------------ in every run

  predicate ReadItsClaims(pc: PlannerPc) {
    pc !in {Begun, Claimed, Probed}
  }

  function OwnClaim(su: Setup, pl: Planner): seq<Claim> {
    if pl.mine.Some? && AsksOnly(su, pl.kind) then [pl.mine.value] else []
  }

  /** Step h filed planner p's claim. */
  ghost predicate FiledAt(su: Setup, commands: seq<Command>, run: seq<World>, pl: Planner, p: nat, h: nat)
    requires |run| == |commands| + 1 && pl.kind.RequestFor?
  {
    && h < |commands| && commands[h].FileClaim? && commands[h].p == p
    && pl.mine == Some(ClaimFor(run[h].tables.claims, pl.kind.service, pl.kind.needMiB, commands[h].at))
    && run[h + 1].tables.claims ==
         if AsksOnly(su, pl.kind) then run[h].tables.claims else run[h].tables.claims[pl.kind.service := pl.mine.value]
  }

  /** Step i read the claims planner p decides on. */
  ghost predicate ReadAt(su: Setup, commands: seq<Command>, run: seq<World>, pl: Planner, p: nat, i: nat)
    requires |run| == |commands| + 1
  {
    && i < |commands| && commands[i] == ReadClaims(p)
    && pl.obs.claims == SnapshotOf(run[i].tables.claims) + OwnClaim(su, pl)
  }

  /** What one step may do to planner p: its claim changes when it is filed, the
      claims it saw when it reads them. */
  lemma {:induction false} PlannerKeeps(su: Setup, w: World, c: Command, p: nat)
    requires Enabled(su, w, c) && p < |w.planners|
    ensures p < |Apply(su, w, c).planners|
    ensures var a, b := w.planners[p], Apply(su, w, c).planners[p];
      && b.kind == a.kind
      && (!(c.FileClaim? && c.p == p) ==> b.mine == a.mine)
      && (a.pc == Begun && b.pc != Begun && a.kind.RequestFor? ==> c.FileClaim? && c.p == p)
      && (a.pc != Begun ==> b.pc != Begun && !(c.FileClaim? && c.p == p))
      && (ReadItsClaims(a.pc) ==> ReadItsClaims(b.pc) && b.obs.claims == a.obs.claims && b.mine == a.mine)
      && (!ReadItsClaims(a.pc) && ReadItsClaims(b.pc) ==> c == ReadClaims(p) && a.pc == Probed)
  {
    hide SnapshotOf, PlanFor, StepWorker, Observe.States, AsksOnly;
    if SlotSafety.MovesWorker(c) {
      SlotSafety.WorkerStepMoves(su, w, c);
      hide Apply;
      assert SlotSafety.SameButResults(w.planners[p], Apply(su, w, c).planners[p]);
    }
  }

  lemma {:induction false} FilingSets(su: Setup, w: World, c: Command)
    requires Enabled(su, w, c) && c.FileClaim?
    ensures var pl, w' := w.planners[c.p], Apply(su, w, c);
      && c.p < |w'.planners|
      && w'.planners[c.p].mine == Some(ClaimFor(w.tables.claims, pl.kind.service, pl.kind.needMiB, c.at))
      && w'.tables.claims == if AsksOnly(su, pl.kind) then w.tables.claims
                             else w.tables.claims[pl.kind.service := w'.planners[c.p].mine.value]
  {
    hide SnapshotOf, PlanFor, StepWorker, AsksOnly;
  }

  lemma {:induction false} ReadingSets(su: Setup, w: World, c: Command)
    requires Enabled(su, w, c) && c.ReadClaims?
    ensures var pl, w' := w.planners[c.p], Apply(su, w, c);
      && c.p < |w'.planners|
      && w'.planners[c.p].obs.claims == SnapshotOf(w.tables.claims) + OwnClaim(su, pl)
      && w'.planners[c.p].mine == pl.mine && w'.planners[c.p].kind == pl.kind
  {
    hide SnapshotOf, PlanFor, StepWorker, AsksOnly;
  }

  /** In every run, whatever interleaves: a request files its claim at one step,
      by the table of that moment, reads the claims at a later one, by the table
      of that moment, and its plan is Decide's for what it read, its own claim
      last when it only asks. */
  lemma {:induction false} RequestPlansInRuns(su: Setup, commands: seq<Command>, run: seq<World>, n: nat, p: nat)
    returns (h: nat, i: nat)
    requires IsRun(su, commands, run) && n < |run|
    requires p < |run[n].planners| && run[n].planners[p].kind.RequestFor? && SlotSafety.Decided(run[n].planners[p].pc)
    ensures var pl := run[n].planners[p];
      && h < i < n && FiledAt(su, commands, run, pl, p, h) && ReadAt(su, commands, run, pl, p, i)
      && pl.plan == Scheduler.DecidePlan(su.cfg, pl.obs)
  {
    hide IsRun, Apply, Enabled, DecidePlan, SnapshotOf;
    Runs.RunHolds(su, commands, run, n);
    assert SlotSafety.PlannerOk(su, run[n].planners[p]);
    hide Runs.Inv;
    h, i := ClaimsRead(su, commands, run, n, p);
  }

  lemma {:induction false} ClaimsRead(su: Setup, commands: seq<Command>, run: seq<World>, n: nat, p: nat)
    returns (h: nat, i: nat)
    requires IsRun(su, commands, run) && n < |run|
    requires p < |run[n].planners| && run[n].planners[p].kind.RequestFor? && ReadItsClaims(run[n].planners[p].pc)
    ensures h < i < n
    ensures FiledAt(su, commands, run, run[n].planners[p], p, h) && ReadAt(su, commands, run, run[n].planners[p], p, i)
    decreases n
  {
    assert n > 0;
    var w, c := run[n - 1], commands[n - 1];
    assert Enabled(su, w, c) && run[n] == Apply(su, w, c);
    BornBegun(su, w, c, p);
    PlannerKeeps(su, w, c, p);
    if c == ReadClaims(p) {
      ReadingSets(su, w, c);
      i := n - 1;
      h := ClaimFiled(su, commands, run, n - 1, p);
    } else {
      h, i := ClaimsRead(su, commands, run, n - 1, p);
    }
  }

  lemma {:induction false} ClaimFiled(su: Setup, commands: seq<Command>, run: seq<World>, n: nat, p: nat)
    returns (h: nat)
    requires IsRun(su, commands, run) && n < |run|
    requires p < |run[n].planners| && run[n].planners[p].kind.RequestFor? && run[n].planners[p].pc != Begun
    ensures h < n && FiledAt(su, commands, run, run[n].planners[p], p, h)
    decreases n
  {
    assert n > 0;
    var w, c := run[n - 1], commands[n - 1];
    assert Enabled(su, w, c) && run[n] == Apply(su, w, c);
    BornBegun(su, w, c, p);
    PlannerKeeps(su, w, c, p);
    if c.FileClaim? && c.p == p {
      FilingSets(su, w, c);
      h := n - 1;
    } else {
      h := ClaimFiled(su, commands, run, n - 1, p);
    }
  }

  /** A planner that is past its beginning was there before the step. */
  lemma {:induction false} BornBegun(su: Setup, w: World, c: Command, p: nat)
    requires Enabled(su, w, c) && p < |Apply(su, w, c).planners| && Apply(su, w, c).planners[p].pc != Begun
    ensures p < |w.planners|
  {
    hide SnapshotOf, PlanFor, StepWorker, Observe.States, AsksOnly;
    if SlotSafety.MovesWorker(c) {
      SlotSafety.WorkerStepMoves(su, w, c);
    }
  }

  // ------------------------------------------------------- dry run against real

  /** From one and the same world, a dry-run request leaves every table and every
      action as it found them, and its plan is the plan of the real request
      exactly when the service does not hold the winning claim for another
      amount, or VRAM cannot be read. */
  lemma {:induction false} DryRunPreviewsTheRequest(
    su: Setup, w: World, service: string, need: u64, at: Instant,
    device: Option<Device>, probes: seq<Observe.Probe>, pretended: World, carried: World)
    requires !su.dryRun && Filed(w.tables.claims) && |probes| == |su.cfg.services|
    requires Steps(su, w, RequestSteps(|w.planners|, RequestFor(service, need, true), at, device, probes), pretended)
    requires Steps(su, w, RequestSteps(|w.planners|, RequestFor(service, need, false), at, device, probes), carried)
    ensures pretended.tables == w.tables && pretended.workers == w.workers
    ensures |pretended.planners| == |carried.planners| == |w.planners| + 1
    ensures pretended.planners[|w.planners|].plan == carried.planners[|w.planners|].plan <==>
      device.None? || !Resized(su.cfg, w.tables.claims, ClaimFor(w.tables.claims, service, need, at))
  {
    hide Steps, Resized, DecidePlan, DryClaims, RealClaims;
    RequestPlans(su, w, service, need, true, at, device, probes, pretended);
    RequestPlans(su, w, service, need, false, at, device, probes, carried);
    PreviewIsExactUnlessResized(su.cfg, Sight(su, w, device, probes), w.tables.claims, service, need, at);
  }

  /** In any interleaving, no step of a dry-run request or eviction changes a
      table or starts an action. */
  lemma {:induction false} AskingChangesNothing(su: Setup, w: World, c: Command)
    requires Runs.Inv(su, w) && Enabled(su, w, c)
    requires c.FileClaim? || c.Probe? || c.ReadClaims? || c.ReadInflight? || c.ReadClock? || c.SweepCooldowns?
             || c.MakePlan? || c.Spawn? || c.Finish?
    requires AsksOnly(su, w.planners[c.p].kind) && !Sweeps(w.planners[c.p].kind)
    ensures Apply(su, w, c).tables == w.tables && Apply(su, w, c).workers == w.workers
  {
    hide PlanFor, SnapshotOf;
    assert SlotSafety.PlannerOk(su, w.planners[c.p]);
  }

  // --------------------------------------------------------------- an example

  /** The preview does differ: "a" holds a claim for 10 MiB and asks again for
      20, and a dry run still plans towards 10. */
  lemma {:induction false} PreviewCanBeWrong(cfg: Config, obs: Observation)
    requires Configured(cfg, "a") && obs.device.Some?
    ensures var claims := map["a" := Claim("a", 10, 0)];
      var made := ClaimFor(claims, "a", 20, 7);
      && Filed(claims)
      && DecidePlan(cfg, obs.(claims := DryClaims(claims, made))).targetFreeMiB == 10
      && DecidePlan(cfg, obs.(claims := RealClaims(claims, made))).targetFreeMiB == 20
  {
    var held := Claim("a", 10, 0);
    var claims := map["a" := held];
    var made := ClaimFor(claims, "a", 20, 7);
    HeldClaimWinsTheTie(cfg, claims, made);
    AskingAgainKeepsTheWinner(cfg, claims, made);
    SnapshotUnique(claims, SnapshotOf(claims));
    BestIsMember(cfg, SnapshotOf(claims));
    hide BestClaim, SnapshotOf, DecidePlan;
    TargetIsWanted(cfg, obs, DryClaims(claims, made));
    TargetIsWanted(cfg, obs, RealClaims(claims, made));
  }
}
