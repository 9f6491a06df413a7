/** The daemon's handlers, read one request at a time, against the interleavings:
    a connection whose steps nothing comes between makes the plan its handler
    makes, and leaves the tables as it leaves them. */
module Served {
  import opened Machine
  import opened Domain
  import opened Tables
  import opened World
  import opened Protocol
  import opened Preview
  import Handlers
  import Observe
  import Scheduler

  /** What a request finds of a world, a card and so many probes. */
  function SceneOf(su: Setup, w: World, at: Instant, device: Option<Device>, probes: seq<Observe.Probe>,
                   carryOut: Plan -> Handlers.Done): Handlers.Scene
    requires |probes| == |su.cfg.services|
  {
    Handlers.Scene(w.tables, at, w.clock, device, Observe.States(su.cfg.services, probes), carryOut)
  }

  lemma {:induction false} RequestIsServed(
    su: Setup, w: World, q: Query, at: Instant, device: Option<Device>, probes: seq<Observe.Probe>,
    carryOut: Plan -> Handlers.Done, after: World)
    requires |probes| == |su.cfg.services| && q.op == Op.Request && Handlers.Names(su, q)
    requires var kind := RequestFor(q.service, q.needMiB, q.dryRun);
      Steps(su, w, RequestSteps(|w.planners|, kind, at, device, probes), after)
    ensures |after.planners| == |w.planners| + 1
    ensures var sc := SceneOf(su, w, at, device, probes, carryOut);
      && after.planners[|w.planners|].plan == Handlers.RequestPlan(su, sc, q)
      && after.tables == Handlers.Left(su, sc, q)
  {
    hide Steps, Scheduler.DecidePlan, DryClaims, RealClaims, MarkInflight, Observe.States;
    RequestPlans(su, w, q.service, q.needMiB, q.dryRun, at, device, probes, after);
  }

  /** An eviction handled from start to plan with nothing in between. */
  function EvictSteps(p: nat, q: Query, device: Option<Device>, probes: seq<Observe.Probe>): seq<Command> {
    [Begin(EvictFor(q.service, q.allExcept, q.dryRun)), Probe(p, device, probes), ReadClaims(p), ReadInflight(p),
     MakePlan(p)]
  }

  /** One thread's planner after a step. */
  lemma {:induction false} OwnStep(su: Setup, w: World, commands: seq<Command>, after: World, p: nat)
    returns (next: World)
    requires commands != [] && Steps(su, w, commands, after)
    requires commands[0].Begin? ==> p == |w.planners|
    requires !commands[0].Begin? ==> commands[0].Probe? || commands[0].ReadClaims? || commands[0].ReadInflight?
                                     || commands[0].ReadClock? || commands[0].SweepCooldowns? || commands[0].MakePlan?
    requires !commands[0].Begin? ==> commands[0].p == p
    ensures Enabled(su, w, commands[0]) && next == Apply(su, w, commands[0]) && Steps(su, next, commands[1..], after)
    ensures |commands| == 1 ==> next == after
    ensures next.clock == w.clock && next.workers == w.workers && p < |next.planners|
    ensures |next.planners| == if commands[0].Begin? then |w.planners| + 1 else |w.planners|
    ensures !commands[0].SweepCooldowns? ==> next.tables == w.tables
  {
    hide StepWorker, PlanFor, SnapshotOf, Observe.States, MarkInflight, MarkCooling, Sweep;
    next := OneStep(su, w, commands, after);
  }

  /** Begin, look and read: what any planner but a request's has then. */
  lemma {:induction false} Looks(
    su: Setup, w: World, kind: PlannerKind, device: Option<Device>, probes: seq<Observe.Probe>,
    commands: seq<Command>, after: World)
    returns (next: World)
    requires |probes| == |su.cfg.services| && !kind.RequestFor? && |commands| > 4
    requires commands[..4] == [Begin(kind), Probe(|w.planners|, device, probes), ReadClaims(|w.planners|),
                               ReadInflight(|w.planners|)]
    requires Steps(su, w, commands, after)
    ensures Steps(su, next, commands[4..], after)
    ensures next.tables == w.tables && next.clock == w.clock && |next.planners| == |w.planners| + 1
    ensures var pl := next.planners[|w.planners|];
      && pl.kind == kind && pl.pc == InflightRead
      && pl.obs == Observation(device, MarkInflight(w.tables.inflight, Observe.States(su.cfg.services, probes)),
                               SnapshotOf(w.tables.claims))
  {
    var p := |w.planners|;
    hide StepWorker, SnapshotOf, Observe.States, MarkInflight, AsksOnly, Steps;
    assert commands[0] == commands[..4][0] && commands[1] == commands[..4][1];
    assert commands[2] == commands[..4][2] && commands[3] == commands[..4][3];
    var w1 := OwnStep(su, w, commands, after, p);
    assert commands[1..][1..] == commands[2..];
    var w2 := OwnStep(su, w1, commands[1..], after, p);
    assert commands[2..][1..] == commands[3..];
    var w3 := OwnStep(su, w2, commands[2..], after, p);
    assert SnapshotOf(w.tables.claims) + [] == SnapshotOf(w.tables.claims);
    assert commands[3..][1..] == commands[4..];
    next := OwnStep(su, w3, commands[3..], after, p);
  }

  lemma {:induction false} Plans(su: Setup, w: World, p: nat, after: World)
    requires p < |w.planners| && Steps(su, w, [MakePlan(p)], after)
    ensures |after.planners| == |w.planners| && after.tables == w.tables
    ensures after.planners[p].plan == PlanFor(su, w.planners[p].kind, w.planners[p].obs)
  {
    hide StepWorker, PlanFor, Steps;
    var next := OneStep(su, w, [MakePlan(p)], after);
  }

  lemma {:induction false} EvictIsServed(
    su: Setup, w: World, q: Query, device: Option<Device>, probes: seq<Observe.Probe>,
    carryOut: Plan -> Handlers.Done, after: World)
    requires |probes| == |su.cfg.services| && q.op == Op.Evict
    requires Steps(su, w, EvictSteps(|w.planners|, q, device, probes), after)
    ensures |after.planners| == |w.planners| + 1
    ensures var sc := SceneOf(su, w, 0, device, probes, carryOut);
      && after.planners[|w.planners|].plan == Handlers.EvictPlan(sc, q)
      && after.tables == Handlers.Left(su, sc, q)
  {
    var p, commands := |w.planners|, EvictSteps(|w.planners|, q, device, probes);
    hide Steps, Scheduler.EvictPlan, Scheduler.EvictAllExceptPlan, MarkInflight, SnapshotOf, Observe.States, Apply,
         Enabled;
    var kind := EvictFor(q.service, q.allExcept, q.dryRun);
    var looked := Looks(su, w, kind, device, probes, commands, after);
    assert commands[4..] == [MakePlan(p)];
    Plans(su, looked, p, after);
    EvictReads(su, w, q, device, probes, carryOut);
    hide Handlers.EvictPlan, Handlers.Left, PlanFor;
  }

  lemma {:induction false} EvictReads(
    su: Setup, w: World, q: Query, device: Option<Device>, probes: seq<Observe.Probe>,
    carryOut: Plan -> Handlers.Done)
    requires |probes| == |su.cfg.services| && q.op == Op.Evict
    ensures var sc := SceneOf(su, w, 0, device, probes, carryOut);
      && Handlers.Left(su, sc, q) == w.tables
      && Handlers.EvictPlan(sc, q)
           == PlanFor(su, EvictFor(q.service, q.allExcept, q.dryRun),
                      Observation(device, MarkInflight(w.tables.inflight, Observe.States(su.cfg.services, probes)),
                                  SnapshotOf(w.tables.claims)))
  {
    hide Scheduler.EvictPlan, Scheduler.EvictAllExceptPlan, MarkInflight, SnapshotOf, Observe.States;
  }

  /** A round of the loop, or a preview of one, with nothing in between. */
  function RoundSteps(p: nat, kind: PlannerKind, device: Option<Device>, probes: seq<Observe.Probe>): seq<Command> {
    [Begin(kind), Probe(p, device, probes), ReadClaims(p), ReadInflight(p), ReadClock(p), SweepCooldowns(p),
     MakePlan(p)]
  }

  lemma {:induction false} SweepsAndPlans(su: Setup, w: World, p: nat, after: World)
    requires p < |w.planners| && w.planners[p].pc == InflightRead
    requires Steps(su, w, [ReadClock(p), SweepCooldowns(p), MakePlan(p)], after)
    ensures |after.planners| == |w.planners|
    ensures var cooldowns, obs := Sweep(w.tables.cooldowns, w.clock), w.planners[p].obs;
      && after.tables == w.tables.(cooldowns := cooldowns)
      && after.planners[p].plan
           == PlanFor(su, w.planners[p].kind, obs.(services := MarkCooling(cooldowns, obs.services)))
  {
    var commands := [ReadClock(p), SweepCooldowns(p), MakePlan(p)];
    hide StepWorker, PlanFor, Steps, Sweep, MarkCooling;
    var timed := OwnStep(su, w, commands, after, p);
    assert commands[1..] == [SweepCooldowns(p), MakePlan(p)];
    var swept := OwnStep(su, timed, commands[1..], after, p);
    assert commands[1..][1..] == [MakePlan(p)];
    Plans(su, swept, p, after);
  }

  /** `plan` answers with what a round of the loop in its place would plan, and
      either leaves the tables swept and otherwise alone. */
  lemma {:induction false} PlanIsServed(
    su: Setup, w: World, q: Query, kind: PlannerKind, device: Option<Device>, probes: seq<Observe.Probe>,
    carryOut: Plan -> Handlers.Done, after: World)
    requires |probes| == |su.cfg.services| && q.op == Op.Preview && (kind.Tick? || kind.PlanQuery?)
    requires Steps(su, w, RoundSteps(|w.planners|, kind, device, probes), after)
    ensures |after.planners| == |w.planners| + 1
    ensures var sc := SceneOf(su, w, 0, device, probes, carryOut);
      && after.planners[|w.planners|].plan == Handlers.NextTickPlan(su, sc)
      && after.tables == Handlers.Left(su, sc, q)
  {
    var p, commands := |w.planners|, RoundSteps(|w.planners|, kind, device, probes);
    hide Steps, Scheduler.DecidePlan, MarkInflight, MarkCooling, Sweep, SnapshotOf, Observe.States, Apply, Enabled;
    var looked := Looks(su, w, kind, device, probes, commands, after);
    assert commands[4..] == [ReadClock(p), SweepCooldowns(p), MakePlan(p)];
    SweepsAndPlans(su, looked, p, after);
    NextTickReads(su, w, q, kind, device, probes, carryOut);
    hide Handlers.NextTickPlan, Handlers.Left, PlanFor;
  }

  lemma {:induction false} NextTickReads(
    su: Setup, w: World, q: Query, kind: PlannerKind, device: Option<Device>, probes: seq<Observe.Probe>,
    carryOut: Plan -> Handlers.Done)
    requires |probes| == |su.cfg.services| && q.op == Op.Preview && (kind.Tick? || kind.PlanQuery?)
    ensures var sc, cooldowns := SceneOf(su, w, 0, device, probes, carryOut), Sweep(w.tables.cooldowns, w.clock);
      var services := MarkInflight(w.tables.inflight, Observe.States(su.cfg.services, probes));
      && Handlers.Left(su, sc, q) == w.tables.(cooldowns := cooldowns)
      && Handlers.NextTickPlan(su, sc)
           == PlanFor(su, kind,
                      Observation(device, MarkCooling(cooldowns, services), SnapshotOf(w.tables.claims)))
  {
    hide Scheduler.DecidePlan, MarkInflight, MarkCooling, Sweep, SnapshotOf, Observe.States;
  }

  /** A claim is released in one step. */
  lemma {:induction false} ReleaseIsServed(su: Setup, w: World, q: Query, sc: Handlers.Scene)
    requires q.op == ReleaseClaim && Handlers.Names(su, q) && !q.dryRun && !su.dryRun && sc.tables == w.tables
    ensures Enabled(su, w, DropClaim(q.service))
    ensures Apply(su, w, DropClaim(q.service)).tables == Handlers.Left(su, sc, q)
  {
  }
}
