/** How often the loop can do something useless to one service. As long as only
    the loop acts on it, and its actions on it have met their slot before the next
    round looks, a service it failed on is left alone for a whole cooldown. */
module Retry {
  import opened Domain
  import opened Tables
  import opened World
  import opened SlotSafety
  import opened NoGap
  import Accounting
  import Runs

  /** Only the loop acts on s, and every action it spawned on s has reached
      acquire by the time the loop next reads inflight. Other services are left
      out of it: clients may act on them and their actions may be slow to start. */
  ghost predicate Calm(w: World, c: Command, s: string) {
    && (c.Spawn? && SpawnsOn(w, c.p, s) ==> w.planners[c.p].kind.Tick?)
    && (c.ReadInflight? && c.p < |w.planners| && w.planners[c.p].kind.Tick? ==>
          forall k :: 0 <= k < |w.workers| && OnService(w.workers[k], s) ==> w.workers[k].pc != Spawned)
  }

  /** Planner p is about to start an action on s. */
  predicate SpawnsOn(w: World, p: nat, s: string) {
    p < |w.planners| && var pl := w.planners[p];
    pl.spawned < |pl.plan.actions| && pl.plan.actions[pl.spawned].service == s
  }

  predicate OnService(wk: Worker, s: string) {
    wk.action.service == s
  }

  ghost predicate IsCalmRun(su: Setup, commands: seq<Command>, run: seq<World>, s: string) {
    IsRun(su, commands, run) && forall i :: 0 <= i < |commands| ==> Calm(run[i], commands[i], s)
  }

  // --------------------------------------------------------------- invariants

  /** a is an earlier round of the loop than b. */
  predicate RoundsInOrder(a: Planner, b: Planner) {
    a.kind.Tick? && b.kind.Tick? ==>
      && a.pc.Finished?
      && (PastSnapshot(b.pc) ==> a.sweptAt < b.snapAt)
      && (PastSweep(b) ==> a.sweepClock <= b.sweepClock)
  }

  /** What round p, by its snapshot, knows of worker k. */
  predicate Knows(pl: Planner, p: nat, wk: Worker, k: nat) {
    pl.kind.Tick? && PastSnapshot(pl.pc) ==>
      if k < pl.seen then wk.planner < p && wk.pc != Spawned && (TookSlot(wk.pc) ==> wk.acqAt < pl.snapAt)
      else wk.planner >= p
  }

  /** A worker acts after its plan was made, and is judged no earlier. */
  predicate FollowsPlan(planners: seq<Planner>, wk: Worker) {
    wk.planner < |planners| && planners[wk.planner].kind.Tick?
    && (TookSlot(wk.pc) ==> planners[wk.planner].sweptAt < wk.acqAt)
    && (wk.effect != Pending ==> planners[wk.planner].sweepClock <= wk.recClock)
  }

  /** Of the workers on s: what each round knows of each, and that each is the
      loop's own. */
  ghost predicate AllKnown(w: World, s: string) {
    forall p, k :: 0 <= p < |w.planners| && 0 <= k < |w.workers| && OnService(w.workers[k], s) ==>
      Knows(w.planners[p], p, w.workers[k], k)
  }

  ghost predicate AllFollow(w: World, s: string) {
    forall k :: 0 <= k < |w.workers| && OnService(w.workers[k], s) ==> FollowsPlan(w.planners, w.workers[k])
  }

  ghost predicate CalmInv(w: World, s: string) {
    && (forall p, q :: 0 <= p < q < |w.planners| ==> RoundsInOrder(w.planners[p], w.planners[q]))
    && AllKnown(w, s) && AllFollow(w, s)
  }

  // ---------------------------------------------------------- they are kept

  lemma {:induction false} WorkerStepKeepsKnows(su: Setup, w: World, c: Command, s: string)
    requires CalmInv(w, s) && Enabled(su, w, c) && MovesWorker(c)
    ensures AllKnown(Apply(su, w, c), s)
  {
    var w' := Apply(su, w, c);
    WorkerStepMoves(su, w, c);
    MoverKeepsSlots(su, w, c);
    hide Apply, Enabled, TookSlot;
    forall p, k | 0 <= p < |w'.planners| && 0 <= k < |w'.workers| && OnService(w'.workers[k], s)
      ensures Knows(w'.planners[p], p, w'.workers[k], k)
    {
      assert Knows(w.planners[p], p, w.workers[k], k) && SameButResults(w.planners[p], w'.planners[p]);
    }
  }

  lemma {:induction false} MoverFollowsPlan(su: Setup, w: World, c: Command, s: string)
    requires CalmInv(w, s) && Times(w) && Shape(su, w) && Enabled(su, w, c) && MovesWorker(c)
    requires OnService(w.workers[c.k], s)
    ensures c.k < |Apply(su, w, c).workers| && FollowsPlan(w.planners, Apply(su, w, c).workers[c.k])
  {
    var wk := w.workers[c.k];
    WorkerStepMoves(su, w, c);
    FreshOrSame(su, w, c);
    WorkersFollow(su, w, s);
    var wk' := Apply(su, w, c).workers[c.k];
    assert PlannerTimes(w, w.planners[wk.planner]);
    hide Apply, Enabled, CalmInv, Times, Shape;
    assert WorkerOk(w.planners, wk) && FollowsPlan(w.planners, wk) && SameErrand(wk, wk');
  }

  /** A slot or a record is the one the worker had, or is made at this step. */
  lemma {:induction false} FreshOrSame(su: Setup, w: World, c: Command)
    requires Enabled(su, w, c) && MovesWorker(c)
    ensures c.k < |Apply(su, w, c).workers|
    ensures var a, b := w.workers[c.k], Apply(su, w, c).workers[c.k];
      && (TookSlot(b.pc) ==> (TookSlot(a.pc) && b.acqAt == a.acqAt) || b.acqAt == w.step)
      && (b.effect != Pending ==> (a.effect != Pending && b.recClock == a.recClock) || b.recClock == w.clock)
  {
    hide StepPlanner, Judge, GateOf, Record;
  }

  lemma {:induction false} WorkerStepKeepsFollowing(su: Setup, w: World, c: Command, s: string)
    requires CalmInv(w, s) && Times(w) && Shape(su, w) && Enabled(su, w, c) && MovesWorker(c)
    ensures AllFollow(Apply(su, w, c), s)
  {
    var w' := Apply(su, w, c);
    WorkerStepMoves(su, w, c);
    hide Apply, Enabled, Shape, Times, WorkerMoved, FollowsPlan;
    if OnService(w.workers[c.k], s) {
      MoverFollowsPlan(su, w, c, s);
    }
    WorkerStepShifts(w, w', c.k);
    forall k | 0 <= k < |w'.workers| && OnService(w'.workers[k], s) ensures FollowsPlan(w'.planners, w'.workers[k]) {
      if k == c.k {
        PlansStillFollowed(w.planners, w'.planners, w'.workers[k]);
      } else {
        assert FollowsPlan(w.planners, w.workers[k]);
        PlansStillFollowed(w.planners, w'.planners, w.workers[k]);
      }
    }
  }

  /** What WorkerMoved says, worker by worker and planner by planner. */
  lemma {:induction false} WorkerStepShifts(w: World, w': World, k: nat)
    requires WorkerMoved(w, w', k)
    ensures |w'.workers| == |w.workers| && k < |w.workers| && |w'.planners| == |w.planners|
    ensures w'.workers[k].action == w.workers[k].action
    ensures forall j :: 0 <= j < |w.workers| && j != k ==> w'.workers[j] == w.workers[j]
    ensures forall q :: 0 <= q < |w.planners| ==> SameButResults(w.planners[q], w'.planners[q])
  {
  }

  lemma {:induction false} PlansStillFollowed(before: seq<Planner>, after: seq<Planner>, wk: Worker)
    requires FollowsPlan(before, wk) && |after| == |before|
    requires forall q :: 0 <= q < |before| ==> SameButResults(before[q], after[q])
    ensures FollowsPlan(after, wk)
  {
    assert SameButResults(before[wk.planner], after[wk.planner]);
  }

  lemma {:induction false} WorkerStepKeepsCalm(su: Setup, w: World, c: Command, s: string)
    requires CalmInv(w, s) && Times(w) && Shape(su, w) && Enabled(su, w, c) && MovesWorker(c)
    ensures CalmInv(Apply(su, w, c), s)
  {
    WorkerStepKeepsKnows(su, w, c, s);
    WorkerStepKeepsFollowing(su, w, c, s);
    WorkerStepMoves(su, w, c);
    hide Apply, Enabled, Shape, Times;
    var w' := Apply(su, w, c);
    forall p, q | 0 <= p < q < |w'.planners| ensures RoundsInOrder(w'.planners[p], w'.planners[q]) {
      assert RoundsInOrder(w.planners[p], w.planners[q]);
      assert SameButResults(w.planners[p], w'.planners[p]) && SameButResults(w.planners[q], w'.planners[q]);
    }
  }

  /** A finished planner takes no more steps, and a decided one stays decided. */
  lemma {:induction false} FinishedStays(su: Setup, w: World, c: Command)
    requires Enabled(su, w, c) && !MovesWorker(c)
    ensures var w' := Apply(su, w, c);
      && |w.planners| <= |w'.planners|
      && (forall p :: 0 <= p < |w.planners| ==>
            && (w.planners[p].pc.Finished? ==> w'.planners[p] == w.planners[p])
            && (Decided(w.planners[p].pc) ==> Decided(w'.planners[p].pc)))
      && (forall p :: |w.planners| <= p < |w'.planners| ==> c.Begin? && w'.planners[p] == NewPlanner(c.kind))
  {
    hide StepWorker, PlanFor, AsksOnly, SnapshotOf, Sweep;
  }

  lemma {:induction false} OneRoundAtATime(su: Setup, w: World, c: Command)
    requires Enabled(su, w, c) && Quiet(c)
    ensures c.Begin? && c.kind.Tick? ==>
      forall p :: 0 <= p < |w.planners| && w.planners[p].kind.Tick? ==> w.planners[p].pc.Finished?
    ensures |Apply(su, w, c).planners| <= |w.planners| + 1
  {
    hide StepWorker, PlanFor, AsksOnly, SnapshotOf;
  }

  lemma {:induction false} QuietStepKeepsRounds(su: Setup, w: World, c: Command, s: string)
    requires CalmInv(w, s) && Enabled(su, w, c) && Quiet(c)
    ensures var w' := Apply(su, w, c);
      forall p, q :: 0 <= p < q < |w'.planners| ==> RoundsInOrder(w'.planners[p], w'.planners[q])
  {
    hide Apply, Enabled, AllKnown, AllFollow;
    var w' := Apply(su, w, c);
    FinishedStays(su, w, c);
    QuietStep(su, w, c);
    OneRoundAtATime(su, w, c);
    forall p, q | 0 <= p < q < |w'.planners| ensures RoundsInOrder(w'.planners[p], w'.planners[q]) {
      assert MovesOn(w.planners[p], w'.planners[p]);
      if q < |w.planners| {
        assert RoundsInOrder(w.planners[p], w.planners[q]) && MovesOn(w.planners[q], w'.planners[q]);
      }
    }
  }

  lemma {:induction false} QuietStepKeepsKnows(su: Setup, w: World, c: Command, s: string)
    requires CalmInv(w, s) && Times(w) && Enabled(su, w, c) && Quiet(c) && Calm(w, c, s)
    ensures AllKnown(Apply(su, w, c), s)
  {
    var w' := Apply(su, w, c);
    QuietStep(su, w, c);
    OtherStepKeepsWorkers(su, w, c);
    assert c.Spawn? ==> w.planners[c.p].pc == Planned && |w'.workers| == |w.workers| + 1
                        && w'.workers[|w.workers|].planner == c.p;
    hide Apply, Enabled;
    forall p, k | 0 <= p < |w'.planners| && 0 <= k < |w'.workers| && OnService(w'.workers[k], s)
      ensures Knows(w'.planners[p], p, w'.workers[k], k)
    {
      if p < |w.planners| {
        assert MovesOn(w.planners[p], w'.planners[p]) && PlannerTimes(w, w.planners[p]);
        if k < |w.workers| {
          assert w'.workers[k] == w'.workers[..|w.workers|][k];
          assert Knows(w.planners[p], p, w.workers[k], k);
        } else if c.p < p {
          assert RoundsInOrder(w.planners[c.p], w.planners[p]);
        }
      }
    }
  }

  lemma {:induction false} QuietStepKeepsFollower(su: Setup, w: World, c: Command, wk: Worker)
    requires WorkerOk(w.planners, wk) && FollowsPlan(w.planners, wk) && Enabled(su, w, c) && Quiet(c)
    ensures FollowsPlan(Apply(su, w, c).planners, wk)
  {
    QuietStep(su, w, c);
    FinishedStays(su, w, c);
    hide Apply, Enabled;
    assert MovesOn(w.planners[wk.planner], Apply(su, w, c).planners[wk.planner]);
  }

  lemma {:induction false} NewWorkerFollows(su: Setup, w: World, c: Command, s: string)
    requires Enabled(su, w, c) && c.Spawn? && Calm(w, c, s)
    ensures var w' := Apply(su, w, c);
      && |w'.workers| == |w.workers| + 1
      && (OnService(w'.workers[|w.workers|], s) ==> FollowsPlan(w'.planners, w'.workers[|w.workers|]))
  {
  }

  lemma {:induction false} WorkersFollow(su: Setup, w: World, s: string)
    requires CalmInv(w, s) && Shape(su, w)
    ensures forall k :: 0 <= k < |w.workers| ==> WorkerOk(w.planners, w.workers[k])
    ensures forall k :: 0 <= k < |w.workers| && OnService(w.workers[k], s) ==> FollowsPlan(w.planners, w.workers[k])
  {
    hide WorkerOk, FollowsPlan, PlannerOk;
  }

  lemma {:induction false} QuietStepKeepsFollowing(su: Setup, w: World, c: Command, s: string)
    requires CalmInv(w, s) && Shape(su, w) && Enabled(su, w, c) && Quiet(c) && Calm(w, c, s)
    ensures AllFollow(Apply(su, w, c), s)
  {
    hide Apply, Enabled, WorkerOk, FollowsPlan, PlannerOk, CalmInv, Shape, Calm;
    var w' := Apply(su, w, c);
    OtherStepKeepsWorkers(su, w, c);
    if c.Spawn? {
      NewWorkerFollows(su, w, c, s);
    }
    WorkersFollow(su, w, s);
    forall k | 0 <= k < |w'.workers| && OnService(w'.workers[k], s) ensures FollowsPlan(w'.planners, w'.workers[k]) {
      if k < |w.workers| {
        assert w'.workers[k] == w'.workers[..|w.workers|][k];
        QuietStepKeepsFollower(su, w, c, w.workers[k]);
      }
    }
  }

  /** At its snapshot a round of the loop knows every worker there is. */
  lemma {:induction false} SnapshotKnowsAll(su: Setup, w: World, p: nat, k: nat, s: string)
    requires CalmInv(w, s) && Shape(su, w) && PlannerAt(w, p, ClaimsRead) && w.planners[p].kind.Tick?
    requires k < |w.workers| && OnService(w.workers[k], s)
    ensures w.workers[k].planner < p
  {
    hide PlannerOk;
    assert FollowsPlan(w.planners, w.workers[k]) && WorkerOk(w.planners, w.workers[k]);
  }

  /** Reading inflight or sweeping changes one planner, and of it only this. */
  lemma {:induction false} ReadingStep(su: Setup, w: World, c: Command)
    requires Enabled(su, w, c) && (c.ReadInflight? || c.SweepCooldowns?)
    ensures var w' := Apply(su, w, c);
      && c.p < |w.planners| && |w'.planners| == |w.planners|
      && w'.workers == w.workers && w'.planners == w.planners[c.p := w'.planners[c.p]]
      && (var pl, pl' := w.planners[c.p], w'.planners[c.p];
          && (c.ReadInflight? ==> pl.pc == ClaimsRead && pl' == pl.(pc := InflightRead, snapAt := w.step,
                seen := |w.workers|, obs := pl'.obs))
          && (c.SweepCooldowns? ==> pl.pc == ClockRead && pl' == pl.(pc := Swept, sweptAt := w.step,
                sweepClock := w.clock, obs := pl'.obs)))
  {
    hide StepWorker, PlanFor, MarkInflight, MarkCooling, Sweep;
  }

  lemma {:induction false} ReadingStepKeepsRounds(su: Setup, w: World, c: Command, s: string)
    requires CalmInv(w, s) && Times(w) && Enabled(su, w, c) && (c.ReadInflight? || c.SweepCooldowns?)
    ensures var w' := Apply(su, w, c);
      forall p, q :: 0 <= p < q < |w'.planners| ==> RoundsInOrder(w'.planners[p], w'.planners[q])
  {
    ReadingStep(su, w, c);
    hide Apply, Enabled, AllKnown, AllFollow;
    var w' := Apply(su, w, c);
    forall p, q | 0 <= p < q < |w'.planners| ensures RoundsInOrder(w'.planners[p], w'.planners[q]) {
      assert RoundsInOrder(w.planners[p], w.planners[q]) && PlannerTimes(w, w.planners[p]);
    }
  }

  lemma {:induction false} ReadingStepKeepsKnows(su: Setup, w: World, c: Command, s: string)
    requires CalmInv(w, s) && Times(w) && Shape(su, w) && Enabled(su, w, c) && Calm(w, c, s)
    requires c.ReadInflight? || c.SweepCooldowns?
    ensures AllKnown(Apply(su, w, c), s)
  {
    ReadingStep(su, w, c);
    hide Apply, Enabled, Shape, AllFollow;
    var w' := Apply(su, w, c);
    forall p, k | 0 <= p < |w'.planners| && 0 <= k < |w'.workers| && OnService(w'.workers[k], s)
      ensures Knows(w'.planners[p], p, w'.workers[k], k)
    {
      assert Knows(w.planners[p], p, w.workers[k], k) && WorkerTimes(w, w.workers[k]);
      if p == c.p && c.ReadInflight? && w.planners[p].kind.Tick? {
        SnapshotKnowsAll(su, w, p, k, s);
      }
    }
  }

  lemma {:induction false} ReadingStepKeepsFollowing(su: Setup, w: World, c: Command, s: string)
    requires CalmInv(w, s) && Shape(su, w) && Enabled(su, w, c) && (c.ReadInflight? || c.SweepCooldowns?)
    ensures AllFollow(Apply(su, w, c), s)
  {
    ReadingStep(su, w, c);
    WorkersFollow(su, w, s);
    hide Apply, Enabled, Shape, CalmInv;
    var w' := Apply(su, w, c);
    forall k | 0 <= k < |w'.workers| && OnService(w'.workers[k], s) ensures FollowsPlan(w'.planners, w'.workers[k]) {
      assert FollowsPlan(w.planners, w.workers[k]) && WorkerOk(w.planners, w.workers[k]);
    }
  }

  lemma {:induction false} StepKeepsCalm(su: Setup, w: World, c: Command, s: string)
    requires CalmInv(w, s) && Times(w) && Shape(su, w) && Enabled(su, w, c) && Calm(w, c, s)
    ensures CalmInv(Apply(su, w, c), s)
  {
    hide Apply, Enabled, Shape, Times, Calm;
    if MovesWorker(c) {
      WorkerStepKeepsCalm(su, w, c, s);
    } else if Quiet(c) {
      QuietStepKeepsRounds(su, w, c, s);
      QuietStepKeepsKnows(su, w, c, s);
      QuietStepKeepsFollowing(su, w, c, s);
    } else {
      ReadingStepKeepsRounds(su, w, c, s);
      ReadingStepKeepsKnows(su, w, c, s);
      ReadingStepKeepsFollowing(su, w, c, s);
    }
  }

  lemma {:induction false} CalmRunHolds(su: Setup, commands: seq<Command>, run: seq<World>, i: nat, s: string)
    requires IsCalmRun(su, commands, run, s) && i < |run|
    ensures CalmInv(run[i], s) && Runs.Inv(su, run[i])
  {
    hide Runs.Inv, Apply, Enabled, Calm;
    Runs.RunHolds(su, commands, run, i);
    if i > 0 {
      CalmRunHolds(su, commands, run, i - 1, s);
      InvParts(su, run[i - 1]);
      hide Shape, Times, CalmInv;
      StepKeepsCalm(su, run[i - 1], commands[i - 1], s);
    }
  }

  lemma {:induction false} InvParts(su: Setup, w: World)
    requires Runs.Inv(su, w)
    ensures Shape(su, w) && Times(w)
  {
  }

  // --------------------------------------------------------------- what follows

  /** Two different rounds that both named s: by the later one's snapshot the
      earlier one's action was over. */
  lemma {:induction false} EarlierIsOver(su: Setup, w: World, q: nat, k: nat, a: Action, s: string)
    requires CalmInv(w, s) && Runs.Inv(su, w)
    requires q < |w.planners| && w.planners[q].kind.Tick? && Decided(w.planners[q].pc)
    requires a in w.planners[q].plan.actions && a.service == s
    requires k < |w.workers| && OnService(w.workers[k], s)
    requires w.workers[k].planner < q && w.workers[k].effect != Pending
    ensures w.workers[k].recAt < w.planners[q].sweptAt
    ensures w.workers[k].effect == Useless ==>
      w.planners[q].sweepClock >= Until(su, w.workers[k]) || ClearedBefore(w.workers, k, w.planners[q].sweptAt)
  {
    hide PlanFor;
    InvParts(su, w);
    assert Knows(w.planners[q], q, w.workers[k], k);
    assert WorkerTimes(w, w.workers[k]) && PlannerTimes(w, w.planners[q]);
    hide Shape, Times;
    Runs.NoGapInWorld(su, w, q, k, a);
  }

  /** A round of the loop that names s is built no sooner than a full cooldown
      after every useless action an earlier round took on s. */
  lemma {:induction false} PlanWaitsOut(su: Setup, w: World, q: nat, k: nat, a: Action, s: string)
    requires CalmInv(w, s) && Runs.Inv(su, w)
    requires q < |w.planners| && w.planners[q].kind.Tick? && Decided(w.planners[q].pc)
    requires a in w.planners[q].plan.actions && a.service == s
    requires k < |w.workers| && OnService(w.workers[k], s)
    requires w.workers[k].planner < q && w.workers[k].effect == Useless
    requires DistinctServices(su.cfg.services)
    ensures w.planners[q].sweepClock >= Until(su, w.workers[k])
    decreases q
  {
    hide Runs.Inv, CalmInv, DistinctServices;
    EarlierIsOver(su, w, q, k, a, s);
    if ClearedBefore(w.workers, k, w.planners[q].sweptAt) {
      var m: nat :| Clears(w.workers, k, m) && w.workers[m].recAt < w.planners[q].sweptAt;
      var r := w.workers[m].planner;
      ClearerComesBetween(su, w, q, k, m, s);
      PlanWaitsOut(su, w, r, k, w.workers[m].action, s);
      ClocksInOrder(su, w, r, q, s);
    }
  }

  lemma {:induction false} ClocksInOrder(su: Setup, w: World, r: nat, q: nat, s: string)
    requires CalmInv(w, s) && r < q < |w.planners| && w.planners[q].kind.Tick? && Decided(w.planners[q].pc)
    requires w.planners[r].kind.Tick?
    ensures w.planners[r].sweepClock <= w.planners[q].sweepClock
  {
    assert RoundsInOrder(w.planners[r], w.planners[q]);
  }

  /** An effective action that cleared s before round q came from a round
      between k's and q. */
  lemma {:induction false} ClearerComesBetween(su: Setup, w: World, q: nat, k: nat, m: nat, s: string)
    requires CalmInv(w, s) && Runs.Inv(su, w)
    requires q < |w.planners| && w.planners[q].kind.Tick? && Decided(w.planners[q].pc)
    requires k < |w.workers| && m < |w.workers| && OnService(w.workers[k], s) && w.workers[k].effect == Useless
    requires Clears(w.workers, k, m) && w.workers[m].recAt < w.planners[q].sweptAt
    requires w.workers[k].planner < q && DistinctServices(su.cfg.services)
    ensures var r := w.workers[m].planner;
      && w.workers[k].planner < r < q && w.planners[r].kind.Tick? && Decided(w.planners[r].pc)
      && w.workers[m].action in w.planners[r].plan.actions
  {
    InvParts(su, w);
    WorkerFacts(su, w, m, s);
    hide Runs.Inv, CalmInv, Shape, Times, DistinctServices;
    ClearerIsLater(su, w, k, m, s);
    ClearerIsNoLater(w, w.workers[m].planner, q, w.workers[m], s);
  }

  lemma {:induction false} ClearerIsNoLater(w: World, r: nat, q: nat, clearer: Worker, s: string)
    requires CalmInv(w, s) && Times(w) && r < |w.planners| && q < |w.planners|
    requires w.planners[q].kind.Tick? && w.planners[r].kind.Tick? && Decided(w.planners[r].pc)
    requires w.planners[r].sweptAt < clearer.recAt < w.planners[q].sweptAt
    ensures r < q
  {
    hide CalmInv, Times;
    if q < r {
      RoundsApart(w, q, r, s);
    }
  }

  /** An action that clears k comes from a later round than k. */
  lemma {:induction false} ClearerIsLater(su: Setup, w: World, k: nat, m: nat, s: string)
    requires CalmInv(w, s) && Runs.Inv(su, w) && DistinctServices(su.cfg.services)
    requires k < |w.workers| && m < |w.workers| && OnService(w.workers[k], s)
    requires w.workers[k].effect == Useless && Clears(w.workers, k, m)
    ensures w.workers[k].planner < w.workers[m].planner
  {
    InvParts(su, w);
    WorkerFacts(su, w, m, s);
    WorkerFacts(su, w, k, s);
    hide Runs.Inv, CalmInv, Shape, Times, DistinctServices;
    if w.workers[m].planner < w.workers[k].planner {
      EarlierIsOver(su, w, w.workers[k].planner, m, w.workers[k].action, s);
    } else if w.workers[m].planner == w.workers[k].planner {
      SameRoundSameWorker(su, w, k, m, s);
    }
  }

  lemma {:induction false} RoundsApart(w: World, q: nat, r: nat, s: string)
    requires CalmInv(w, s) && Times(w)
    requires q < r < |w.planners| && w.planners[q].kind.Tick? && w.planners[r].kind.Tick? && Decided(w.planners[r].pc)
    ensures w.planners[q].sweptAt < w.planners[r].sweptAt
  {
    assert RoundsInOrder(w.planners[q], w.planners[r]) && PlannerTimes(w, w.planners[r]);
  }

  lemma {:induction false} WorkerFacts(su: Setup, w: World, k: nat, s: string)
    requires CalmInv(w, s) && Shape(su, w) && Times(w) && k < |w.workers| && OnService(w.workers[k], s)
    ensures w.workers[k].planner < |w.planners| && w.planners[w.workers[k].planner].kind.Tick?
    ensures Decided(w.planners[w.workers[k].planner].pc)
    ensures w.workers[k].action in w.planners[w.workers[k].planner].plan.actions
    ensures w.workers[k].effect != Pending ==>
      && w.planners[w.workers[k].planner].sweptAt < w.workers[k].acqAt < w.workers[k].recAt
      && w.planners[w.workers[k].planner].sweepClock <= w.workers[k].recClock
  {
    assert WorkerOk(w.planners, w.workers[k]) && FollowsPlan(w.planners, w.workers[k]) && WorkerTimes(w, w.workers[k]);
  }

  /** One round never runs two actions on one service. */
  lemma {:induction false} SameRoundSameWorker(su: Setup, w: World, k: nat, m: nat, s: string)
    requires CalmInv(w, s) && Shape(su, w) && k < |w.workers| && m < |w.workers|
    requires w.workers[k].planner == w.workers[m].planner
    requires OnService(w.workers[k], s) && OnService(w.workers[m], s)
    requires DistinctServices(su.cfg.services)
    ensures k == m
  {
    var wk, wm := w.workers[k], w.workers[m];
    assert WorkerOk(w.planners, wk) && WorkerOk(w.planners, wm) && FollowsPlan(w.planners, wk);
    var pl := w.planners[wk.planner];
    assert PlannerOk(su, pl);
    Accounting.ActsOncePerService(su.cfg, pl.obs);
    var acted := Accounting.ActedOn(pl.plan.actions);
    assert acted[wk.index] == acted[wm.index];
  }

  // ------------------------------------------------------------- bounded retry

  /** In a calm run, a plan of the loop that names s is built at least a whole
      cooldown after every useless action an earlier round took on s. */
  lemma {:induction false} CooldownIsHonoured(
    su: Setup, commands: seq<Command>, run: seq<World>, n: nat, q: nat, k: nat, a: Action)
    requires IsCalmRun(su, commands, run, a.service) && n < |run| && DistinctServices(su.cfg.services)
    requires q < |run[n].planners| && run[n].planners[q].kind.Tick? && Decided(run[n].planners[q].pc)
    requires a in run[n].planners[q].plan.actions
    requires k < |run[n].workers| && run[n].workers[k].action.service == a.service
    requires run[n].workers[k].planner < q && run[n].workers[k].effect == Useless
    ensures run[n].planners[q].sweepClock >= run[n].workers[k].recClock + su.cfg.policy.actionCooldown
  {
    CalmRunHolds(su, commands, run, n, a.service);
    hide Runs.Inv, CalmInv, IsCalmRun;
    PlanWaitsOut(su, run[n], q, k, a, a.service);
  }

  /** Two useless actions on one service are recorded a cooldown apart. */
  lemma {:induction false} UselessActionsAreApart(su: Setup, w: World, j: nat, k: nat, s: string)
    requires CalmInv(w, s) && Runs.Inv(su, w) && DistinctServices(su.cfg.services)
    requires j < |w.workers| && k < |w.workers| && j != k
    requires w.workers[j].effect == Useless && w.workers[k].effect == Useless
    requires OnService(w.workers[j], s) && OnService(w.workers[k], s)
    ensures w.workers[j].recClock + su.cfg.policy.actionCooldown <= w.workers[k].recClock
         || w.workers[k].recClock + su.cfg.policy.actionCooldown <= w.workers[j].recClock
  {
    InvParts(su, w);
    WorkerFacts(su, w, j, s);
    WorkerFacts(su, w, k, s);
    var p, q := w.workers[j].planner, w.workers[k].planner;
    if p == q {
      SameRoundSameWorker(su, w, j, k, s);
    }
    hide Runs.Inv, CalmInv, Shape, Times;
    if p < q {
      PlanWaitsOut(su, w, q, j, w.workers[k].action, s);
    } else {
      PlanWaitsOut(su, w, p, k, w.workers[j].action, s);
    }
  }

  /** gap, buckets times over. */
  function Stretch(gap: int, buckets: nat): int {
    if buckets == 0 then 0 else gap + Stretch(gap, buckets - 1)
  }

  lemma {:induction false} StretchIsProduct(gap: int, buckets: nat)
    ensures Stretch(gap, buckets) == gap * buckets
  {
    if buckets > 0 {
      StretchIsProduct(gap, buckets - 1);
    }
  }

  /** Numbers a gap apart, all within so many gaps of the first, are no more. */
  lemma {:induction false} ApartIsFew(ks: set<nat>, time: nat -> int, gap: int, start: int, buckets: nat)
    requires forall k :: k in ks ==> start <= time(k) < start + Stretch(gap, buckets)
    requires forall j, k :: j in ks && k in ks && j != k ==> time(j) + gap <= time(k) || time(k) + gap <= time(j)
    ensures |ks| <= buckets
    decreases buckets
  {
    if ks != {} {
      var last :| last in ks;
      if buckets > 0 {
        var end := start + Stretch(gap, buckets - 1);
        if k :| k in ks && time(k) >= end { last := k; }
        ApartIsFew(ks - {last}, time, gap, start, buckets - 1);
      }
    }
  }

  /** Action k was useless on service and recorded within span of start. */
  predicate UselessWithin(w: World, k: nat, service: string, start: Instant, span: nat) {
    && k < |w.workers| && w.workers[k].action.service == service && w.workers[k].effect == Useless
    && start <= w.workers[k].recClock <= start + span
  }

  /** Bounded retry: in a calm run, the useless actions on one service recorded
      within any span number at most span / action_cooldown + 1. */
  lemma {:induction false} BoundedRetry(
    su: Setup, commands: seq<Command>, run: seq<World>, n: nat, service: string, start: Instant, span: nat,
    ks: set<nat>)
    requires IsCalmRun(su, commands, run, service) && n < |run|
    requires DistinctServices(su.cfg.services) && su.cfg.policy.actionCooldown > 0
    requires forall k :: k in ks ==> UselessWithin(run[n], k, service, start, span)
    ensures |ks| <= span / su.cfg.policy.actionCooldown + 1
  {
    CalmRunHolds(su, commands, run, n, service);
    hide Runs.Inv, CalmInv, IsCalmRun;
    BoundedInWorld(su, run[n], service, start, span, ks);
  }

  lemma {:induction false} BoundedInWorld(su: Setup, w: World, service: string, start: Instant, span: nat, ks: set<nat>)
    requires CalmInv(w, service) && Runs.Inv(su, w)
    requires DistinctServices(su.cfg.services) && su.cfg.policy.actionCooldown > 0
    requires forall k :: k in ks ==> UselessWithin(w, k, service, start, span)
    ensures |ks| <= span / su.cfg.policy.actionCooldown + 1
  {
    hide Runs.Inv, CalmInv, DistinctServices, UselessWithin, Stretch;
    SpanFits(span, su.cfg.policy.actionCooldown);
    BoundedByBuckets(su, w, service, start, span, ks, span / su.cfg.policy.actionCooldown + 1);
  }

  lemma {:induction false} BoundedByBuckets(
    su: Setup, w: World, service: string, start: Instant, span: nat, ks: set<nat>, buckets: nat)
    requires CalmInv(w, service) && Runs.Inv(su, w) && DistinctServices(su.cfg.services)
    requires span < Stretch(su.cfg.policy.actionCooldown, buckets)
    requires forall k :: k in ks ==> UselessWithin(w, k, service, start, span)
    ensures |ks| <= buckets
  {
    hide Runs.Inv, CalmInv, DistinctServices, Stretch;
    var cd := su.cfg.policy.actionCooldown;
    var time := (k: nat) => if k < |w.workers| then w.workers[k].recClock else 0;
    assert forall k :: k in ks ==> UselessWithin(w, k, service, start, span) && start <= time(k) <= start + span;
    forall j, k | j in ks && k in ks && j != k ensures time(j) + cd <= time(k) || time(k) + cd <= time(j) {
      UselessActionsAreApart(su, w, j, k, service);
    }
    ApartIsFew(ks, time, cd, start, buckets);
  }

  lemma {:induction false} SpanFits(span: nat, cd: int)
    requires cd > 0
    ensures span < Stretch(cd, span / cd + 1)
  {
    StretchIsProduct(cd, span / cd + 1);
    StretchIsProduct(cd, span / cd);
    assert cd * (span / cd) + span % cd == span;
  }
}
