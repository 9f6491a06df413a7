/** What a planner sees marked, and nothing else: a service is seen in flight only
    if its slot was held when the planner looked, and cooling only if something
    useless was done to it less than a cooldown ago. */
module Marks {
  import opened Machine
  import opened Domain
  import opened Tables
  import opened World
  import opened SlotSafety
  import opened NoGap
  import Greedy
  import PlainTerms
  import PlanMeans
  import Runs
  import Scheduler

  // ------------------------------------------------------------- justifications

  /** Action k was useless, its cooldown ends then, and by that step nothing on
      the service had measurably worked since. */
  ghost predicate Cools(su: Setup, workers: seq<Worker>, k: nat, service: string, until: Instant, step: nat) {
    && k < |workers| && workers[k].action.service == service
    && workers[k].effect == Useless && workers[k].recAt < step && until == Until(su, workers[k])
    && Uncleared(workers, k, step)
  }

  /** Nothing that measurably worked was recorded between k and that step. */
  ghost predicate Uncleared(workers: seq<Worker>, k: nat, step: nat) {
    forall j: nat :: Clears(workers, k, j) ==> workers[j].recAt >= step
  }

  ghost predicate CooledBySome(su: Setup, workers: seq<Worker>, service: string, until: Instant, step: nat) {
    exists k: nat :: Cools(su, workers, k, service, until, step)
  }

  /** Goroutine k held its slot at that step. */
  predicate HeldThen(workers: seq<Worker>, k: nat, service: string, step: nat) {
    && k < |workers| && workers[k].action.service == service
    && TookSlot(workers[k].pc) && workers[k].acqAt < step && (workers[k].pc == Released ==> workers[k].relAt > step)
  }

  ghost predicate HeldBySome(workers: seq<Worker>, service: string, step: nat) {
    exists k: nat :: HeldThen(workers, k, service, step)
  }

  ghost predicate TablesJustified(su: Setup, w: World) {
    forall s :: s in w.tables.cooldowns ==> CooledBySome(su, w.workers, s, w.tables.cooldowns[s], w.step)
  }

  ghost predicate MarkJustified(su: Setup, workers: seq<Worker>, pl: Planner, s: ServiceState) {
    && (s.cooldownUntil.Some? ==>
          && PastSweep(pl) && pl.now < s.cooldownUntil.value
          && CooledBySome(su, workers, s.name, s.cooldownUntil.value, pl.sweptAt))
    && (s.actionInFlight ==> PastSnapshot(pl.pc) && HeldBySome(workers, s.name, pl.snapAt))
  }

  ghost predicate PlannerJustified(su: Setup, workers: seq<Worker>, pl: Planner) {
    forall i :: 0 <= i < |pl.obs.services| ==> MarkJustified(su, workers, pl, pl.obs.services[i])
  }

  ghost predicate Justified(su: Setup, w: World) {
    && TablesJustified(su, w)
    && forall p :: 0 <= p < |w.planners| ==> PlannerJustified(su, w.workers, w.planners[p])
  }

  // --------------------------------------------------------- they keep standing

  lemma {:induction false} CoolingStands(su: Setup, w: World, c: Command, service: string, until: Instant, step: nat)
    requires Times(w) && Enabled(su, w, c) && step <= w.step
    requires CooledBySome(su, w.workers, service, until, step)
    ensures CooledBySome(su, Apply(su, w, c).workers, service, until, step)
  {
    var w' := Apply(su, w, c);
    RecordsStand(su, w, c);
    NewRecordsAreLate(su, w, c);
    hide Apply, Enabled, Times;
    var k: nat :| Cools(su, w.workers, k, service, until, step);
    forall j: nat | Clears(w'.workers, k, j) ensures w'.workers[j].recAt >= step {
      assert w'.workers[j].recAt != w.step ==> Clears(w.workers, k, j);
    }
    assert Cools(su, w'.workers, k, service, until, step);
  }

  lemma {:induction false} MoverStillHeld(su: Setup, w: World, c: Command, service: string, step: nat)
    requires Enabled(su, w, c) && MovesWorker(c) && step < w.step && HeldThen(w.workers, c.k, service, step)
    ensures HeldThen(Apply(su, w, c).workers, c.k, service, step)
  {
    assert !c.Acquire?;
    WorkerStepMoves(su, w, c);
    WorkerStepTimes(su, w, c);
    hide Apply, Enabled, Judge;
  }

  lemma {:induction false} OtherStillHeld(su: Setup, w: World, c: Command, k: nat)
    requires Enabled(su, w, c) && k < |w.workers| && (MovesWorker(c) ==> k != c.k)
    ensures k < |Apply(su, w, c).workers| && Apply(su, w, c).workers[k] == w.workers[k]
  {
    var w' := Apply(su, w, c);
    if MovesWorker(c) {
      WorkerStepMoves(su, w, c);
      hide Apply, Enabled;
    } else {
      OtherStepKeepsWorkers(su, w, c);
      hide Apply, Enabled;
      assert w'.workers[k] == w'.workers[..|w.workers|][k];
    }
  }

  lemma {:induction false} HoldingStands(su: Setup, w: World, c: Command, service: string, step: nat)
    requires Enabled(su, w, c) && step < w.step && HeldBySome(w.workers, service, step)
    ensures HeldBySome(Apply(su, w, c).workers, service, step)
  {
    hide Apply, Enabled;
    var k: nat :| HeldThen(w.workers, k, service, step);
    if MovesWorker(c) && k == c.k {
      MoverStillHeld(su, w, c, service, step);
    } else {
      OtherStillHeld(su, w, c, k);
    }
    assert HeldThen(Apply(su, w, c).workers, k, service, step);
  }

  lemma {:induction false} MarkStands(su: Setup, w: World, c: Command, pl: Planner, pl': Planner, s: ServiceState)
    requires Times(w) && Enabled(su, w, c) && PlannerTimes(w, pl) && MarkJustified(su, w.workers, pl, s)
    requires PastSnapshot(pl.pc) ==> PastSnapshot(pl'.pc) && pl'.snapAt == pl.snapAt
    requires PastSweep(pl) ==> PastSweep(pl') && pl'.sweptAt == pl.sweptAt && pl'.now == pl.now
    ensures MarkJustified(su, Apply(su, w, c).workers, pl', s)
  {
    hide Apply, Enabled, Times, CooledBySome, HeldBySome;
    if s.cooldownUntil.Some? {
      CoolingStands(su, w, c, s.name, s.cooldownUntil.value, pl.sweptAt);
    }
    if s.actionInFlight {
      HoldingStands(su, w, c, s.name, pl.snapAt);
    }
  }

  // ----------------------------------------------------------------- the tables

  lemma {:induction false} RecordStep(su: Setup, w: World, c: Command)
    requires Shape(su, w) && Enabled(su, w, c) && c.RecordEffect?
    ensures var w', wk := Apply(su, w, c), w.workers[c.k];
      && w'.step == w.step + 1 && |w'.workers| == |w.workers|
      && (forall j :: 0 <= j < |w.workers| && j != c.k ==> w'.workers[j] == w.workers[j])
      && wk.result.service == wk.action.service == w'.workers[c.k].action.service
      && w'.workers[c.k].effect == Judge(su.cfg.policy, wk.result)
      && w'.workers[c.k].recAt == w.step && w'.workers[c.k].recClock == w.clock
      && w'.tables == Record(w.tables, su.cfg.policy, wk.result, w.clock)
  {
    assert WorkerOk(w.planners, w.workers[c.k]);
    hide StepPlanner, Judge, Record;
  }

  /** A cooldown there after a record is the one it started, or was there before
      and is not on a service the record cleared. */
  lemma {:induction false} RecordLeaves(t: State, policy: Policy, r: ActionResult, now: Instant)
    ensures forall s :: s in Record(t, policy, r, now).cooldowns ==>
      if s == r.service && Judge(policy, r) == Useless then
        Record(t, policy, r, now).cooldowns[s] == now + policy.actionCooldown
      else
        && s in t.cooldowns && Record(t, policy, r, now).cooldowns[s] == t.cooldowns[s]
        && (s != r.service || Judge(policy, r) != Effective)
  {
  }

  lemma {:induction false} AllCoolingStands(su: Setup, w: World, c: Command)
    requires TablesJustified(su, w) && Times(w) && Enabled(su, w, c)
    ensures forall s :: s in w.tables.cooldowns ==>
      CooledBySome(su, Apply(su, w, c).workers, s, w.tables.cooldowns[s], w.step)
  {
    hide Apply, Enabled, Times, CooledBySome;
    forall s | s in w.tables.cooldowns
      ensures CooledBySome(su, Apply(su, w, c).workers, s, w.tables.cooldowns[s], w.step)
    {
      CoolingStands(su, w, c, s, w.tables.cooldowns[s], w.step);
    }
  }

  lemma {:induction false} RecordKeepsTables(su: Setup, w: World, c: Command)
    requires TablesJustified(su, w) && Times(w) && Shape(su, w) && Enabled(su, w, c) && c.RecordEffect?
    ensures TablesJustified(su, Apply(su, w, c))
  {
    var w', k := Apply(su, w, c), c.k;
    RecordStep(su, w, c);
    AllCoolingStands(su, w, c);
    RecordJustifies(su, w, w', k, w.workers[k].result);
  }

  lemma {:induction false} RecordJustifies(su: Setup, w: World, w': World, k: nat, r: ActionResult)
    requires Times(w) && |w'.workers| == |w.workers| && k < |w.workers| && w'.step == w.step + 1
    requires forall j :: 0 <= j < |w.workers| && j != k ==> w'.workers[j] == w.workers[j]
    requires r.service == w'.workers[k].action.service && w'.workers[k].effect == Judge(su.cfg.policy, r)
    requires w'.workers[k].recAt == w.step && w'.workers[k].recClock == w.clock
    requires w'.tables == Record(w.tables, su.cfg.policy, r, w.clock)
    requires forall s :: s in w.tables.cooldowns ==>
      CooledBySome(su, w'.workers, s, w.tables.cooldowns[s], w.step)
    ensures TablesJustified(su, w')
  {
    RecordLeaves(w.tables, su.cfg.policy, r, w.clock);
    hide CooledBySome, Judge, Record, Times;
    forall s | s in w'.tables.cooldowns
      ensures CooledBySome(su, w'.workers, s, w'.tables.cooldowns[s], w'.step)
    {
      if s == r.service && w'.workers[k].effect == Useless {
        FreshlyCooled(su, w, w', k);
      } else {
        StillUncleared(su, w, w', k, s, w.tables.cooldowns[s]);
      }
    }
  }

  /** The last record made is on nothing anyone has cleared. */
  lemma {:induction false} FreshlyCooled(su: Setup, w: World, w': World, k: nat)
    requires Times(w) && |w'.workers| == |w.workers| && k < |w.workers| && w'.step == w.step + 1
    requires forall j :: 0 <= j < |w.workers| && j != k ==> w'.workers[j] == w.workers[j]
    requires w'.workers[k].effect == Useless && w'.workers[k].recAt == w.step
    ensures CooledBySome(su, w'.workers, w'.workers[k].action.service, Until(su, w'.workers[k]), w'.step)
  {
    forall j: nat | Clears(w'.workers, k, j) ensures w'.workers[j].recAt >= w'.step {
      assert WorkerTimes(w, w.workers[j]);
    }
    assert Cools(su, w'.workers, k, w'.workers[k].action.service, Until(su, w'.workers[k]), w'.step);
  }

  /** A record that is not an effective one on s clears nothing of s. */
  lemma {:induction false} StillUncleared(su: Setup, w: World, w': World, m: nat, s: string, until: Instant)
    requires |w'.workers| == |w.workers| && m < |w.workers| && w'.step == w.step + 1
    requires forall j :: 0 <= j < |w.workers| && j != m ==> w'.workers[j] == w.workers[j]
    requires Times(w)
    requires w'.workers[m].action.service != s || w'.workers[m].effect != Effective
    requires CooledBySome(su, w'.workers, s, until, w.step)
    ensures CooledBySome(su, w'.workers, s, until, w'.step)
  {
    var k: nat :| Cools(su, w'.workers, k, s, until, w.step);
    forall j: nat | j < |w'.workers| ensures !Clears(w'.workers, k, j) {
      if j < |w.workers| && w'.workers[j].effect == Effective && w'.workers[j].action.service == s {
        assert WorkerTimes(w, w.workers[j]);
      }
    }
    assert Cools(su, w'.workers, k, s, until, w'.step);
  }

  lemma {:induction false} StepKeepsTables(su: Setup, w: World, c: Command)
    requires TablesJustified(su, w) && Times(w) && Shape(su, w) && Enabled(su, w, c)
    ensures TablesJustified(su, Apply(su, w, c))
  {
    var w' := Apply(su, w, c);
    if c.RecordEffect? {
      RecordKeepsTables(su, w, c);
    } else {
      if c.SweepCooldowns? {
        SweepForgets(su, w, c);
      } else {
        CooldownsUntouched(su, w, c);
      }
      NothingRecorded(su, w, c);
      hide Apply, Enabled, Shape, CooledBySome;
      forall s | s in w'.tables.cooldowns
        ensures CooledBySome(su, w'.workers, s, w'.tables.cooldowns[s], w'.step)
      {
        CoolingStands(su, w, c, s, w.tables.cooldowns[s], w.step);
        LaterStep(su, w, w', s, w.tables.cooldowns[s]);
      }
    }
  }

  lemma {:induction false} SweepForgets(su: Setup, w: World, c: Command)
    requires Enabled(su, w, c) && c.SweepCooldowns?
    ensures var w' := Apply(su, w, c);
      forall s :: s in w'.tables.cooldowns ==>
        && s in w.tables.cooldowns && w'.tables.cooldowns[s] == w.tables.cooldowns[s]
        && w.planners[c.p].now < w.tables.cooldowns[s]
  {
  }

  lemma {:induction false} NothingRecorded(su: Setup, w: World, c: Command)
    requires Enabled(su, w, c) && !c.RecordEffect?
    ensures var w' := Apply(su, w, c);
      && w'.step == w.step + 1
      && forall k :: 0 <= k < |w'.workers| && w'.workers[k].effect != Pending ==>
           k < |w.workers| && w'.workers[k].effect == w.workers[k].effect && w'.workers[k].recAt == w.workers[k].recAt
  {
    var w' := Apply(su, w, c);
    if MovesWorker(c) {
      WorkerStepMoves(su, w, c);
      WorkerStepTimes(su, w, c);
      SkippedOrNot(su, w, c);
      hide Apply, Enabled;
    } else {
      OtherStepKeepsCooldownsOrSweeps(su, w, c);
      OtherStepKeepsWorkers(su, w, c);
      hide Apply, Enabled;
      assert forall k :: 0 <= k < |w.workers| ==> w'.workers[k] == w'.workers[..|w.workers|][k];
    }
  }

  lemma {:induction false} SkippedOrNot(su: Setup, w: World, c: Command)
    requires Enabled(su, w, c) && MovesWorker(c) && !c.RecordEffect?
    ensures c.k < |w.workers| && c.k < |Apply(su, w, c).workers|
    ensures Apply(su, w, c).workers[c.k].recAt == w.workers[c.k].recAt
  {
    hide StepPlanner, GateOf, Judge;
  }

  lemma {:induction false} OtherStepKeepsCooldownsOrSweeps(su: Setup, w: World, c: Command)
    requires Enabled(su, w, c) && !MovesWorker(c)
    ensures Apply(su, w, c).step == w.step + 1
    ensures forall k :: |w.workers| <= k < |Apply(su, w, c).workers| ==> Apply(su, w, c).workers[k].effect == Pending
  {
    hide StepWorker, PlanFor, AsksOnly, SnapshotOf;
  }

  lemma {:induction false} LaterStep(su: Setup, w: World, w': World, s: string, until: Instant)
    requires Times(w) && w'.step == w.step + 1
    requires forall k :: 0 <= k < |w'.workers| && w'.workers[k].effect != Pending ==>
      k < |w.workers| && w'.workers[k].effect == w.workers[k].effect && w'.workers[k].recAt == w.workers[k].recAt
    requires CooledBySome(su, w'.workers, s, until, w.step)
    ensures CooledBySome(su, w'.workers, s, until, w'.step)
  {
    var k: nat :| Cools(su, w'.workers, k, s, until, w.step);
    forall j: nat | j < |w'.workers| ensures !Clears(w'.workers, k, j) {
      if j < |w.workers| && w'.workers[j].effect == Effective && w'.workers[j].action.service == s {
        assert WorkerTimes(w, w.workers[j]);
      }
    }
    assert Cools(su, w'.workers, k, s, until, w'.step);
  }

  // --------------------------------------------------------------- the planners

  predicate Unmarked(services: seq<ServiceState>) {
    forall i :: 0 <= i < |services| ==> services[i].cooldownUntil.None? && !services[i].actionInFlight
  }

  /** A planner that carries its marks along, or has yet to mark anything. */
  predicate CarriesMarks(a: Planner, b: Planner) {
    && (b.obs.services == a.obs.services || Unmarked(b.obs.services))
    && (PastSnapshot(a.pc) ==> PastSnapshot(b.pc) && b.snapAt == a.snapAt)
    && (PastSweep(a) ==> PastSweep(b) && b.sweptAt == a.sweptAt && b.now == a.now)
  }

  lemma {:induction false} QuietStepCarries(su: Setup, w: World, c: Command)
    requires Enabled(su, w, c) && Quiet(c)
    ensures var w' := Apply(su, w, c);
      && |w.planners| <= |w'.planners|
      && (forall p :: 0 <= p < |w.planners| ==> CarriesMarks(w.planners[p], w'.planners[p]))
      && (forall p :: |w.planners| <= p < |w'.planners| ==> Unmarked(w'.planners[p].obs.services))
  {
    hide StepWorker, PlanFor, AsksOnly, SnapshotOf;
  }

  lemma {:induction false} UnmarkedIsJustified(su: Setup, workers: seq<Worker>, pl: Planner)
    requires Unmarked(pl.obs.services)
    ensures PlannerJustified(su, workers, pl)
  {
  }

  lemma {:induction false} CarriedIsJustified(su: Setup, w: World, c: Command, a: Planner, b: Planner)
    requires Times(w) && Enabled(su, w, c) && PlannerTimes(w, a) && PlannerJustified(su, w.workers, a)
    requires CarriesMarks(a, b)
    ensures PlannerJustified(su, Apply(su, w, c).workers, b)
  {
    hide Apply, Enabled, Times, MarkJustified;
    if Unmarked(b.obs.services) {
      UnmarkedIsJustified(su, Apply(su, w, c).workers, b);
    } else {
      forall i | 0 <= i < |b.obs.services| ensures MarkJustified(su, Apply(su, w, c).workers, b, b.obs.services[i]) {
        MarkStands(su, w, c, a, b, a.obs.services[i]);
      }
    }
  }

  lemma {:induction false} LookKeepsPlanner(su: Setup, w: World, c: Command)
    requires Times(w) && SlotsExact(w) && Enabled(su, w, c) && c.ReadInflight?
    requires PlannerJustified(su, w.workers, w.planners[c.p])
    ensures var w' := Apply(su, w, c); PlannerJustified(su, w'.workers, w'.planners[c.p])
  {
    var w', pl := Apply(su, w, c), w.planners[c.p];
    assert pl.pc == ClaimsRead && w'.workers == w.workers;
    var services := w'.planners[c.p].obs.services;
    assert services == MarkInflight(w.tables.inflight, pl.obs.services);
    assert w'.planners[c.p].snapAt == w.step && PastSnapshot(w'.planners[c.p].pc);
    hide Apply, Enabled;
    forall i | 0 <= i < |services| ensures MarkJustified(su, w.workers, w'.planners[c.p], services[i]) {
      var s := pl.obs.services[i];
      assert MarkJustified(su, w.workers, pl, s);
      assert services[i].actionInFlight ==> s.name in w.tables.inflight;
      if services[i].actionInFlight {
        var k: nat :| HoldsSlot(w, k, s.name);
        assert WorkerTimes(w, w.workers[k]);
        assert HeldThen(w.workers, k, s.name, w.step);
      }
    }
  }

  lemma {:induction false} SweepKeepsPlanner(su: Setup, w: World, c: Command)
    requires TablesJustified(su, w) && Times(w) && Enabled(su, w, c) && c.SweepCooldowns?
    requires PlannerJustified(su, w.workers, w.planners[c.p])
    ensures var w' := Apply(su, w, c); PlannerJustified(su, w'.workers, w'.planners[c.p])
  {
    var w', pl := Apply(su, w, c), w.planners[c.p];
    SweepForgets(su, w, c);
    assert pl.pc == ClockRead && w'.workers == w.workers;
    var pl' := w'.planners[c.p];
    var services := pl'.obs.services;
    assert services == MarkCooling(w'.tables.cooldowns, pl.obs.services);
    assert pl'.sweptAt == w.step && pl'.snapAt == pl.snapAt && pl'.now == pl.now;
    assert PastSnapshot(pl'.pc) && PastSweep(pl');
    hide Apply, Enabled, CooledBySome, HeldBySome;
    forall i | 0 <= i < |services| ensures MarkJustified(su, w.workers, pl', services[i]) {
      var s := pl.obs.services[i];
      assert MarkJustified(su, w.workers, pl, s);
      assert services[i].cooldownUntil.Some? ==>
        s.name in w'.tables.cooldowns && services[i].cooldownUntil.value == w'.tables.cooldowns[s.name];
    }
  }

  lemma {:induction false} ReadingLeavesOthers(su: Setup, w: World, c: Command)
    requires Enabled(su, w, c) && (c.ReadInflight? || c.SweepCooldowns?)
    ensures var w' := Apply(su, w, c);
      && |w'.planners| == |w.planners| && c.p < |w.planners|
      && forall p :: 0 <= p < |w.planners| && p != c.p ==> w'.planners[p] == w.planners[p]
  {
  }

  lemma {:induction false} StepKeepsPlanners(su: Setup, w: World, c: Command)
    requires Justified(su, w) && Times(w) && SlotsExact(w) && Enabled(su, w, c)
    ensures var w' := Apply(su, w, c);
      forall p :: 0 <= p < |w'.planners| ==> PlannerJustified(su, w'.workers, w'.planners[p])
  {
    var w' := Apply(su, w, c);
    if MovesWorker(c) {
      WorkerStepMoves(su, w, c);
    } else if Quiet(c) {
      QuietStepCarries(su, w, c);
    } else {
      ReadingLeavesOthers(su, w, c);
    }
    hide Apply, Enabled, PlannerJustified, CarriesMarks, TablesJustified, SlotsExact;
    forall p | 0 <= p < |w'.planners| ensures PlannerJustified(su, w'.workers, w'.planners[p]) {
      if p >= |w.planners| {
        UnmarkedIsJustified(su, w'.workers, w'.planners[p]);
      } else if !MovesWorker(c) && !Quiet(c) && p == c.p {
        if c.ReadInflight? {
          LookKeepsPlanner(su, w, c);
        } else {
          SweepKeepsPlanner(su, w, c);
        }
      } else {
        assert PlannerTimes(w, w.planners[p]);
        if MovesWorker(c) {
          assert SameButResults(w.planners[p], w'.planners[p]);
        }
        Carries(w.planners[p], w'.planners[p]);
        CarriedIsJustified(su, w, c, w.planners[p], w'.planners[p]);
      }
    }
  }

  lemma {:induction false} Carries(a: Planner, b: Planner)
    ensures SameButResults(a, b) || a == b ==> CarriesMarks(a, b)
  {
  }

  lemma {:induction false} JustifiedInRuns(su: Setup, commands: seq<Command>, run: seq<World>, i: nat)
    requires IsRun(su, commands, run) && i < |run|
    ensures Justified(su, run[i]) && Runs.Inv(su, run[i])
  {
    hide Runs.Inv, Apply, Enabled;
    Runs.RunHolds(su, commands, run, i);
    if i > 0 {
      JustifiedInRuns(su, commands, run, i - 1);
      StepKeepsJustified(su, run[i - 1], commands[i - 1]);
    }
  }

  lemma {:induction false} StepKeepsJustified(su: Setup, w: World, c: Command)
    requires Justified(su, w) && Runs.Inv(su, w) && Enabled(su, w, c)
    ensures Justified(su, Apply(su, w, c))
  {
    assert Times(w) && Shape(su, w) && SlotsExact(w);
    hide Runs.Inv, Times, Shape, SlotsExact, Apply, Enabled, TablesJustified, PlannerJustified;
    StepKeepsTables(su, w, c);
    StepKeepsPlanners(su, w, c);
  }

  // --------------------------------------------------------------- the theorems

  /** Action k is why the planner sees s cooling: it was useless and recorded by the
      planner's sweep, less than action_cooldown before the clock the planner read,
      and nothing on s that worked was recorded between it and the sweep. */
  ghost predicate IsWhy(su: Setup, w: World, pl: Planner, s: ServiceState, k: nat) {
    && PastSweep(pl) && k < |w.workers|
    && w.workers[k].action.service == s.name && w.workers[k].effect == Useless && w.workers[k].recAt < pl.sweptAt
    && s.cooldownUntil == Some(w.workers[k].recClock + su.cfg.policy.actionCooldown)
    && pl.now < w.workers[k].recClock + su.cfg.policy.actionCooldown
    && forall j :: 0 <= j < |w.workers| && w.workers[j].effect == Effective && w.workers[j].action.service == s.name ==>
         w.workers[j].recAt <= w.workers[k].recAt || w.workers[j].recAt >= pl.sweptAt
  }

  /** In every run: a service is only seen cooling for something useless done to it
      less than a cooldown ago. A cooldown that has ended is forgotten. */
  lemma {:induction false} CoolingIsDeserved(su: Setup, commands: seq<Command>, run: seq<World>, n: nat, p: nat, i: nat)
    requires IsRun(su, commands, run) && n < |run| && p < |run[n].planners|
    requires i < |run[n].planners[p].obs.services| && run[n].planners[p].obs.services[i].cooldownUntil.Some?
    ensures exists k: nat :: IsWhy(su, run[n], run[n].planners[p], run[n].planners[p].obs.services[i], k)
  {
    var w := run[n];
    hide IsRun, Justified, Runs.Inv, IsWhy;
    JustifiedInRuns(su, commands, run, n);
    CoolingInWorld(su, w, p, i);
  }

  lemma {:induction false} CoolingInWorld(su: Setup, w: World, p: nat, i: nat)
    requires Justified(su, w) && p < |w.planners| && i < |w.planners[p].obs.services|
    requires w.planners[p].obs.services[i].cooldownUntil.Some?
    ensures exists k: nat :: IsWhy(su, w, w.planners[p], w.planners[p].obs.services[i], k)
  {
    var pl, s := w.planners[p], w.planners[p].obs.services[i];
    hide TablesJustified;
    assert PlannerJustified(su, w.workers, pl);
    assert MarkJustified(su, w.workers, pl, s);
    var k: nat :| Cools(su, w.workers, k, s.name, s.cooldownUntil.value, pl.sweptAt);
    forall j | 0 <= j < |w.workers| && w.workers[j].effect == Effective && w.workers[j].action.service == s.name
      ensures w.workers[j].recAt <= w.workers[k].recAt || w.workers[j].recAt >= pl.sweptAt
    {
      assert Clears(w.workers, k, j) ==> w.workers[j].recAt >= pl.sweptAt;
    }
    assert IsWhy(su, w, pl, s, k);
  }

  /** In every run: a planner past its snapshot sees a service in flight exactly
      when some goroutine held its slot at that moment. */
  lemma {:induction false} InFlightIsExact(su: Setup, commands: seq<Command>, run: seq<World>, n: nat, p: nat, i: nat)
    requires IsRun(su, commands, run) && n < |run| && p < |run[n].planners| && PastSnapshot(run[n].planners[p].pc)
    requires i < |run[n].planners[p].obs.services|
    ensures var s := run[n].planners[p].obs.services[i];
      s.actionInFlight <==> exists k: nat :: HeldThen(run[n].workers, k, s.name, run[n].planners[p].snapAt)
  {
    JustifiedInRuns(su, commands, run, n);
    var w, pl := run[n], run[n].planners[p];
    var s := pl.obs.services[i];
    hide IsRun;
    assert PlannerJustified(su, w.workers, pl);
    assert MarkJustified(su, w.workers, pl, s);
    if k: nat :| HeldThen(w.workers, k, s.name, pl.snapAt) {
      assert SlotSeen(pl, w.workers[k], Marked(pl.obs.services, w.workers[k].action.service));
      assert s in pl.obs.services;
    }
  }

  /** So whenever a plan says that a service was left alone because it is cooling
      down, or because an action on it is in flight, that is why. */
  lemma {:induction false} LeftAloneForAReason(
    su: Setup, commands: seq<Command>, run: seq<World>, n: nat, p: nat, name: string)
    requires IsRun(su, commands, run) && n < |run| && p < |run[n].planners|
    requires Decided(run[n].planners[p].pc) && !run[n].planners[p].kind.EvictFor?
    ensures var pl := run[n].planners[p];
      && (About(name, CoolingDown) in pl.plan.notes ==>
            exists s, k: nat :: s in pl.obs.services && s.name == name && IsWhy(su, run[n], pl, s, k))
      && (About(name, InFlight) in pl.plan.notes ==>
            exists k: nat :: HeldThen(run[n].workers, k, name, pl.snapAt))
  {
    var w, pl := run[n], run[n].planners[p];
    hide IsRun, Justified, Runs.Inv, IsWhy, HeldThen, PlanFor, SeesConfig;
    JustifiedInRuns(su, commands, run, n);
    PlannerIsOk(su, w, p);
    assert pl.plan == Scheduler.DecidePlan(su.cfg, pl.obs) by {
      DecidedByPriority(su, pl);
    }
    NotedMeansMarked(su.cfg, pl.obs, name);
    hide Scheduler.DecidePlan, PlannerOk;
    if About(name, CoolingDown) in pl.plan.notes {
      CoolingHasReason(su, w, p, name);
    }
    if About(name, InFlight) in pl.plan.notes {
      FlightHasHolder(su, w, p, name);
    }
  }

  lemma {:induction false} DecidedByPriority(su: Setup, pl: Planner)
    requires PlannerOk(su, pl) && Decided(pl.pc) && !pl.kind.EvictFor?
    ensures pl.plan == Scheduler.DecidePlan(su.cfg, pl.obs)
  {
  }

  lemma {:induction false} CoolingHasReason(su: Setup, w: World, p: nat, name: string)
    requires Justified(su, w) && p < |w.planners|
    requires exists s :: s in w.planners[p].obs.services && s.name == name && s.cooldownUntil.Some?
    ensures exists s, k: nat ::
      s in w.planners[p].obs.services && s.name == name && IsWhy(su, w, w.planners[p], s, k)
  {
    hide Justified, IsWhy;
    var services := w.planners[p].obs.services;
    var s :| s in services && s.name == name && s.cooldownUntil.Some?;
    var i :| 0 <= i < |services| && services[i] == s;
    CoolingInWorld(su, w, p, i);
  }

  lemma {:induction false} FlightHasHolder(su: Setup, w: World, p: nat, name: string)
    requires Justified(su, w) && p < |w.planners|
    requires exists s :: s in w.planners[p].obs.services && s.name == name && s.actionInFlight
    ensures exists k: nat :: HeldThen(w.workers, k, name, w.planners[p].snapAt)
  {
    hide Justified, HeldThen;
    var services := w.planners[p].obs.services;
    var s :| s in services && s.name == name && s.actionInFlight;
    var i :| 0 <= i < |services| && services[i] == s;
    InFlightIsHeld(su, w, p, i);
  }

  lemma {:induction false} PlannerIsOk(su: Setup, w: World, p: nat)
    requires Runs.Inv(su, w) && p < |w.planners|
    ensures PlannerOk(su, w.planners[p])
  {
  }

  lemma {:induction false} InFlightIsHeld(su: Setup, w: World, p: nat, i: nat)
    requires Justified(su, w) && p < |w.planners| && i < |w.planners[p].obs.services|
    requires w.planners[p].obs.services[i].actionInFlight
    ensures exists k: nat :: HeldThen(w.workers, k, w.planners[p].obs.services[i].name, w.planners[p].snapAt)
  {
    assert PlannerJustified(su, w.workers, w.planners[p]);
    assert MarkJustified(su, w.workers, w.planners[p], w.planners[p].obs.services[i]);
  }

  lemma {:induction false} NotedMeansMarked(cfg: Config, obs: Observation, name: string)
    ensures var notes := Scheduler.DecidePlan(cfg, obs).notes;
      && (About(name, CoolingDown) in notes ==>
            exists s :: s in obs.services && s.name == name && s.cooldownUntil.Some?)
      && (About(name, InFlight) in notes ==> exists s :: s in obs.services && s.name == name && s.actionInFlight)
  {
    hide Scheduler.DecidePlan;
    if Greedy.Contested(cfg, obs) {
      PlainTerms.NotesAreTrue(cfg, obs);
      assert forall why :: About(name, why) in Scheduler.DecidePlan(cfg, obs).notes ==>
        PlainTerms.TrueNote(About(name, why), obs.services, Greedy.Beneficiary(cfg, obs));
    } else {
      PlanMeans.NobodyNoted(cfg, obs);
    }
  }
}
