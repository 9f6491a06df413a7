/** What is reported of an action whose adapter was never called: one skipped for
    want of its slot, refused at the gate, or only pretended by a dry run. */
module Uncalled {
  import opened Machine
  import opened Domain
  import opened Tables
  import opened World
  import opened SlotSafety

  predicate Blank(wk: Worker) {
    wk.result == ActionResult(wk.result.service, wk.result.verb, false, false, None, None)
  }

  /** Nothing acted, and nothing measured but perhaps the card before. */
  predicate NotActed(wk: Worker) {
    !wk.result.acted && !wk.result.failed && wk.result.freeAfterMiB.None?
  }

  /** What the result of a goroutine says as long as its call is not made. */
  predicate SaysSo(su: Setup, wk: Worker) {
    match wk.pc
    case Spawned => Blank(wk) && wk.effect == Pending
    case Skipped => Blank(wk) && wk.effect == Pending
    case Opening => Blank(wk) && wk.effect == Pending
    case Calling => NotActed(wk) && GateOf(su, wk.action) == Call && wk.effect == Pending
    case Returned => GateOf(su, wk.action) == Call && wk.effect == Pending
    case Measured => GateOf(su, wk.action) == Call && wk.effect == Pending
    case _ =>
      match GateOf(su, wk.action)
      case Call => wk.effect != Pending
      case Refuse => wk.effect == Pending && !wk.result.acted && wk.result.failed && wk.result.freeAfterMiB.None?
      case Pretend =>
        && wk.effect == Pending && !wk.result.acted && !wk.result.failed
        && wk.result.freeAfterMiB == wk.result.freeBeforeMiB
  }

  ghost predicate AllSaySo(su: Setup, w: World) {
    forall k :: 0 <= k < |w.workers| ==> SaysSo(su, w.workers[k])
  }

  lemma {:induction false} MoverSaysSo(su: Setup, w: World, c: Command)
    requires Enabled(su, w, c) && MovesWorker(c) && SaysSo(su, w.workers[c.k])
    ensures c.k < |Apply(su, w, c).workers| && SaysSo(su, Apply(su, w, c).workers[c.k])
  {
    hide StepPlanner, GateOf, Record, Take, GiveBack;
  }

  lemma {:induction false} NewOnesSaySo(su: Setup, w: World, c: Command)
    requires Enabled(su, w, c) && !MovesWorker(c)
    ensures forall k :: |w.workers| <= k < |Apply(su, w, c).workers| ==> SaysSo(su, Apply(su, w, c).workers[k])
  {
    hide StepWorker, PlanFor, AsksOnly, SnapshotOf, GateOf;
  }

  lemma {:induction false} StepKeepsSaying(su: Setup, w: World, c: Command)
    requires AllSaySo(su, w) && Enabled(su, w, c)
    ensures AllSaySo(su, Apply(su, w, c))
  {
    var w' := Apply(su, w, c);
    if MovesWorker(c) {
      WorkerStepMoves(su, w, c);
      MoverSaysSo(su, w, c);
      hide Apply, Enabled, SaysSo;
    } else {
      OtherStepKeepsWorkers(su, w, c);
      NewOnesSaySo(su, w, c);
      hide Apply, Enabled, SaysSo;
      assert forall k :: 0 <= k < |w.workers| ==> w'.workers[k] == w'.workers[..|w.workers|][k];
    }
  }

  lemma {:induction false} SayingHolds(su: Setup, commands: seq<Command>, run: seq<World>, i: nat)
    requires IsRun(su, commands, run) && i < |run|
    ensures AllSaySo(su, run[i])
  {
    hide Apply, Enabled, SaysSo;
    if i > 0 {
      SayingHolds(su, commands, run, i - 1);
      StepKeepsSaying(su, run[i - 1], commands[i - 1]);
    }
  }

  /** In every run: an action on a service that is not configured, or a stop that
      is not allowed, is reported as failed and never as acted; a dry-run daemon
      reports that nothing was done, with the card as it was; and an action that
      was skipped reports nothing at all. None of them starts or ends a cooldown. */
  lemma {:induction false} UncalledIsNotActed(su: Setup, commands: seq<Command>, run: seq<World>, i: nat, k: nat)
    requires IsRun(su, commands, run) && i < |run| && k < |run[i].workers|
    ensures var wk := run[i].workers[k];
      var r, svc, over := wk.result, LookUp(su.cfg, wk.action.service), wk.pc == Closing || wk.pc == Released;
      var refused := svc.None? || (wk.action.verb == Stop && !svc.value.allowStop);
      && (wk.pc == Skipped ==> !r.acted && !r.failed && r.freeBeforeMiB.None? && r.freeAfterMiB.None?)
      && (over && refused ==> !r.acted && r.failed && wk.effect == Pending)
      && (over && !refused && su.dryRun ==>
            !r.acted && !r.failed && r.freeAfterMiB == r.freeBeforeMiB && wk.effect == Pending)
      && (over && !refused && !su.dryRun ==> wk.effect != Pending)
  {
    var w := run[i];
    hide IsRun;
    SayingHolds(su, commands, run, i);
    assert SaysSo(su, w.workers[k]);
  }
}
