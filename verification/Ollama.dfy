/** Freeing an Ollama server: list the models, ask each to expire, then poll
    until none is listed any more. The server's answers and the time each takes
    are arbitrary; the clock moves only while something is waited for. */
module Ollama {
  import opened Machine

  datatype Request = List | Expire(model: string)

  /** What came back: nothing usable, a listing, or the done_reason of a generate call. */
  datatype Answer = Failed | Models(names: seq<string>) | Done(reason: string)

  datatype Reply = Reply(latency: nat, answer: Answer)

  /** One call and when it was made and over, in nanoseconds. */
  datatype Exchange = Exchange(start: nat, end: nat, request: Request, answer: Answer)

  /** The time, and everything said on the connection so far. */
  datatype Wire = Wire(clock: nat, log: seq<Exchange>)

  /** An adapter and its surroundings: server(n) is how the server meets call n,
      cancelAt when the caller's context ends, if it does. */
  datatype Site = Site(timeout: nat, drainTimeout: nat, drainInterval: nat, server: nat -> Reply, cancelAt: Option<nat>)

  predicate Ready(site: Site) {
    site.drainInterval > 0
  }

  // -------------------------------------------------------------- single calls

  /** When a call made now is given up: after timeout, or when the context ends. */
  function GiveUpAt(site: Site, now: nat): (t: nat)
    ensures now <= t <= now + site.timeout
    ensures site.cancelAt.None? ==> t == now + site.timeout
    ensures site.cancelAt.Some? && now < site.cancelAt.value ==> t <= site.cancelAt.value
    ensures t < now + site.timeout ==> site.cancelAt.Some? && site.cancelAt.value <= t
    ensures site.cancelAt.Some? && site.cancelAt.value <= now ==> t == now
  {
    match site.cancelAt
    case None => now + site.timeout
    case Some(at) => if at <= now then now else if at < now + site.timeout then at else now + site.timeout
  }

  function Sent(site: Site, w: Wire, request: Request): (w': Wire)
    ensures |w'.log| == |w.log| + 1 && w'.log[..|w.log|] == w.log
    ensures w.clock <= w'.clock <= w.clock + site.timeout
  {
    var reply := site.server(|w.log|);
    var limit := GiveUpAt(site, w.clock);
    if w.clock + reply.latency < limit then
      Wire(w.clock + reply.latency, w.log + [Exchange(w.clock, w.clock + reply.latency, request, reply.answer)])
    else
      Wire(limit, w.log + [Exchange(w.clock, limit, request, Failed)])
  }

  function LastAnswer(w: Wire): Answer
    requires w.log != []
  {
    w.log[|w.log| - 1].answer
  }

  /** A generate call counts as an unload only if the server says it was one. */
  predicate Confirmed(answer: Answer) {
    answer == Done("unload")
  }

  // ------------------------------------------------------------ waiting it out

  predicate AnyLeft(models: seq<string>, names: seq<string>) {
    exists m :: m in models && m in names
  }

  /** The first tick after t of a ticker started at start. */
  function NextTick(start: nat, interval: nat, t: nat): (tick: nat)
    requires interval > 0 && start <= t
    ensures t < tick <= t + interval
  {
    start + interval * ((t - start) / interval + 1)
  }

  datatype DrainEnd = Drained | StillLoaded | PollFailed

  datatype DrainRun = DrainRun(wire: Wire, end: DrainEnd)

  /** waitDrained from the top of its loop. The ticker holds one tick: after a
      slow listing it fires at once, otherwise at its next multiple. */
  function Drain(site: Site, names: seq<string>, start: nat, w: Wire): DrainRun
    requires Ready(site) && start <= w.clock <= start + site.drainTimeout + site.drainInterval
    decreases start + site.drainTimeout + site.drainInterval - w.clock
  {
    var w' := Sent(site, w, List);
    match LastAnswer(w') {
      case Models(models) =>
        if !AnyLeft(models, names) then DrainRun(w', Drained)
        else if w'.clock > start + site.drainTimeout then DrainRun(w', StillLoaded)
        else
          var tick := NextTick(start, site.drainInterval, w.clock);
          var wake := if tick < w'.clock then w'.clock else tick;
          if site.cancelAt.Some? && site.cancelAt.value <= wake then
            DrainRun(w'.(clock := if site.cancelAt.value < w'.clock then w'.clock else site.cancelAt.value), PollFailed)
          else Drain(site, names, start, w'.(clock := wake))
      case _ => DrainRun(w', PollFailed)
    }
  }

  /** The polls a drain adds to the log: listings only, one after the other. */
  ghost predicate OnlyListings(w: Wire, w': Wire) {
    && |w.log| < |w'.log| && w'.log[..|w.log|] == w.log
    && forall i :: |w.log| <= i < |w'.log| ==> w'.log[i].request == List && w.clock <= w'.log[i].start
  }

  predicate Shows(e: Exchange, names: seq<string>) {
    e.answer.Models? && AnyLeft(e.answer.names, names)
  }

  /** What each way for a drain to end says about the polls it made: every poll
      but the last answered with one of the models still there, and the last ... */
  ghost predicate SoundDrain(site: Site, names: seq<string>, start: nat, w: Wire, run: DrainRun) {
    && OnlyListings(w, run.wire)
    && (forall i :: |w.log| <= i < |run.wire.log| - 1 ==> Shows(run.wire.log[i], names))
    && var last := run.wire.log[|run.wire.log| - 1];
       && (run.end == Drained <==> last.answer.Models? && !AnyLeft(last.answer.names, names))
       && (run.end == StillLoaded ==> Shows(last, names) && run.wire.clock > start + site.drainTimeout)
       && (run.end == PollFailed && last.answer.Models? ==>
             site.cancelAt.Some? && site.cancelAt.value <= run.wire.clock)
  }

  /** One more poll in front, showing a model still there, changes none of it. */
  lemma {:induction false} OneMorePoll(
    site: Site, names: seq<string>, start: nat, w: Wire, poll: Exchange, clock: nat, run: DrainRun)
    requires SoundDrain(site, names, start, Wire(clock, w.log + [poll]), run) && w.clock <= clock
    requires poll.request == List && poll.start == w.clock && Shows(poll, names)
    ensures SoundDrain(site, names, start, w, run)
  {
    hide Shows, AnyLeft;
    var log, base := run.wire.log, |w.log|;
    assert log[base] == log[..base + 1][base] == poll;
    assert log[..base] == log[..base + 1][..base] == w.log;
  }

  lemma {:induction false} DrainIsSound(site: Site, names: seq<string>, start: nat, w: Wire)
    requires Ready(site) && start <= w.clock <= start + site.drainTimeout + site.drainInterval
    ensures SoundDrain(site, names, start, w, Drain(site, names, start, w))
    decreases start + site.drainTimeout + site.drainInterval - w.clock
  {
    var w' := Sent(site, w, List);
    var poll := w'.log[|w.log|];
    assert poll.request == List && poll.start == w.clock && w'.log == w.log + [poll];
    hide Sent, AnyLeft, NextTick;
    if Shows(poll, names) && w'.clock <= start + site.drainTimeout {
      var tick := NextTick(start, site.drainInterval, w.clock);
      var wake := if tick < w'.clock then w'.clock else tick;
      if !(site.cancelAt.Some? && site.cancelAt.value <= wake) {
        DrainIsSound(site, names, start, w'.(clock := wake));
        hide SoundDrain;
        OneMorePoll(site, names, start, w, poll, wake, Drain(site, names, start, w'.(clock := wake)));
      }
    }
  }

  /** No tick of the ticker falls between t and the one taken for the next. */
  lemma {:induction false} NextTickIsNext(start: nat, interval: nat, t: nat, k: nat)
    requires interval > 0 && start <= t && start + interval * k > t
    ensures NextTick(start, interval, t) <= start + interval * k
  {
    var q := (t - start) / interval;
    if k <= q {
      MulMonotone(interval, k, q);
    } else {
      MulMonotone(interval, q + 1, k);
    }
  }

  /** Ticks gone by since the ticker started. */
  function TicksBy(start: nat, interval: nat, t: nat): nat
    requires interval > 0 && start <= t
  {
    (t - start) / interval
  }

  lemma {:induction false} TicksGrow(start: nat, interval: nat, t: nat, wake: nat)
    requires interval > 0 && start <= t && NextTick(start, interval, t) <= wake
    ensures TicksBy(start, interval, wake) >= TicksBy(start, interval, t) + 1
  {
    var k := TicksBy(start, interval, t) + 1;
    assert interval * k <= wake - start;
    MultipleWithin(wake - start, interval, k);
  }

  lemma {:induction false} MultipleWithin(x: nat, interval: nat, k: nat)
    requires interval > 0 && interval * k <= x
    ensures k <= x / interval
  {
    var q := x / interval;
    assert x < interval * (q + 1);
    if k >= q + 1 {
      MulMonotone(interval, q + 1, k);
    }
  }

  lemma {:induction false} MulMonotone(a: nat, b: nat, c: nat)
    requires b <= c
    ensures a * b <= a * c
  {
  }

  lemma {:induction false} TicksWithin(start: nat, interval: nat, t: nat, span: nat)
    requires interval > 0 && start <= t <= start + span + interval
    ensures TicksBy(start, interval, t) <= span / interval + 1
  {
    var ticks := TicksBy(start, interval, t);
    assert interval * ticks <= t - start;
    if ticks >= 1 {
      assert interval * (ticks - 1) <= span;
      MultipleWithin(span, interval, ticks - 1);
    }
  }

  /** A drain polls no more often than its ticker lets it, and stops in time. */
  lemma {:induction false} DrainIsBounded(site: Site, names: seq<string>, start: nat, w: Wire)
    requires Ready(site) && start <= w.clock <= start + site.drainTimeout + site.drainInterval
    ensures var run := Drain(site, names, start, w);
      && |run.wire.log| + TicksBy(start, site.drainInterval, w.clock)
           <= |w.log| + site.drainTimeout / site.drainInterval + 2
      && w.clock <= run.wire.clock <= start + site.drainTimeout + site.drainInterval + site.timeout
    decreases start + site.drainTimeout + site.drainInterval - w.clock
  {
    var w' := Sent(site, w, List);
    TicksWithin(start, site.drainInterval, w.clock, site.drainTimeout);
    if LastAnswer(w').Models? && AnyLeft(LastAnswer(w').names, names) && w'.clock <= start + site.drainTimeout {
      var tick := NextTick(start, site.drainInterval, w.clock);
      var wake := if tick < w'.clock then w'.clock else tick;
      if !(site.cancelAt.Some? && site.cancelAt.value <= wake) {
        DrainIsBounded(site, names, start, w'.(clock := wake));
        TicksGrow(start, site.drainInterval, w.clock, wake);
      }
    }
  }

  // ------------------------------------------------------------------- release

  datatype ReleaseEnd = ListFailed | NothingLoaded | UnloadFailed | DrainFailed | NotDrained | Unloaded

  /** What Release reports. It returns an error unless it ends with NothingLoaded
      or Unloaded. */
  datatype Outcome = Outcome(acted: bool, targets: seq<string>, end: ReleaseEnd)

  predicate Succeeded(o: Outcome) {
    o.end == NothingLoaded || o.end == Unloaded
  }

  datatype UnloadRun = UnloadRun(wire: Wire, done: nat)

  /** Ask for one model after the other, up to the first that does not confirm. */
  function UnloadEach(site: Site, w: Wire, models: seq<string>): (run: UnloadRun)
    ensures run.done <= |models|
    decreases |models|
  {
    if models == [] then UnloadRun(w, 0)
    else
      var w' := Sent(site, w, Expire(models[0]));
      if !Confirmed(LastAnswer(w')) then UnloadRun(w', 0)
      else
        var rest := UnloadEach(site, w', models[1..]);
        rest.(done := rest.done + 1)
  }

  datatype ReleaseRun = ReleaseRun(wire: Wire, outcome: Outcome)

  function ReleaseFrom(site: Site, w: Wire): ReleaseRun
    requires Ready(site)
  {
    var w' := Sent(site, w, List);
    match LastAnswer(w') {
      case Models(models) =>
        if models == [] then ReleaseRun(w', Outcome(false, [], NothingLoaded)) else UnloadAndWait(site, w', models)
      case _ => ReleaseRun(w', Outcome(false, [], ListFailed))
    }
  }

  function UnloadAndWait(site: Site, w: Wire, models: seq<string>): ReleaseRun
    requires Ready(site)
  {
    var unloads := UnloadEach(site, w, models);
    var targets := models[..unloads.done];
    if unloads.done < |models| then ReleaseRun(unloads.wire, Outcome(unloads.done > 0, targets, UnloadFailed))
    else
      var drain := Drain(site, targets, unloads.wire.clock, unloads.wire);
      match drain.end
      case Drained => ReleaseRun(drain.wire, Outcome(true, targets, Unloaded))
      case StillLoaded => ReleaseRun(drain.wire, Outcome(false, targets, NotDrained))
      case PollFailed => ReleaseRun(drain.wire, Outcome(true, targets, DrainFailed))
  }

  /** Call k of a log is a confirmed unload of the model. */
  predicate UnloadedAt(log: seq<Exchange>, k: nat, model: string) {
    k < |log| && log[k].request == Expire(model) && log[k].answer == Done("unload")
  }

  /** Call k of a log asked for the model to be unloaded, in vain. */
  predicate RefusedAt(log: seq<Exchange>, k: nat, model: string) {
    k < |log| && log[k].request == Expire(model) && log[k].answer != Done("unload")
  }

  /** A confirmed unload of the first model in front of the others'. */
  lemma {:induction false} OneMoreUnload(before: seq<Exchange>, log: seq<Exchange>, models: seq<string>, done: nat)
    requires before != [] && before <= log && 0 < |models| && done < |models|
    requires UnloadedAt(before, |before| - 1, models[0])
    requires forall i :: 0 <= i < done ==> UnloadedAt(log, |before| + i, models[1..][i])
    ensures forall i :: 0 <= i < done + 1 ==> UnloadedAt(log, |before| - 1 + i, models[i])
  {
    forall i | 0 <= i < done + 1 ensures UnloadedAt(log, |before| - 1 + i, models[i]) {
      if i > 0 {
        assert UnloadedAt(log, |before| + (i - 1), models[1..][i - 1]);
      }
    }
  }

  lemma {:induction false} EachUnfolds(site: Site, w: Wire, models: seq<string>)
    requires models != []
    ensures var w' := Sent(site, w, Expire(models[0]));
      var rest := UnloadEach(site, w', models[1..]);
      UnloadEach(site, w, models)
        == if Confirmed(LastAnswer(w')) then rest.(done := rest.done + 1) else UnloadRun(w', 0)
  {
  }

  /** The unloads made: in order, one call each, confirmed up to the first that
      was not. */
  lemma {:induction false} UnloadsInOrder(site: Site, w: Wire, models: seq<string>)
    ensures var run := UnloadEach(site, w, models);
      && |run.wire.log| == |w.log| + run.done + (if run.done < |models| then 1 else 0)
      && w.log <= run.wire.log
      && (forall i :: 0 <= i < run.done ==> UnloadedAt(run.wire.log, |w.log| + i, models[i]))
      && (run.done < |models| ==> RefusedAt(run.wire.log, |w.log| + run.done, models[run.done]))
    decreases |models|
  {
    if models != [] {
      var w' := Sent(site, w, Expire(models[0]));
      assert w'.log[|w.log|].request == Expire(models[0]) && w.log <= w'.log;
      EachUnfolds(site, w, models);
      hide Sent, UnloadEach;
      if Confirmed(LastAnswer(w')) {
        UnloadsInOrder(site, w', models[1..]);
        var run := UnloadEach(site, w', models[1..]);
        OneMoreUnload(w'.log, run.wire.log, models, run.done);
      }
    }
  }

  lemma {:induction false} UnloadsInTime(site: Site, w: Wire, models: seq<string>)
    ensures var run := UnloadEach(site, w, models); w.clock <= run.wire.clock <= w.clock + |models| * site.timeout
    decreases |models|
  {
    if models != [] {
      var w' := Sent(site, w, Expire(models[0]));
      if Confirmed(LastAnswer(w')) {
        UnloadsInTime(site, w', models[1..]);
      }
      assert |models| * site.timeout == site.timeout + (|models| - 1) * site.timeout;
    }
  }

  /** The models of the first listing, none if it failed. */
  function FirstListing(site: Site, w: Wire): seq<string> {
    var answer := LastAnswer(Sent(site, w, List));
    if answer.Models? then answer.names else []
  }

  /** Acting and succeeding means it: every model of the first listing was asked
      to expire, in order, and confirmed; and the release did so exactly when a
      later listing, the last thing said, contained none of them. */
  lemma {:induction false} ReleaseIsSound(site: Site, w: Wire)
    requires Ready(site)
    ensures var run, models, base := ReleaseFrom(site, w), FirstListing(site, w), |w.log|;
      var log := run.wire.log;
      && (run.outcome.acted && Succeeded(run.outcome) <==>
            && models != [] && |log| > base + 1 + |models|
            && (forall i :: 0 <= i < |models| ==> UnloadedAt(log, base + 1 + i, models[i]))
            && log[|log| - 1].request == List && log[|log| - 1].answer.Models?
            && forall m :: m in models ==> m !in log[|log| - 1].answer.names)
      && (run.outcome.acted && Succeeded(run.outcome) ==> run.outcome.targets == models)
  {
    hide Sent, Drain, UnloadEach, Confirmed;
    var w', models := Sent(site, w, List), FirstListing(site, w);
    if LastAnswer(w').Models? && models != [] {
      UnloadAndWaitSound(site, w', models);
    }
  }

  lemma {:induction false} UnloadAndWaitSound(site: Site, w: Wire, models: seq<string>)
    requires Ready(site) && models != []
    ensures var run, base := UnloadAndWait(site, w, models), |w.log|;
      var log := run.wire.log;
      && (run.outcome.end == Unloaded <==>
            && |log| > base + |models|
            && (forall i :: 0 <= i < |models| ==> UnloadedAt(log, base + i, models[i]))
            && log[|log| - 1].request == List && log[|log| - 1].answer.Models?
            && !AnyLeft(log[|log| - 1].answer.names, models))
      && (run.outcome.end == Unloaded ==> run.outcome.targets == models)
      && run.outcome.end != NothingLoaded
      && |log| > base
  {
    hide Sent, Drain, UnloadEach, AnyLeft, Confirmed;
    var unloads := UnloadEach(site, w, models);
    UnloadsInOrder(site, w, models);
    var log := unloads.wire.log;
    if unloads.done == |models| {
      assert models[..unloads.done] == models;
      DrainIsSound(site, models, unloads.wire.clock, unloads.wire);
      var all := Drain(site, models, unloads.wire.clock, unloads.wire).wire.log;
      forall i | 0 <= i < |models| ensures UnloadedAt(all, |w.log| + i, models[i]) {
        assert UnloadedAt(log, |w.log| + i, models[i]);
        assert all[..|log|][|w.log| + i] == log[|w.log| + i];
      }
    }
  }

  /** A release that fails at an unload names exactly the models unloaded so far:
      the next one was asked for and not confirmed, and it acted if there were any. */
  lemma {:induction false} FailedUnloadReportsItsPrefix(site: Site, w: Wire)
    requires Ready(site) && ReleaseFrom(site, w).outcome.end == UnloadFailed
    ensures var run, models, base := ReleaseFrom(site, w), FirstListing(site, w), |w.log|;
      var log, k := run.wire.log, |run.outcome.targets|;
      && k < |models| && run.outcome.targets == models[..k]
      && |log| == base + 1 + k + 1
      && (forall i :: 0 <= i < k ==> UnloadedAt(log, base + 1 + i, models[i]))
      && RefusedAt(log, base + 1 + k, models[k])
      && (run.outcome.acted <==> k > 0)
  {
    UnloadsInOrder(site, Sent(site, w, List), FirstListing(site, w));
    hide Sent, UnloadEach, Drain;
  }

  /** Whatever the server does, a release that ends undrained reports that it did
      not act, and every poll it made still showed one of the models. */
  lemma {:induction false} UndrainedNeverActs(site: Site, w: Wire)
    requires Ready(site) && ReleaseFrom(site, w).outcome.end == NotDrained
    ensures var run, models := ReleaseFrom(site, w), FirstListing(site, w);
      && !run.outcome.acted && run.outcome.targets == models
      && forall i :: |w.log| + 1 + |models| <= i < |run.wire.log| ==>
           run.wire.log[i].answer.Models? && exists m :: m in models && m in run.wire.log[i].answer.names
  {
    hide Sent, UnloadEach, Drain;
    var w', models := Sent(site, w, List), FirstListing(site, w);
    UnloadsInOrder(site, w', models);
    var unloads := UnloadEach(site, w', models);
    DrainIsSound(site, models[..unloads.done], unloads.wire.clock, unloads.wire);
    assert models[..unloads.done] == models;
  }

  /** What each way to end says and reports. Nothing is reported of a listing that
      failed or was empty; a poll that failed, like a drain that worked, reports
      every model as acted on. */
  lemma {:induction false} EndsMean(site: Site, w: Wire)
    requires Ready(site)
    ensures var run, models := ReleaseFrom(site, w), FirstListing(site, w);
      var o, log := run.outcome, run.wire.log;
      && (o.end == ListFailed <==> !LastAnswer(Sent(site, w, List)).Models?)
      && (o.end == NothingLoaded <==> LastAnswer(Sent(site, w, List)) == Models([]))
      && (o.end == ListFailed || o.end == NothingLoaded ==> o == Outcome(false, [], o.end) && |log| == |w.log| + 1)
      && (o.end == DrainFailed || o.end == Unloaded ==> o.acted && o.targets == models && models != [])
      && (o.end == DrainFailed ==>
            && forall i :: 0 <= i < |models| ==> UnloadedAt(log, |w.log| + 1 + i, models[i]))
  {
    var w', models := Sent(site, w, List), FirstListing(site, w);
    hide Sent, UnloadEach, Drain, AnyLeft, Confirmed;
    UnloadsInOrder(site, w', models);
    var unloads := UnloadEach(site, w', models);
    DrainIsSound(site, models[..unloads.done], unloads.wire.clock, unloads.wire);
    if unloads.done == |models| {
      assert models[..unloads.done] == models;
      DrainKeepsUnloads(site, models, unloads.wire, |w'.log|);
    }
  }

  lemma {:induction false} DrainKeepsUnloads(site: Site, models: seq<string>, w: Wire, base: nat)
    requires Ready(site) && base + |models| <= |w.log|
    requires forall i :: 0 <= i < |models| ==> UnloadedAt(w.log, base + i, models[i])
    ensures var log := Drain(site, models, w.clock, w).wire.log;
      forall i :: 0 <= i < |models| ==> UnloadedAt(log, base + i, models[i])
  {
    DrainIsSound(site, models, w.clock, w);
    hide Drain, Confirmed;
    var log := Drain(site, models, w.clock, w).wire.log;
    forall i | 0 <= i < |models| ensures UnloadedAt(log, base + i, models[i]) {
      assert UnloadedAt(w.log, base + i, models[i]);
      assert log[..|w.log|][base + i] == w.log[base + i];
    }
  }

  lemma {:induction false} UnloadAndWaitBounded(site: Site, w: Wire, models: seq<string>)
    requires Ready(site)
    ensures var run, n := UnloadAndWait(site, w, models), |models|;
      && run.wire.clock <= w.clock + n * site.timeout + site.timeout + site.drainTimeout + site.drainInterval
      && |run.wire.log| <= |w.log| + n + site.drainTimeout / site.drainInterval + 2
  {
    var unloads := UnloadEach(site, w, models);
    UnloadsInOrder(site, w, models);
    UnloadsInTime(site, w, models);
    DrainWithin(site, models[..unloads.done], unloads.wire);
    hide Drain, UnloadEach, UnloadedAt, RefusedAt;
    ghost var unloading, polls := |models| * site.timeout, site.drainTimeout / site.drainInterval;
    assert polls >= 0;
    assert UnloadAndWait(site, w, models).wire in
           {unloads.wire, Drain(site, models[..unloads.done], unloads.wire.clock, unloads.wire).wire};
  }

  /** A drain from its start. */
  lemma {:induction false} DrainWithin(site: Site, names: seq<string>, w: Wire)
    requires Ready(site)
    ensures var run := Drain(site, names, w.clock, w);
      && |run.wire.log| <= |w.log| + site.drainTimeout / site.drainInterval + 2
      && w.clock <= run.wire.clock <= w.clock + site.drainTimeout + site.drainInterval + site.timeout
  {
    DrainIsBounded(site, names, w.clock, w);
  }

  /** A release over n models is over within n + 2 calls' timeouts, the drain
      timeout and one tick, having made at most so many calls. */
  lemma {:induction false} ReleaseIsBounded(site: Site, w: Wire)
    requires Ready(site)
    ensures var run, n := ReleaseFrom(site, w), |FirstListing(site, w)|;
      && run.wire.clock <= w.clock + (n + 2) * site.timeout + site.drainTimeout + site.drainInterval
      && |run.wire.log| <= |w.log| + 1 + n + site.drainTimeout / site.drainInterval + 2
  {
    hide Sent, UnloadAndWait;
    var w', models := Sent(site, w, List), FirstListing(site, w);
    UnloadAndWaitBounded(site, w', models);
    assert (|models| + 2) * site.timeout == |models| * site.timeout + 2 * site.timeout;
    assert |models| * site.timeout >= 0;
  }

  // ------------------------------------------------------- the adapter itself

  class Client {
    const site: Site
    var clock: nat
    var log: seq<Exchange>

    constructor (site: Site, clock: nat)
      requires Ready(site)
      ensures this.site == site && Line() == Wire(clock, [])
    {
      this.site := site;
      this.clock, log := clock, [];
    }

    function Line(): Wire
      reads this
    {
      Wire(clock, log)
    }

    /** One HTTP call under the service's timeout. */
    method Send(request: Request) returns (answer: Answer)
      modifies this
      ensures Line() == Sent(site, old(Line()), request) && answer == LastAnswer(Line())
    {
      var reply := site.server(|log|);
      var limit := GiveUpAt(site, clock);
      var start := clock;
      if clock + reply.latency < limit {
        clock := clock + reply.latency;
        answer := reply.answer;
      } else {
        clock := limit;
        answer := Failed;
      }
      log := log + [Exchange(start, clock, request, answer)];
    }

    /** waitDrained. */
    method WaitDrained(names: seq<string>) returns (end: DrainEnd)
      requires Ready(site)
      modifies this
      ensures Drain(site, names, old(clock), old(Line())) == DrainRun(Line(), end)
      ensures clock <= old(clock) + site.drainTimeout + site.drainInterval + site.timeout
      ensures |log| <= |old(log)| + site.drainTimeout / site.drainInterval + 2
    {
      var start := clock;
      DrainIsBounded(site, names, start, Line());
      var deadline := start + site.drainTimeout;
      while true
        invariant start <= clock <= deadline + site.drainInterval
        invariant Drain(site, names, start, Line()) == Drain(site, names, start, old(Line()))
        decreases deadline + site.drainInterval - clock
      {
        var polled := clock;
        var answer := Send(List);
        if !answer.Models? {
          return PollFailed;
        }
        var stillThere := false;
        for i := 0 to |answer.names|
          invariant stillThere <==> AnyLeft(answer.names[..i], names)
        {
          assert answer.names[..i + 1] == answer.names[..i] + [answer.names[i]];
          if answer.names[i] in names {
            assert answer.names[i] in answer.names[..i + 1];
            stillThere := true;
            break;
          }
        }
        assert stillThere <==> AnyLeft(answer.names, names) by {
          assert answer.names[..|answer.names|] == answer.names;
        }
        if !stillThere {
          return Drained;
        }
        if clock > deadline {
          return StillLoaded;
        }
        var tick := NextTick(start, site.drainInterval, polled);
        var wake := if tick < clock then clock else tick;
        if site.cancelAt.Some? && site.cancelAt.value <= wake {
          if site.cancelAt.value >= clock {
            clock := site.cancelAt.value;
          }
          return PollFailed;
        }
        clock := wake;
      }
    }

    /** Release. */
    method Release() returns (result: Outcome)
      requires Ready(site)
      modifies this
      ensures ReleaseFrom(site, old(Line())) == ReleaseRun(Line(), result)
    {
      var answer := Send(List);
      if !answer.Models? {
        return Outcome(false, [], ListFailed);
      }
      var models := answer.names;
      if |models| == 0 {
        return Outcome(false, [], NothingLoaded);
      }
      ghost var listed := Line();
      var acted, targets := false, [];
      for i := 0 to |models|
        invariant targets == models[..i] && (acted <==> i > 0)
        invariant var rest := UnloadEach(site, Line(), models[i..]);
          UnloadEach(site, listed, models) == rest.(done := rest.done + i)
      {
        assert models[i..][1..] == models[i + 1..];
        var reply := Send(Expire(models[i]));
        if !Confirmed(reply) {
          return Outcome(acted, targets, UnloadFailed);
        }
        acted := true;
        targets := targets + [models[i]];
      }
      assert models[|models|..] == [];
      var end := WaitDrained(targets);
      match end {
        case PollFailed => return Outcome(acted, targets, DrainFailed);
        case StillLoaded => return Outcome(false, targets, NotDrained);
        case Drained => return Outcome(acted, targets, Unloaded);
      }
    }
  }
}
