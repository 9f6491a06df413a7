/** How long an Ollama release may take, exactly, and which of the deadlines
    built on actionBound cover it. */
module ReleaseTime {
  import opened Machine
  import opened Domain
  import opened Ollama
  import Deadlines

  /** An Ollama adapter for the service, somewhere, polling at this interval. */
  predicate Serves(svc: Service, interval: nat, site: Site) {
    && svc.adapter.Ollama? && site.timeout == svc.timeout && site.drainTimeout == svc.drainTimeout
    && site.drainInterval == interval && site.cancelAt.None?
  }

  /** How long a release from here takes. */
  function Duration(site: Site, clock: nat): int
    requires Ready(site)
  {
    ReleaseFrom(site, Wire(clock, [])).wire.clock - clock
  }

  /** Every release is over within the bound, whatever the server does. */
  ghost predicate BoundsReleases(svc: Service, interval: nat, bound: int)
    requires interval > 0
  {
    forall site: Site, clock: nat :: Serves(svc, interval, site) ==> Duration(site, clock) <= bound
  }

  /** Every release of n models is over within the bound. */
  ghost predicate CoversReleases(svc: Service, interval: nat, n: nat, bound: int)
    requires interval > 0
  {
    forall site: Site, clock: nat ::
      Serves(svc, interval, site) && |FirstListing(site, Wire(clock, []))| == n ==> Duration(site, clock) <= bound
  }

  /** When the first tick after the drain timeout comes. */
  function DrainTick(drainTimeout: nat, interval: nat): nat
    requires interval > 0
  {
    interval * (drainTimeout / interval + 1)
  }

  /** n + 1 calls that answer at the last moment, polls until the first tick after
      the drain timeout, and a last poll that never answers. */
  function WorstRelease(svc: Service, interval: nat, n: nat): int
    requires svc.drainTimeout >= 0 && interval > 0
  {
    (n + 1) * (svc.timeout - 1) + DrainTick(svc.drainTimeout, interval) + svc.timeout
  }

  // ------------------------------------------------------- no release takes longer

  lemma {:induction false} PollsReach(span: nat, interval: nat, j: nat)
    requires interval > 0 && j <= span / interval + 1
    ensures interval * j <= DrainTick(span, interval) <= span + interval
    ensures j <= span / interval ==> interval * j <= span
    ensures DrainTick(span, interval) > span
  {
    var q := span / interval;
    assert interval * q <= span < interval * (q + 1);
    MulMonotone(interval, j, q + 1);
    if j <= q {
      MulMonotone(interval, j, q);
    }
  }

  /** The tick after a moment within the drain timeout is no later than that. */
  lemma {:induction false} TickInTime(start: nat, interval: nat, t: nat, span: nat)
    requires interval > 0 && start <= t <= start + span
    ensures NextTick(start, interval, t) <= start + DrainTick(span, interval)
  {
    var k, q := (t - start) / interval, span / interval;
    assert interval * k <= t - start <= span;
    MultipleWithin(span, interval, k);
    MulMonotone(interval, k + 1, q + 1);
  }

  lemma {:induction false} DrainAtMost(site: Site, names: seq<string>, start: nat, w: Wire)
    requires Ready(site) && site.cancelAt.None?
    requires start <= w.clock <= start + DrainTick(site.drainTimeout, site.drainInterval)
    requires start <= w.clock <= start + site.drainTimeout + site.drainInterval
    ensures Drain(site, names, start, w).wire.clock
         <= start + DrainTick(site.drainTimeout, site.drainInterval) + site.timeout
    decreases start + site.drainTimeout + site.drainInterval - w.clock
  {
    var w' := Sent(site, w, List);
    PollsReach(site.drainTimeout, site.drainInterval, 0);
    hide DrainTick, Sent, NextTick, AnyLeft;
    if LastAnswer(w').Models? && AnyLeft(LastAnswer(w').names, names) && w'.clock <= start + site.drainTimeout {
      var tick := NextTick(start, site.drainInterval, w.clock);
      var wake := if tick < w'.clock then w'.clock else tick;
      TickInTime(start, site.drainInterval, w.clock, site.drainTimeout);
      DrainAtMost(site, names, start, w'.(clock := wake));
    }
  }

  /** n calls that answer at the last moment. */
  function LateCalls(n: nat, timeout: int): int {
    n * (timeout - 1)
  }

  lemma {:induction false} OneMoreCall(n: nat, timeout: int)
    ensures LateCalls(0, timeout) == 0 && LateCalls(n + 1, timeout) == LateCalls(n, timeout) + (timeout - 1)
  {
  }

  lemma {:induction false} FewerCalls(m: nat, n: nat, timeout: nat)
    requires m <= n && timeout > 0
    ensures LateCalls(m, timeout) <= LateCalls(n, timeout)
  {
    MulMonotone(timeout - 1, m, n);
  }

  /** Calls that answered took less than the timeout. */
  lemma {:induction false} UnloadsAtMost(site: Site, w: Wire, models: seq<string>)
    requires site.timeout > 0 && site.cancelAt.None?
    ensures var run := UnloadEach(site, w, models);
      run.wire.clock <= w.clock + LateCalls(run.done, site.timeout) + (if run.done < |models| then site.timeout else 0)
    decreases |models|
  {
    OneMoreCall(0, site.timeout);
    if models != [] {
      var w' := Sent(site, w, Expire(models[0]));
      if Confirmed(LastAnswer(w')) {
        assert w'.clock <= w.clock + (site.timeout - 1);
        UnloadsAtMost(site, w', models[1..]);
        OneMoreCall(UnloadEach(site, w', models[1..]).done, site.timeout);
      }
      hide LateCalls, Sent;
    }
  }

  lemma {:induction false} UnloadAndWaitAtMost(site: Site, w: Wire, models: seq<string>)
    requires Ready(site) && site.timeout > 0 && site.cancelAt.None?
    ensures UnloadAndWait(site, w, models).wire.clock
         <= w.clock + LateCalls(|models|, site.timeout) + DrainTick(site.drainTimeout, site.drainInterval)
            + site.timeout
  {
    PollsReach(site.drainTimeout, site.drainInterval, 0);
    UnloadsAtMost(site, w, models);
    hide LateCalls, UnloadEach, Drain, DrainTick;
    var unloads := UnloadEach(site, w, models);
    FewerCalls(unloads.done, |models|, site.timeout);
    if unloads.done == |models| {
      DrainAtMost(site, models[..unloads.done], unloads.wire.clock, unloads.wire);
    }
  }

  lemma {:induction false} ReleaseAtMost(svc: Service, interval: nat, site: Site, clock: nat, n: nat)
    requires interval > 0 && svc.timeout > 0 && svc.drainTimeout >= 0 && n > 0
    requires Serves(svc, interval, site) && |FirstListing(site, Wire(clock, []))| == n
    ensures Duration(site, clock) <= WorstRelease(svc, interval, n)
  {
    var listed := Sent(site, Wire(clock, []), List);
    var models, each := FirstListing(site, Wire(clock, [])), site.timeout - 1;
    assert listed.clock <= clock + each;
    hide Sent, UnloadAndWait, DrainTick;
    UnloadAndWaitAtMost(site, listed, models);
    assert (n + 1) * each == LateCalls(n, site.timeout) + each;
  }

  // ------------------------------------------------------------ and one does

  /** A server with these models loaded. It takes `slow` to list them and to
      confirm each unload, and then answers polls at once: the models stay listed
      for so many of them and are gone from the next, which takes `last`. */
  function Lingering(slow: nat, models: seq<string>, polls: nat, last: nat): nat -> Reply {
    call =>
      if call == 0 then Reply(slow, Models(models))
      else if call <= |models| then Reply(slow, Done("unload"))
      else if call <= |models| + polls then Reply(0, Models(models))
      else Reply(last, Models([]))
  }

  /** The polls a ticker fits in before the drain timeout has passed. */
  function PollsWithin(site: Site): nat
    requires Ready(site)
  {
    site.drainTimeout / site.drainInterval + 1
  }

  ghost predicate Lingers(site: Site, slow: nat, models: seq<string>, last: nat) {
    && Ready(site) && slow < site.timeout && site.cancelAt.None? && models != []
    && site.server == Lingering(slow, models, PollsWithin(site), last)
  }

  /** How long the last poll is waited for. */
  function LastPoll(site: Site, last: nat): nat {
    if last < site.timeout then last else site.timeout
  }

  lemma {:induction false} TickOf(start: nat, interval: nat, j: nat)
    requires interval > 0
    ensures NextTick(start, interval, start + interval * j) == start + interval * (j + 1)
  {
    MultipleWithin(interval * j, interval, j);
    var q := interval * j / interval;
    if q > j {
      MulMonotone(interval, j + 1, q);
    }
  }

  lemma {:induction false} LingeringUnloads(site: Site, slow: nat, models: seq<string>, last: nat, w: Wire, k: nat)
    requires Lingers(site, slow, models, last) && k <= |models| && |w.log| == 1 + k
    ensures var run := UnloadEach(site, w, models[k..]);
      run.done == |models| - k && |run.wire.log| == 1 + |models| && run.wire.clock == w.clock + (|models| - k) * slow
    decreases |models| - k
  {
    if k < |models| {
      var w' := Sent(site, w, Expire(models[k]));
      assert models[k..][1..] == models[k + 1..];
      assert LastAnswer(w') == Done("unload") && w'.clock == w.clock + slow;
      LingeringUnloads(site, slow, models, last, w', k + 1);
      assert (|models| - k) * slow == slow + (|models| - (k + 1)) * slow;
    }
  }

  lemma {:induction false} LingeringPoll(
    site: Site, slow: nat, models: seq<string>, last: nat, w: Wire, j: nat)
    requires Lingers(site, slow, models, last) && j <= PollsWithin(site) && |w.log| == 1 + |models| + j
    ensures var w' := Sent(site, w, List);
      && (j < PollsWithin(site) ==> LastAnswer(w') == Models(models) && w'.clock == w.clock)
      && (j == PollsWithin(site) ==>
            && LastAnswer(w') == (if last < site.timeout then Models([]) else Failed)
            && w'.clock == w.clock + LastPoll(site, last))
  {
    hide PollsWithin;
  }

  /** The drain of such a server: it polls once a tick until the timeout has
      passed, and once more. */
  lemma {:induction false} LingeringDrain(
    site: Site, slow: nat, models: seq<string>, last: nat, start: nat, w: Wire, j: nat)
    requires Lingers(site, slow, models, last) && j <= PollsWithin(site)
    requires |w.log| == 1 + |models| + j && w.clock == start + site.drainInterval * j
    ensures w.clock <= start + site.drainTimeout + site.drainInterval
    ensures var run := Drain(site, models, start, w);
      && run.end == (if last < site.timeout then Drained else PollFailed)
      && run.wire.clock == start + DrainTick(site.drainTimeout, site.drainInterval) + LastPoll(site, last)
    decreases PollsWithin(site) - j
  {
    PollsReach(site.drainTimeout, site.drainInterval, j);
    hide Sent, Lingering, DrainTick, NextTick;
    var w' := Sent(site, w, List);
    LingeringPoll(site, slow, models, last, w, j);
    if j < PollsWithin(site) {
      assert models[0] in models;
      TickOf(start, site.drainInterval, j);
      OnTheTick(site, models, start, w, j);
      hide Drain;
      var next := w'.(clock := start + site.drainInterval * (j + 1));
      LingeringDrain(site, slow, models, last, start, next, j + 1);
    } else {
      assert w.clock == start + DrainTick(site.drainTimeout, site.drainInterval) by {
        LastTick(site, start, j);
      }
    }
  }

  /** A poll in time that shows a model is followed by the next, a tick later. */
  lemma {:induction false} OnTheTick(site: Site, names: seq<string>, start: nat, w: Wire, j: nat)
    requires Ready(site) && site.cancelAt.None? && j <= site.drainTimeout / site.drainInterval
    requires w.clock == start + site.drainInterval * j
    requires var w' := Sent(site, w, List);
      w'.clock == w.clock && LastAnswer(w').Models? && AnyLeft(LastAnswer(w').names, names)
    ensures start + site.drainInterval * (j + 1) <= start + site.drainTimeout + site.drainInterval
    ensures w.clock <= start + site.drainTimeout
    ensures Drain(site, names, start, w)
         == Drain(site, names, start, Sent(site, w, List).(clock := start + site.drainInterval * (j + 1)))
  {
    PollsReach(site.drainTimeout, site.drainInterval, j);
    PollsReach(site.drainTimeout, site.drainInterval, j + 1);
    TickOf(start, site.drainInterval, j);
    hide Sent, NextTick, AnyLeft, DrainTick;
  }

  lemma {:induction false} LastTick(site: Site, start: nat, j: nat)
    requires Ready(site) && j == PollsWithin(site)
    ensures start + site.drainInterval * j == start + DrainTick(site.drainTimeout, site.drainInterval)
  {
  }

  /** A whole release: the slow calls, the ticks until the drain timeout has
      passed, and one more poll. */
  lemma {:induction false} LingeringRelease(site: Site, slow: nat, models: seq<string>, last: nat, clock: nat)
    requires Lingers(site, slow, models, last)
    ensures FirstListing(site, Wire(clock, [])) == models
    ensures var run := ReleaseFrom(site, Wire(clock, []));
      && run.outcome.end == (if last < site.timeout then Unloaded else DrainFailed)
      && run.wire.clock == clock + (|models| + 1) * slow
                           + DrainTick(site.drainTimeout, site.drainInterval) + LastPoll(site, last)
  {
    var w := Wire(clock, []);
    var listed := Sent(site, w, List);
    assert LastAnswer(listed) == Models(models) && listed.clock == clock + slow;
    assert models[0..] == models && models[..|models|] == models;
    LingeringUnloads(site, slow, models, last, listed, 0);
    var unloaded := UnloadEach(site, listed, models).wire;
    LingeringDrain(site, slow, models, last, unloaded.clock, unloaded, 0);
    assert (|models| + 1) * slow == slow + |models| * slow;
    hide Drain, UnloadEach, Sent, DrainTick;
  }

  /** The worst release there is of these models. */
  lemma {:induction false} WorstIsReached(svc: Service, interval: nat, models: seq<string>, clock: nat)
    returns (site: Site)
    requires svc.adapter.Ollama? && interval > 0 && svc.timeout > 0 && svc.drainTimeout >= 0 && models != []
    ensures Serves(svc, interval, site) && FirstListing(site, Wire(clock, [])) == models
    ensures Duration(site, clock) == WorstRelease(svc, interval, |models|)
  {
    var slow, polls := svc.timeout - 1, svc.drainTimeout / interval + 1;
    var server := Lingering(slow, models, polls, svc.timeout);
    site := Site(svc.timeout, svc.drainTimeout, interval, server, None);
    LingeringRelease(site, slow, models, svc.timeout, clock);
    hide ReleaseFrom, Lingering, DrainTick, FirstListing;
  }

  /** One that succeeds, in time on every call, takes a nanosecond less. */
  lemma {:induction false} SuccessCanTakeAsLong(svc: Service, interval: nat, models: seq<string>, clock: nat)
    returns (site: Site)
    requires svc.adapter.Ollama? && interval > 0 && svc.timeout > 0 && svc.drainTimeout >= 0 && models != []
    ensures Serves(svc, interval, site) && FirstListing(site, Wire(clock, [])) == models
    ensures forall call :: site.server(call).latency < site.timeout
    ensures ReleaseFrom(site, Wire(clock, [])).outcome.end == Unloaded
    ensures Duration(site, clock) == WorstRelease(svc, interval, |models|) - 1
  {
    var slow, polls := svc.timeout - 1, svc.drainTimeout / interval + 1;
    var server := Lingering(slow, models, polls, slow);
    site := Site(svc.timeout, svc.drainTimeout, interval, server, None);
    LingeringRelease(site, slow, models, slow, clock);
    hide ReleaseFrom, DrainTick, FirstListing;
  }

  // ------------------------------------------------------------- the theorems

  /** A deadline covers every release of n models if and only if it is no shorter
      than (n + 1)(timeout - 1), the first tick after the drain timeout, and a
      timeout more. */
  lemma {:induction false} CoversReleasesIff(svc: Service, interval: nat, n: nat, bound: int)
    requires svc.adapter.Ollama? && interval > 0 && svc.timeout > 0 && svc.drainTimeout >= 0 && n > 0
    ensures CoversReleases(svc, interval, n, bound) <==> WorstRelease(svc, interval, n) <= bound
  {
    hide Duration, WorstRelease, FirstListing;
    if WorstRelease(svc, interval, n) <= bound {
      forall site: Site, clock: nat
        | Serves(svc, interval, site) && |FirstListing(site, Wire(clock, []))| == n
        ensures Duration(site, clock) <= bound
      {
        ReleaseAtMost(svc, interval, site, clock, n);
      }
    } else {
      var site := WorstIsReached(svc, interval, seq(n, _ => "m"), 0);
      assert Duration(site, 0) > bound;
    }
  }

  /** What the client waits after an announcement, and what the daemon gives the
      whole connection, as bounds on a release of n models on a service whose
      bound is announced: each covers it exactly when it reaches the worst case,
      both figures plain sums. */
  lemma {:induction false} DeadlinesCoverIff(cfg: Config, svc: Service, interval: nat, n: nat)
    requires svc.adapter.Ollama? && interval > 0 && svc.timeout > 0 && svc.drainTimeout >= 0 && n > 0
    requires Deadlines.MILLISECOND <= svc.timeout + svc.drainTimeout < Deadlines.MAX_ACTION_BOUND
    ensures var sum, most := svc.timeout + svc.drainTimeout, Deadlines.LongestConfigured(cfg.services);
      && (CoversReleases(svc, interval, n, Deadlines.ClientWait(Deadlines.ActionBound(svc))) <==>
            WorstRelease(svc, interval, n) <= sum - sum % Deadlines.MILLISECOND + Deadlines.CLIENT_SLACK)
      && (most > 0 ==>
            (CoversReleases(svc, interval, n, Deadlines.BudgetOf(cfg.services)) <==>
               WorstRelease(svc, interval, n) <= most + Deadlines.CLIENT_SLACK + Deadlines.MINUTE))
  {
    Deadlines.ActionBoundIsCappedSumIff(svc);
    Deadlines.NoDeadlineWraps(Deadlines.ActionBound(svc));
    Deadlines.NoDeadlineWraps(Deadlines.LongestConfigured(cfg.services));
    Deadlines.BudgetIsPlainSum(cfg.services);
    hide CoversReleases, WorstRelease, Deadlines.BudgetOf, Deadlines.ClientWait, Deadlines.ActionBound;
    CoversReleasesIff(svc, interval, n, Deadlines.ClientWait(Deadlines.ActionBound(svc)));
    CoversReleasesIff(svc, interval, n, Deadlines.BudgetOf(cfg.services));
  }

  /** On the default timeouts the client's wait of 45 s covers no release of any
      model, and the daemon's own budget covers those of twelve at most. */
  lemma {:induction false} DefaultsCover(cfg: Config, svc: Service, n: nat)
    requires svc.adapter.Ollama? && svc.timeout == 5 * SECOND && svc.drainTimeout == 30 * SECOND && n > 0
    requires cfg.services == [svc]
    ensures !CoversReleases(svc, POLL_INTERVAL, n, Deadlines.ClientWait(Deadlines.ActionBound(svc)))
    ensures CoversReleases(svc, POLL_INTERVAL, n, Deadlines.BudgetOf(cfg.services)) <==> n <= 12
  {
    DefaultLongest(cfg, svc);
    DefaultWorst(svc, n);
    hide CoversReleases, Deadlines.BudgetOf, Deadlines.ClientWait, Deadlines.ActionBound, WorstRelease;
    DeadlinesCoverIff(cfg, svc, POLL_INTERVAL, n);
  }

  lemma {:induction false} DefaultLongest(cfg: Config, svc: Service)
    requires svc.timeout == 5 * SECOND && svc.drainTimeout == 30 * SECOND && cfg.services == [svc]
    ensures Deadlines.LongestConfigured(cfg.services) == 35 * SECOND
  {
    assert cfg.services[1..] == [] && Deadlines.LongestConfigured([]) == 0;
    Deadlines.ActionBoundIsCappedSumIff(svc);
  }

  lemma {:induction false} DefaultWorst(svc: Service, n: nat)
    requires svc.timeout == 5 * SECOND && svc.drainTimeout == 30 * SECOND && n > 0
    ensures WorstRelease(svc, POLL_INTERVAL, n) == (n + 1) * 4_999_999_999 + 35_250_000_000
  {
    assert DrainTick(30 * SECOND, POLL_INTERVAL) == 30_250_000_000;
    hide DrainTick;
    assert svc.timeout - 1 == 4_999_999_999;
  }

  /** newOllama's polling interval: 250 ms. */
  const POLL_INTERVAL: nat := 250_000_000

  /** actionBound does not bound a release that works. For every timeout over a
      nanosecond, every drain timeout and every polling interval, a server with
      one model, in time on every call, makes a release that succeeds outlast it. */
  lemma {:induction false} ReleaseOutlastsActionBound(svc: Service, interval: nat, clock: nat) returns (site: Site)
    requires svc.adapter.Ollama? && svc.timeout >= 2 && svc.drainTimeout >= 0 && interval > 0
    ensures Serves(svc, interval, site) && FirstListing(site, Wire(clock, [])) == ["m"]
    ensures forall call :: site.server(call).latency < site.timeout
    ensures ReleaseFrom(site, Wire(clock, [])).outcome.end == Unloaded
    ensures Duration(site, clock) > Deadlines.ActionBound(svc)
  {
    site := SuccessCanTakeAsLong(svc, interval, ["m"], clock);
    OneModelOutlasts(svc, interval);
    hide Duration, WorstRelease, Deadlines.ActionBound;
  }

  lemma {:induction false} OneModelOutlasts(svc: Service, interval: nat)
    requires interval > 0 && svc.timeout > 0 && svc.drainTimeout >= 0
    ensures WorstRelease(svc, interval, 1) > Deadlines.ActionBound(svc)
    ensures svc.timeout >= 2 ==> WorstRelease(svc, interval, 1) - 1 > Deadlines.ActionBound(svc)
  {
    PollsReach(svc.drainTimeout, interval, 0);
    Deadlines.ActionBoundIsCappedSumIff(svc);
    hide DrainTick, Deadlines.ActionBound;
    assert (1 + 1) * (svc.timeout - 1) == 2 * svc.timeout - 2;
  }

  /** It bounds every release, failed ones too, exactly when the timeout is
      nothing at all: then no call is ever answered and none takes any time. One
      nanosecond is already too long. */
  lemma {:induction false} ActionBoundBoundsReleasesIff(svc: Service, interval: nat)
    requires svc.adapter.Ollama? && svc.timeout >= 0 && svc.drainTimeout >= 0 && interval > 0
    ensures BoundsReleases(svc, interval, Deadlines.ActionBound(svc)) <==> svc.timeout == 0
  {
    hide Duration, Deadlines.ActionBound, WorstRelease;
    if svc.timeout == 0 {
      forall site: Site, clock: nat | Serves(svc, interval, site)
        ensures Duration(site, clock) <= Deadlines.ActionBound(svc)
      {
        NoTimeoutNoTime(svc, interval, site, clock);
      }
    } else {
      var site := WorstIsReached(svc, interval, ["m"], 0);
      OneModelOutlasts(svc, interval);
      assert Duration(site, 0) > Deadlines.ActionBound(svc);
    }
  }

  lemma {:induction false} NoTimeoutNoTime(svc: Service, interval: nat, site: Site, clock: nat)
    requires interval > 0 && Serves(svc, interval, site) && svc.timeout == 0 && svc.drainTimeout >= 0
    ensures Duration(site, clock) <= Deadlines.ActionBound(svc)
  {
    Deadlines.ActionBoundIsCappedSumIff(svc);
    var listed := Sent(site, Wire(clock, []), List);
    assert LastAnswer(listed) == Failed && listed.clock == clock;
  }
}
