/** How the daemon answers a request: the dispatch, the refusals and dry runs,
    the announcement and the final reply. */
module Handlers {
  import opened Machine
  import opened Domain
  import opened Lines
  import opened Protocol
  import Daemon
  import Deadlines
  import Preview
  import Scheduler
  import Tables
  import opened World

  /** What carrying out a plan comes to: a result for each action, and the card
      as it reads once they are all over, if it does. */
  datatype Done = Done(executed: seq<ActionResult>, after: Option<Device>)

  /** What a request meets: the tables, the clock readings, what the probes and
      the card say, and what carrying out a plan comes to. */
  datatype Scene = Scene(
    tables: Tables.State, at: Instant, now: Instant,
    device: Option<Device>, services: seq<ServiceState>, carryOut: Plan -> Done)

  // ------------------------------------------------------------ as functions

  predicate Names(su: Setup, q: Query) {
    q.service != "" && Configured(su.cfg, q.service)
  }

  /** observation: what was probed, with the claims given and the slots taken. */
  function Seen(sc: Scene, claims: seq<Claim>): Observation {
    Observation(sc.device, Tables.MarkInflight(sc.tables.inflight, sc.services), claims)
  }

  ghost function RequestPlan(su: Setup, sc: Scene, q: Query): Plan {
    var made := Tables.ClaimFor(sc.tables.claims, q.service, q.needMiB, sc.at);
    Scheduler.DecidePlan(su.cfg, Seen(sc,
      if q.dryRun || su.dryRun then Preview.DryClaims(sc.tables.claims, made)
      else Preview.RealClaims(sc.tables.claims, made)))
  }

  ghost function EvictPlan(sc: Scene, q: Query): Plan {
    var obs := Seen(sc, Tables.SnapshotOf(sc.tables.claims));
    if q.allExcept then Scheduler.EvictAllExceptPlan(obs, q.service) else Scheduler.EvictPlan(obs, [q.service])
  }

  ghost function NextTickPlan(su: Setup, sc: Scene): Plan {
    var obs := Seen(sc, Tables.SnapshotOf(sc.tables.claims));
    Scheduler.DecidePlan(su.cfg, obs.(services :=
      Tables.MarkCooling(Tables.Sweep(sc.tables.cooldowns, sc.now), obs.services)))
  }

  /** announce: the plan about to be carried out and how long it may take. */
  function Announcement(cfg: Config, q: Query, plan: Plan): seq<Response> {
    if !q.planFirst || plan.actions == [] then []
    else
      var longest := Deadlines.LongestOf(cfg, plan.actions);
      [Response(false, Some(plan), Deadlines.Milliseconds(longest), false, [], None, None)]
  }

  /** A reply that carries a plan at most. */
  function Reply(plan: Option<Plan>): Response {
    Response(false, plan, 0, false, [], None, None)
  }

  /** freeAfter: the card is read once more only if anything ran. */
  function FreeAfter(done: Done): Option<u64> {
    if done.executed == [] || done.after.None? then None else Some(done.after.value.FreeMiB())
  }

  /** The free memory a request is judged by: the reading after every action, or
      that of the last action, or the one the plan was made on. */
  function JudgedBy(plan: Plan, done: Done): u64 {
    if FreeAfter(done).Some? then FreeAfter(done).value
    else if done.executed != [] && done.executed[|done.executed| - 1].freeAfterMiB.Some? then
      done.executed[|done.executed| - 1].freeAfterMiB.value
    else plan.currentFreeMiB
  }

  /** The final reply for a plan that was carried out. */
  function Report(q: Query, plan: Plan, done: Done): Response {
    Reply(Some(plan)).(executed := done.executed, freeAfterMiB := FreeAfter(done),
                        targetMet := if q.op == Op.Request then Some(JudgedBy(plan, done) >= plan.targetFreeMiB)
                                     else None)
  }

  /** What handleRequest and handleEvict do once they have a plan. */
  function Answered(su: Setup, sc: Scene, q: Query, plan: Plan): Handled {
    if q.dryRun || su.dryRun then Handled([], Reply(Some(plan)))
    else Handled(Announcement(su.cfg, q, plan), Report(q, plan, sc.carryOut(plan)))
  }

  /** handle. */
  ghost function Handle(su: Setup, sc: Scene, q: Query): Handled {
    match q.op
    case Ping => Handled([], Reply(None))
    case Status => Handled([], Reply(None))
    case Preview => Handled([], Reply(Some(NextTickPlan(su, sc))))
    case Request => if Names(su, q) then Answered(su, sc, q, RequestPlan(su, sc, q)) else Handled([], REFUSED)
    case Evict => if Names(su, q) then Answered(su, sc, q, EvictPlan(sc, q)) else Handled([], REFUSED)
    case ReleaseClaim => Handled([], if Names(su, q) then Reply(None) else REFUSED)
    case Unknown => Handled([], REFUSED)
  }

  /** What handle leaves of the tables. */
  function Left(su: Setup, sc: Scene, q: Query): Tables.State {
    if q.op == Op.Request && Names(su, q) && !q.dryRun && !su.dryRun then
      var claim := Tables.ClaimFor(sc.tables.claims, q.service, q.needMiB, sc.at);
      sc.tables.(claims := sc.tables.claims[q.service := claim])
    else if q.op == ReleaseClaim && Names(su, q) && !q.dryRun && !su.dryRun then
      sc.tables.(claims := sc.tables.claims - {q.service})
    else if q.op == Op.Preview then sc.tables.(cooldowns := Tables.Sweep(sc.tables.cooldowns, sc.now))
    else sc.tables
  }

  // ------------------------------------------------------------- as methods

  /** announce. */
  method Announce(cfg: Config, q: Query, plan: Plan) returns (sent: seq<Response>)
    ensures sent == Announcement(cfg, q, plan)
  {
    if !q.planFirst || |plan.actions| == 0 {
      return [];
    }
    var longest := Deadlines.LongestAction(cfg, plan);
    return [Response(false, Some(plan), Deadlines.Milliseconds(longest), false, [], None, None)];
  }

  /** freeAfter. */
  method ReadAfter(done: Done) returns (free: Option<u64>)
    ensures free == FreeAfter(done)
  {
    if |done.executed| == 0 {
      return None;
    }
    match done.after {
      case None => return None;
      case Some(device) => return Some(device.FreeMiB());
    }
  }

  method HandleRequest(d: Daemon.Daemon, q: Query, at: Instant, device: Option<Device>, services: array<ServiceState>,
                       carryOut: Plan -> Done)
    returns (h: Handled)
    requires d.Valid() && q.op == Op.Request
    modifies d`claims, services
    ensures d.Valid()
    ensures var su, sc := Setup(d.cfg, d.dryRun), Scene(old(d.State()), at, 0, device, old(services[..]), carryOut);
      h == Handle(su, sc, q) && d.State() == Left(su, sc, q)
  {
    hide Scheduler.DecidePlan, Tables.SnapshotOf, Tables.MarkInflight, Deadlines.LongestOf;
    ghost var su, sc := Setup(d.cfg, d.dryRun), Scene(d.State(), at, 0, device, services[..], carryOut);
    var claim := d.RecordClaim(q.service, q.needMiB, q.dryRun, at);
    if claim.None? {
      return Handled([], REFUSED);
    }
    var dryRun := q.dryRun || d.dryRun;
    var claims := d.SnapshotClaims();
    if dryRun {
      claims := claims + [claim.value];
    }
    d.ApplyInflight(services);
    var obs := Observation(device, services[..], claims);
    assert obs == Seen(sc, if dryRun then Preview.DryClaims(sc.tables.claims, claim.value)
                           else Preview.RealClaims(sc.tables.claims, claim.value));
    var plan := Scheduler.Decide(d.cfg, obs);
    if dryRun {
      return Handled([], Reply(Some(plan)));
    }
    var sent := Announce(d.cfg, q, plan);
    var done := carryOut(plan);
    var after := ReadAfter(done);
    var free := plan.currentFreeMiB;
    var n := |done.executed|;
    if after.Some? {
      free := after.value;
    } else if n > 0 && done.executed[n - 1].freeAfterMiB.Some? {
      free := done.executed[n - 1].freeAfterMiB.value;
    }
    var met := free >= plan.targetFreeMiB;
    return Handled(sent, Response(false, Some(plan), 0, false, done.executed, after, Some(met)));
  }

  method HandleEvict(d: Daemon.Daemon, q: Query, device: Option<Device>, services: array<ServiceState>,
                     carryOut: Plan -> Done)
    returns (h: Handled)
    requires d.Valid() && q.op == Op.Evict
    modifies services
    ensures var su, sc := Setup(d.cfg, d.dryRun), Scene(d.State(), 0, 0, device, old(services[..]), carryOut);
      h == Handle(su, sc, q) && d.State() == Left(su, sc, q)
  {
    hide Tables.SnapshotOf, Tables.MarkInflight, Deadlines.LongestOf;
    ghost var sc := Scene(d.State(), 0, 0, device, services[..], carryOut);
    if q.service == "" || LookUp(d.cfg, q.service).None? {
      return Handled([], REFUSED);
    }
    var claims := d.SnapshotClaims();
    d.ApplyInflight(services);
    var obs := Observation(device, services[..], claims);
    assert obs == Seen(sc, Tables.SnapshotOf(sc.tables.claims));
    var plan;
    if q.allExcept {
      plan := Scheduler.EvictAllExcept(obs, q.service);
    } else {
      plan := Scheduler.Evict(obs, [q.service]);
    }
    if q.dryRun || d.dryRun {
      return Handled([], Reply(Some(plan)));
    }
    var sent := Announce(d.cfg, q, plan);
    var done := carryOut(plan);
    var after := ReadAfter(done);
    return Handled(sent, Response(false, Some(plan), 0, false, done.executed, after, None));
  }

  method HandlePlan(d: Daemon.Daemon, q: Query, now: Instant, device: Option<Device>, services: array<ServiceState>,
                    ghost carryOut: Plan -> Done)
    returns (h: Handled)
    requires d.Valid() && q.op == Op.Preview
    modifies d`cooldowns, services
    ensures var su, sc := Setup(d.cfg, d.dryRun), Scene(old(d.State()), 0, now, device, old(services[..]), carryOut);
      h == Handle(su, sc, q) && d.State() == Left(su, sc, q)
  {
    hide Scheduler.DecidePlan, Tables.SnapshotOf, Tables.MarkInflight, Tables.MarkCooling, Tables.Sweep;
    ghost var sc := Scene(d.State(), 0, now, device, services[..], carryOut);
    var claims := d.SnapshotClaims();
    d.ApplyInflight(services);
    d.ApplyCooldowns(now, services);
    var obs := Observation(device, services[..], claims);
    assert obs == Seen(sc, claims).(services := Tables.MarkCooling(d.cooldowns, Seen(sc, claims).services));
    var plan := Scheduler.Decide(d.cfg, obs);
    return Handled([], Reply(Some(plan)));
  }

  method HandleReleaseClaim(d: Daemon.Daemon, q: Query, ghost sc: Scene) returns (h: Handled)
    requires d.Valid() && q.op == ReleaseClaim && sc.tables == d.State()
    modifies d`claims
    ensures d.Valid()
    ensures var su := Setup(d.cfg, d.dryRun); h == Handle(su, sc, q) && d.State() == Left(su, sc, q)
  {
    var ok, had := d.DropClaim(q.service, q.dryRun);
    return Handled([], if ok then Reply(None) else REFUSED);
  }

  // -------------------------------------------------------------- two replies

  /** A plan that is carried out and was asked for first: a real request or
      eviction of a configured service whose plan has actions. */
  ghost predicate IsAnnounced(su: Setup, sc: Scene, q: Query) {
    && q.planFirst && !q.dryRun && !su.dryRun && Names(su, q)
    && (|| (q.op == Op.Request && RequestPlan(su, sc, q).actions != [])
        || (q.op == Op.Evict && EvictPlan(sc, q).actions != []))
  }

  ghost function CarriedOut(su: Setup, sc: Scene, q: Query): Plan {
    if q.op == Op.Evict then EvictPlan(sc, q) else RequestPlan(su, sc, q)
  }

  /** The two-reply protocol, from one end to the other. A request that fits is
      handled as it was sent. The client ends with the daemon's final reply if
      and only if every line written fits, and never with the announcement. The
      announcement is sent, and the client waits a second time, exactly when the
      plan is carried out, was asked for first and has actions: then for as long
      as its longest action may take, and the final reply carries that same plan
      and what came of it. */
  lemma {:induction false} TwoReplies(
    su: Setup, sc: Scene, queries: Codec<Query>, replies: Codec<Response>, q: Query, wait: i64,
    more: seq<Byte>, rest: seq<Byte>)
    requires Faithful(queries) && Faithful(replies) && Fits(queries, q)
    ensures var handler := (x: Query) => Handle(su, sc, x);
      Served(queries, handler, MessageOf(BUFFER, MAX_MESSAGE, [], LineOf(queries, q) + more).result)
        == Replies(Handle(su, sc, q))
    ensures var h := Handle(su, sc, q);
      var answer := AnswerFrom(replies, wait, LinesOf(replies, Replies(h)) + rest);
      && !h.final.preliminary && |Replies(h)| == (if IsAnnounced(su, sc, q) then 2 else 1)
      && (answer.result == Ok(h.final) <==> forall r :: r in Replies(h) ==> Fits(replies, r))
      && (answer.result.Ok? ==> answer.result.value == h.final && answer.rest == rest)
      && (|answer.waits| == 2 <==> IsAnnounced(su, sc, q) && Fits(replies, Replies(h)[0]))
      && (|answer.waits| == 2 ==>
            && answer.waits[0] == wait
            && answer.waits[1] == Deadlines.ClientWait(Deadlines.LongestOf(su.cfg, CarriedOut(su, sc, q).actions)))
      && (IsAnnounced(su, sc, q) ==>
            && h.sent[0].plan == h.final.plan == Some(CarriedOut(su, sc, q))
            && h.final.executed == sc.carryOut(CarriedOut(su, sc, q)).executed)
  {
    var h, handler := Handle(su, sc, q), (x: Query) => Handle(su, sc, x);
    hide RequestPlan, EvictPlan, NextTickPlan, Faithful, Fits, MessageOf, AnswerFrom, LinesOf, Served,
         Deadlines.LongestOf, Deadlines.Milliseconds, Deadlines.WaitFor, Deadlines.FromMilliseconds;
    RequestArrives(queries, handler, q, more);
    ExchangeEnds(replies, h, wait, rest);
  }

  /** What each request is answered with. One for a service that is not configured,
      or of no known kind, is refused and changes nothing; a dry run answers with
      the plan alone; a real one with the plan and what came of it. */
  lemma {:induction false} RepliesMean(su: Setup, sc: Scene, q: Query)
    ensures var h, acts := Handle(su, sc, q), q.op == Op.Request || q.op == Op.Evict;
      var nobody := q.service == "" || forall s :: s in su.cfg.services ==> s.name != q.service;
      var refused := q.op == Unknown || ((acts || q.op == ReleaseClaim) && nobody);
      && (h.final.failed <==> refused)
      && (refused ==> h == Handled([], REFUSED) && Left(su, sc, q) == sc.tables)
      && (!refused && acts ==> h.final.plan == Some(CarriedOut(su, sc, q)))
      && (!refused && acts && (q.dryRun || su.dryRun) ==>
            h.sent == [] && h.final.executed == [] && h.final.targetMet == None && Left(su, sc, q) == sc.tables)
      && (!refused && acts && !q.dryRun && !su.dryRun ==>
            h.final.executed == sc.carryOut(CarriedOut(su, sc, q)).executed)
      && (q.op == Op.Preview ==> h.final.plan == Some(NextTickPlan(su, sc)) && h.sent == [])
      && (q.op == Op.Ping || q.op == Op.Status ==> Left(su, sc, q) == sc.tables)
  {
    hide RequestPlan, EvictPlan, NextTickPlan, Deadlines.LongestOf;
    if s :| s in su.cfg.services && s.name == q.service {
      assert Configured(su.cfg, q.service);
    }
  }

  /** What a request leaves: its claim, filed or dropped, and nothing else; only a
      preview touches the cooldowns, and only to forget those that have ended. */
  lemma {:induction false} LeftMeans(su: Setup, sc: Scene, q: Query, s: string)
    ensures var left, acts := Left(su, sc, q), Names(su, q) && !q.dryRun && !su.dryRun;
      && left.inflight == sc.tables.inflight
      && (s in left.cooldowns <==> s in sc.tables.cooldowns && (q.op == Op.Preview ==> sc.now < sc.tables.cooldowns[s]))
      && (s in left.cooldowns ==> left.cooldowns[s] == sc.tables.cooldowns[s])
      && (s == q.service && acts && q.op == Op.Request ==>
            s in left.claims && left.claims[s].service == s && left.claims[s].needMiB == q.needMiB
            && left.claims[s].at == if s in sc.tables.claims then sc.tables.claims[s].at else sc.at)
      && (s == q.service && acts && q.op == ReleaseClaim ==> s !in left.claims)
      && (!(s == q.service && acts && (q.op == Op.Request || q.op == ReleaseClaim)) ==>
            && (s in left.claims <==> s in sc.tables.claims)
            && (s in left.claims ==> left.claims[s] == sc.tables.claims[s]))
  {
  }

  /** What a final reply says of memory is measured: its free figure is the card
      read after every action of a plan that had one, and a request's target is
      met exactly when the last reading there is reaches it. */
  lemma {:induction false} ReportsAreMeasured(su: Setup, sc: Scene, q: Query)
    requires Names(su, q) && (q.op == Op.Request || q.op == Op.Evict) && !q.dryRun && !su.dryRun
    ensures var final, plan := Handle(su, sc, q).final, CarriedOut(su, sc, q);
      var done := sc.carryOut(plan);
      && (final.freeAfterMiB.Some? <==> done.executed != [] && done.after.Some?)
      && (final.freeAfterMiB.Some? ==> final.freeAfterMiB.value == done.after.value.FreeMiB())
      && (final.targetMet.Some? <==> q.op == Op.Request)
      && (q.op == Op.Request && done.executed == [] ==>
            final.targetMet == Some(plan.currentFreeMiB >= plan.targetFreeMiB))
      && (q.op == Op.Request && done.executed != [] && done.after.Some? ==>
            final.targetMet == Some(done.after.value.FreeMiB() >= plan.targetFreeMiB))
      && (q.op == Op.Request && done.executed != [] && done.after.None? ==>
            var last := done.executed[|done.executed| - 1].freeAfterMiB;
            final.targetMet == Some((if last.Some? then last.value else plan.currentFreeMiB) >= plan.targetFreeMiB))
  {
    hide RequestPlan, EvictPlan;
  }
}
