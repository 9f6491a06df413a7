/** The deadlines client and daemon each derive from one plan: in int64
    nanoseconds, through a figure in whole milliseconds, and with saturation. */
module Deadlines {
  import opened Machine
  import opened Domain

  const MILLISECOND: i64 := 1_000_000
  const MINUTE: i64 := 60 * SECOND
  const CLIENT_SLACK: i64 := 10 * SECOND
  const PLAN_WAIT: i64 := 90 * SECOND
  const DEFAULT_BUDGET: i64 := 2 * MINUTE
  const MAX_ACTION_BOUND: i64 := MAX_INT64 / 4

  // ---------------------------------------------------------- a single action

  /** actionBound: the request timeout plus the drain, saturating. */
  function ActionBound(svc: Service): i64 {
    if svc.timeout > MAX_ACTION_BOUND || svc.drainTimeout > MAX_ACTION_BOUND then MAX_ACTION_BOUND
    else
      var bound := WrapI64(svc.timeout + svc.drainTimeout);
      if bound < MAX_ACTION_BOUND then bound else MAX_ACTION_BOUND
  }

  /** Whether actionBound is what it is meant to be: the sum, capped. */
  predicate IsCappedSum(svc: Service) {
    var sum := svc.timeout + svc.drainTimeout;
    ActionBound(svc) == if sum < MAX_ACTION_BOUND then sum else MAX_ACTION_BOUND
  }

  /** It is the capped sum exactly when neither figure is over the cap while the
      other drags the sum below it, and the sum does not fall off int64 at the
      bottom. Both can only happen with a negative figure. */
  lemma {:induction false} ActionBoundIsCappedSumIff(svc: Service)
    ensures IsCappedSum(svc) <==>
      if svc.timeout > MAX_ACTION_BOUND || svc.drainTimeout > MAX_ACTION_BOUND
      then svc.timeout + svc.drainTimeout >= MAX_ACTION_BOUND
      else svc.timeout + svc.drainTimeout >= -TWO_63
    ensures svc.timeout >= 0 && svc.drainTimeout >= 0 ==> IsCappedSum(svc) && 0 <= ActionBound(svc)
  {
    WrapI64Exact(svc.timeout + svc.drainTimeout);
    if svc.timeout + svc.drainTimeout < -TWO_63 {
      assert WrapI64(svc.timeout + svc.drainTimeout) == svc.timeout + svc.drainTimeout + TWO_64;
    }
  }

  /** The sum of two very negative figures wraps, and the action looks endless. */
  lemma {:induction false} NegativeFiguresWrap(svc: Service)
    requires svc.timeout == -TWO_63 && svc.drainTimeout == -TWO_63 + MAX_ACTION_BOUND
    ensures ActionBound(svc) == MAX_ACTION_BOUND && !IsCappedSum(svc)
  {
    assert svc.timeout + svc.drainTimeout == MAX_ACTION_BOUND - TWO_64;
    assert WrapI64(svc.timeout + svc.drainTimeout) == MAX_ACTION_BOUND;
  }

  // ------------------------------------------------------------ the longest one

  /** longestAction: no action takes longer than the figure, and it is one of
      theirs (or 0: nothing to wait for). */
  method LongestAction(cfg: Config, plan: Plan) returns (longest: i64)
    ensures 0 <= longest <= MAX_ACTION_BOUND
    ensures forall a :: a in plan.actions && LookUp(cfg, a.service).Some? ==>
      ActionBound(LookUp(cfg, a.service).value) <= longest
    ensures longest > 0 ==>
      exists a ::
        a in plan.actions && LookUp(cfg, a.service).Some? && ActionBound(LookUp(cfg, a.service).value) == longest
    ensures longest <= LongestConfigured(cfg.services)
    ensures longest == LongestOf(cfg, plan.actions)
  {
    longest := 0;
    for i := 0 to |plan.actions|
      invariant 0 <= longest <= MAX_ACTION_BOUND && longest <= LongestConfigured(cfg.services)
      invariant forall a :: a in plan.actions[..i] && LookUp(cfg, a.service).Some? ==>
        ActionBound(LookUp(cfg, a.service).value) <= longest
      invariant longest > 0 ==>
        exists a ::
          a in plan.actions && LookUp(cfg, a.service).Some? && ActionBound(LookUp(cfg, a.service).value) == longest
      invariant LongestOf(cfg, plan.actions) == Larger(longest, LongestOf(cfg, plan.actions[i..]))
    {
      assert plan.actions[..i + 1] == plan.actions[..i] + [plan.actions[i]];
      assert plan.actions[i..][1..] == plan.actions[i + 1..];
      match LookUp(cfg, plan.actions[i].service) {
        case None =>
        case Some(svc) =>
          LongestCovers(cfg.services, svc);
          var bound := ActionBound(svc);
          if bound > longest {
            longest := bound;
          }
      }
    }
  }

  function Larger(a: int, b: int): int {
    if a < b then b else a
  }

  function LongestOf(cfg: Config, actions: seq<Action>): (longest: i64)
    ensures 0 <= longest <= MAX_ACTION_BOUND
  {
    if actions == [] then 0
    else
      var rest := LongestOf(cfg, actions[1..]);
      match LookUp(cfg, actions[0].service)
      case None => rest
      case Some(svc) => Larger(ActionBound(svc), rest)
  }

  function LongestConfigured(services: seq<Service>): (longest: i64)
    ensures 0 <= longest <= MAX_ACTION_BOUND
  {
    if services == [] then 0
    else Larger(ActionBound(services[0]), LongestConfigured(services[1..]))
  }

  lemma {:induction false} LongestCovers(services: seq<Service>, svc: Service)
    requires svc in services
    ensures ActionBound(svc) <= LongestConfigured(services)
  {
    if svc != services[0] {
      LongestCovers(services[1..], svc);
    }
  }

  lemma {:induction false} LongestIsConfigured(cfg: Config, actions: seq<Action>)
    ensures LongestOf(cfg, actions) <= LongestConfigured(cfg.services)
  {
    if actions != [] {
      LongestIsConfigured(cfg, actions[1..]);
      match LookUp(cfg, actions[0].service) {
        case None =>
        case Some(svc) => LongestCovers(cfg.services, svc);
      }
    }
  }

  // ------------------------------------------------------------ the conversions

  /** Duration.Milliseconds: truncates towards zero. */
  function Milliseconds(d: i64): i64 {
    if d >= 0 then d / MILLISECOND else (d + MILLISECOND - 1) / MILLISECOND
  }

  /** time.Duration(ms) * time.Millisecond, as the client reads the figure back. */
  function FromMilliseconds(ms: i64): i64 {
    WrapI64(ms * MILLISECOND)
  }

  function WaitFor(longest: i64): i64 {
    if longest <= 0 then PLAN_WAIT else WrapI64(longest + CLIENT_SLACK)
  }

  /** How long the client waits after an announcement of a plan this long. */
  function ClientWait(longest: i64): i64 {
    WaitFor(FromMilliseconds(Milliseconds(longest)))
  }

  /** connBudget. */
  function BudgetOf(services: seq<Service>): i64 {
    WrapI64(WaitFor(LongestConfigured(services)) + MINUTE)
  }

  method ConnBudget(cfg: Config) returns (budget: i64)
    ensures budget == BudgetOf(cfg.services)
  {
    var longest: i64 := 0;
    for i := 0 to |cfg.services|
      invariant LongestConfigured(cfg.services) == Larger(longest, LongestConfigured(cfg.services[i..]))
      invariant 0 <= longest <= MAX_ACTION_BOUND
    {
      assert cfg.services[i..][1..] == cfg.services[i + 1..];
      var bound := ActionBound(cfg.services[i]);
      if bound > longest {
        longest := bound;
      }
    }
    return WrapI64(WaitFor(longest) + MINUTE);
  }

  /** No step between a bound and a deadline wraps: the figure read back is the
      bound rounded down to a millisecond, and every wait is a plain sum. */
  lemma {:induction false} NoDeadlineWraps(longest: i64)
    requires 0 <= longest <= MAX_ACTION_BOUND
    ensures FromMilliseconds(Milliseconds(longest)) == longest - longest % MILLISECOND
    ensures longest > 0 ==> WaitFor(longest) == longest + CLIENT_SLACK
    ensures FitsI64(WaitFor(longest) + MINUTE)
    ensures longest >= MILLISECOND ==> ClientWait(longest) == longest - longest % MILLISECOND + CLIENT_SLACK
    ensures longest < MILLISECOND ==> ClientWait(longest) == PLAN_WAIT
  {
    WrapI64Exact(longest / MILLISECOND * MILLISECOND);
    WrapI64Exact(longest + CLIENT_SLACK);
    WrapI64Exact(longest - longest % MILLISECOND + CLIENT_SLACK);
  }

  lemma {:induction false} BudgetIsPlainSum(services: seq<Service>)
    ensures BudgetOf(services) == WaitFor(LongestConfigured(services)) + MINUTE
    ensures BudgetOf(services) >= MINUTE + CLIENT_SLACK
  {
    var longest := LongestConfigured(services);
    NoDeadlineWraps(longest);
    WrapI64Exact(WaitFor(longest) + MINUTE);
  }

  // ------------------------------------------------------------- the two nest

  /** The daemon is there for as long as the client waits, whenever the client
      read the announcement within a minute of the connection starting. A plan
      without actions is not announced. */
  ghost predicate DeadlinesNest(cfg: Config, plan: Plan, start: Instant) {
    plan.actions != [] ==> forall readAt :: start <= readAt <= start + MINUTE ==>
      ClientDeadline(readAt, LongestOf(cfg, plan.actions)) <= start + BudgetOf(cfg.services)
  }

  function ClientDeadline(readAt: Instant, longest: i64): Instant {
    readAt + ClientWait(longest)
  }

  /** The deadlines nest exactly when nothing is announced, the longest action is
      at least a millisecond, or the budget covers the flat wait the client falls
      back on: nothing configured takes time at all, or something takes 80 s. */
  lemma {:induction false} DeadlinesNestIff(cfg: Config, plan: Plan, start: Instant)
    ensures DeadlinesNest(cfg, plan, start) <==>
      || plan.actions == []
      || LongestOf(cfg, plan.actions) >= MILLISECOND
      || LongestConfigured(cfg.services) == 0
      || LongestConfigured(cfg.services) >= 80 * SECOND
  {
    var longest, most := LongestOf(cfg, plan.actions), LongestConfigured(cfg.services);
    LongestIsConfigured(cfg, plan.actions);
    NoDeadlineWraps(longest);
    NoDeadlineWraps(most);
    BudgetIsPlainSum(cfg.services);
    assert ClientDeadline(start + MINUTE, longest) == start + MINUTE + ClientWait(longest);
  }

  // ------------------------------------------------------------ the listener

  class Listener {
    var budget: i64

    constructor ()
      ensures budget == 0
    {
      budget := 0;
    }

    /** SetBudget: a budget that is no budget is ignored. */
    method SetBudget(d: i64)
      modifies this
      ensures budget == if d > 0 then d else old(budget)
    {
      if d > 0 {
        budget := d;
      }
    }

    /** What serveConn gives a connection. */
    function Served(): (d: i64)
      reads this
      ensures d > 0
    {
      if budget <= 0 then DEFAULT_BUDGET else budget
    }

    /** The daemon's start: every connection gets what its config can need. */
    method Configure(cfg: Config)
      modifies this
      ensures Served() == BudgetOf(cfg.services)
    {
      var d := ConnBudget(cfg);
      BudgetIsPlainSum(cfg.services);
      SetBudget(d);
    }
  }
}
