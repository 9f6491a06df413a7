/** The daemon's three mutex-guarded maps, and what each critical section does
    to them, as functions of the maps. */
module Tables {
  import opened Machine
  import opened Domain
  import Ordering
  import Sorting

  datatype State = State(claims: map<string, Claim>, cooldowns: map<string, Instant>, inflight: set<string>)

  const EMPTY := State(map[], map[], {})

  /** Every claim is filed under its own service. */
  ghost predicate Filed(claims: map<string, Claim>) {
    forall s :: s in claims ==> claims[s].service == s
  }

  // -------------------------------------------------------------------- slots

  function Take(t: State, service: string): State {
    t.(inflight := t.inflight + {service})
  }

  function GiveBack(t: State, service: string): State {
    t.(inflight := t.inflight - {service})
  }

  function MarkOne(inflight: set<string>, s: ServiceState): ServiceState {
    if s.name in inflight then s.(actionInFlight := true) else s
  }

  function MarkInflight(inflight: set<string>, services: seq<ServiceState>): (r: seq<ServiceState>)
    ensures |r| == |services|
    ensures forall i :: 0 <= i < |r| ==> r[i] == MarkOne(inflight, services[i])
  {
    seq(|services|, i requires 0 <= i < |services| => MarkOne(inflight, services[i]))
  }

  // ---------------------------------------------------------------- cooldowns

  /** A cooldown ends at exactly its recorded time. */
  function Sweep(cooldowns: map<string, Instant>, now: Instant): map<string, Instant> {
    map n | n in cooldowns && now < cooldowns[n] :: cooldowns[n]
  }

  function CoolOne(cooldowns: map<string, Instant>, s: ServiceState): ServiceState {
    if s.name in cooldowns then s.(cooldownUntil := Some(cooldowns[s.name])) else s
  }

  function MarkCooling(cooldowns: map<string, Instant>, services: seq<ServiceState>): (r: seq<ServiceState>)
    ensures |r| == |services|
    ensures forall i :: 0 <= i < |r| ==> r[i] == CoolOne(cooldowns, services[i])
  {
    seq(|services|, i requires 0 <= i < |services| => CoolOne(cooldowns, services[i]))
  }

  datatype Effect = Pending | Effective | Unmeasured | Useless

  /** The change in free VRAM, as int64(after) - int64(before) computes it. */
  function Gain(before: u64, after: u64): i64 {
    WrapI64(WrapI64(after) - WrapI64(before))
  }

  /** What recordEffect makes of a finished action. */
  function Judge(policy: Policy, r: ActionResult): (e: Effect)
    ensures e != Pending
    ensures r.failed ==> e == Useless
    ensures e == Effective ==> r.freeBeforeMiB.Some? && r.freeAfterMiB.Some?
    ensures e == Unmeasured <==> !r.failed && (r.freeBeforeMiB.None? || r.freeAfterMiB.None?)
  {
    var measured := r.freeBeforeMiB.Some? && r.freeAfterMiB.Some?;
    if !r.failed && measured
       && Gain(r.freeBeforeMiB.value, r.freeAfterMiB.value) >= WrapI64(policy.minEffectMiB) then Effective
    else if !r.failed && !measured then Unmeasured
    else Useless
  }

  /** For figures a real card reports, the judgement is the plain comparison. */
  lemma {:induction false} JudgeComparesFigures(policy: Policy, r: ActionResult, before: u64, after: u64)
    requires !r.failed && r.freeBeforeMiB == Some(before) && r.freeAfterMiB == Some(after)
    requires before < TWO_63 && after < TWO_63 && policy.minEffectMiB < TWO_63
    ensures Judge(policy, r) == Effective <==> after >= before + policy.minEffectMiB
    ensures Judge(policy, r) == Useless <==> after < before + policy.minEffectMiB
  {
    WrapI64Exact(after);
    WrapI64Exact(before);
    WrapI64Exact(after - before);
    WrapI64Exact(policy.minEffectMiB);
  }

  function Record(t: State, policy: Policy, r: ActionResult, now: Instant): State {
    match Judge(policy, r)
    case Effective => t.(cooldowns := t.cooldowns - {r.service})
    case Useless => t.(cooldowns := t.cooldowns[r.service := now + policy.actionCooldown])
    case _ => t
  }

  // ------------------------------------------------------------------- claims

  predicate ClaimLess(a: Claim, b: Claim) {
    if a.at != b.at then a.at < b.at else Ordering.Before(a.service, b.service)
  }

  /** The claim a request makes: asking again keeps the time first asked. */
  function ClaimFor(claims: map<string, Claim>, service: string, needMiB: u64, at: Instant): (c: Claim)
    ensures c.service == service && c.needMiB == needMiB
    ensures c.at == if service in claims then claims[service].at else at
  {
    Claim(service, needMiB, if service in claims then claims[service].at else at)
  }

  ghost function ListClaims(claims: map<string, Claim>): (r: seq<Claim>)
    decreases |claims|
  {
    if claims == map[] then []
    else
      var s :| s in claims;
      assert |claims - {s}| < |claims| by {
        assert (claims - {s}).Keys == claims.Keys - {s};
        assert |claims.Keys - {s}| < |claims.Keys|;
      }
      [claims[s]] + ListClaims(claims - {s})
  }

  /** The claims in the order the scheduler is given them. */
  ghost function SnapshotOf(claims: map<string, Claim>): seq<Claim> {
    Sorting.Sort(ClaimLess, ListClaims(claims))
  }

  lemma {:induction false} ClaimOrder()
    ensures Sorting.StrictWeakOrder(ClaimLess)
  {
    Ordering.BeforeIsStrictTotalOrder();
  }

  lemma {:induction false} ListHoldsClaims(claims: map<string, Claim>)
    requires Filed(claims)
    ensures forall c :: c in ListClaims(claims) <==> c.service in claims && claims[c.service] == c
    ensures DistinctClaims(ListClaims(claims))
    decreases |claims|
  {
    if claims != map[] {
      var s :| s in claims && ListClaims(claims) == [claims[s]] + ListClaims(claims - {s});
      assert (claims - {s}).Keys == claims.Keys - {s};
      assert |claims.Keys - {s}| < |claims.Keys|;
      ListHoldsClaims(claims - {s});
      var l, rest := ListClaims(claims), ListClaims(claims - {s});
      forall j | 0 < j < |l| ensures l[j].service != l[0].service {
        assert l[j] == rest[j - 1] && rest[j - 1] in rest;
      }
    }
  }

  /** A snapshot is a listing of exactly the table, the earliest claim first and
      those made together by name. */
  ghost predicate IsSnapshot(claims: map<string, Claim>, s: seq<Claim>) {
    && (forall i, j :: 0 <= i < j < |s| ==>
          s[i].at < s[j].at || (s[i].at == s[j].at && Ordering.Before(s[i].service, s[j].service)))
    && forall c :: c in s <==> c.service in claims && claims[c.service] == c
  }

  /** Listed in that order, a table is sorted and nothing is listed twice; and
      the other way round, since no two of its claims are on one service. */
  lemma {:induction false} InOrderMeansSorted(claims: map<string, Claim>, s: seq<Claim>)
    requires forall c :: c in s <==> c.service in claims && claims[c.service] == c
    ensures IsSnapshot(claims, s) <==> Sorting.Sorted(ClaimLess, s) && Sorting.NoRepeats(s)
  {
    Ordering.BeforeIsStrictTotalOrder();
    if Sorting.Sorted(ClaimLess, s) && Sorting.NoRepeats(s) {
      forall i, j | 0 <= i < j < |s|
        ensures s[i].at < s[j].at || (s[i].at == s[j].at && Ordering.Before(s[i].service, s[j].service))
      {
        assert s[i] in s && s[j] in s && s[i] != s[j];
        assert !ClaimLess(s[j], s[i]);
      }
    }
  }

  /** There is exactly one snapshot, whatever order the map is walked in. */
  lemma {:induction false} SnapshotUnique(claims: map<string, Claim>, s: seq<Claim>)
    requires Filed(claims)
    ensures IsSnapshot(claims, s) <==> s == SnapshotOf(claims)
    ensures DistinctClaims(SnapshotOf(claims))
  {
    var l, t := ListClaims(claims), SnapshotOf(claims);
    ClaimOrder();
    ListHoldsClaims(claims);
    Sorting.SortSorted(ClaimLess, l);
    Sorting.SameMembers(l, t);
    Sorting.NoRepeatsCounts(l);
    Sorting.NoRepeatsCounts(t);
    forall i, j | 0 <= i < j < |t| ensures t[i].service != t[j].service {
      assert t[i] in l && t[j] in l;
    }
    InOrderMeansSorted(claims, t);
    if IsSnapshot(claims, s) {
      InOrderMeansSorted(claims, s);
      forall x, y | x in s && y in s && x != y ensures ClaimLess(x, y) || ClaimLess(y, x) {
        Ordering.BeforeTotal(x.service, y.service);
      }
      Sorting.SortedSameMembers(ClaimLess, s, t);
    }
  }

  /** Whatever order the table was listed in, sorting the list is the snapshot. */
  lemma {:induction false} SortedListingIsSnapshot(claims: map<string, Claim>, listed: seq<Claim>)
    requires Filed(claims) && Sorting.NoRepeats(listed)
    requires forall c :: c in listed <==> c.service in claims && claims[c.service] == c
    ensures Sorting.Sort(ClaimLess, listed) == SnapshotOf(claims)
  {
    hide SnapshotOf;
    var out := Sorting.Sort(ClaimLess, listed);
    ClaimOrder();
    Sorting.SortSorted(ClaimLess, listed);
    Sorting.SameMembers(listed, out);
    Sorting.NoRepeatsCounts(listed);
    Sorting.NoRepeatsCounts(out);
    InOrderMeansSorted(claims, out);
    SnapshotUnique(claims, out);
  }
}
