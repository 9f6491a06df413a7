/** The daemon's critical sections, each a method on the object that holds the
    maps. Clock readings come in as arguments. */
module Daemon {
  import opened Machine
  import opened Domain
  import Sorting
  import Tables

  class Daemon {
    const cfg: Config
    /** The daemon's own --dry-run flag. */
    const dryRun: bool

    var claims: map<string, Claim>
    var cooldowns: map<string, Instant>
    var inflight: set<string>

    ghost function State(): Tables.State
      reads this
    {
      Tables.State(claims, cooldowns, inflight)
    }

    /** Claims name configured services only; a dry-run daemon holds none. */
    ghost predicate Valid()
      reads this
    {
      && Tables.Filed(claims)
      && (forall s :: s in claims ==> Configured(cfg, s))
      && (dryRun ==> claims == map[])
    }

    constructor (cfg: Config, dryRun: bool)
      ensures Valid() && this.cfg == cfg && this.dryRun == dryRun
      ensures State() == Tables.EMPTY
    {
      this.cfg, this.dryRun := cfg, dryRun;
      claims, cooldowns, inflight := map[], map[], {};
    }

    /** applyInflight. */
    method ApplyInflight(services: array<ServiceState>)
      modifies services
      ensures services[..] == Tables.MarkInflight(inflight, old(services[..]))
      ensures forall i :: 0 <= i < services.Length ==>
        services[i] == old(services[i]).(actionInFlight := old(services[i]).name in inflight
                                                           || old(services[i]).actionInFlight)
    {
      for i := 0 to services.Length
        invariant forall j :: 0 <= j < i ==> services[j] == Tables.MarkOne(inflight, old(services[..])[j])
        invariant forall j :: i <= j < services.Length ==> services[j] == old(services[..])[j]
      {
        if services[i].name in inflight {
          services[i] := services[i].(actionInFlight := true);
        }
      }
    }

    /** acquire. */
    method Acquire(service: string) returns (ok: bool)
      modifies this`inflight
      ensures ok <==> service !in old(inflight)
      ensures State() == if ok then Tables.Take(old(State()), service) else old(State())
      ensures inflight == old(inflight) + {service} && cooldowns == old(cooldowns) && claims == old(claims)
    {
      if service in inflight {
        return false;
      }
      inflight := inflight + {service};
      return true;
    }

    /** releaseSlot. */
    method ReleaseSlot(service: string)
      modifies this`inflight
      ensures State() == Tables.GiveBack(old(State()), service)
      ensures inflight == old(inflight) - {service} && cooldowns == old(cooldowns) && claims == old(claims)
    {
      inflight := inflight - {service};
    }

    /** applyCooldowns, with the clock reading it took before the lock. */
    method ApplyCooldowns(now: Instant, services: array<ServiceState>)
      modifies this`cooldowns, services
      ensures State() == old(State()).(cooldowns := Tables.Sweep(old(cooldowns), now))
      ensures services[..] == Tables.MarkCooling(cooldowns, old(services[..]))
      ensures forall n :: n in cooldowns <==> n in old(cooldowns) && now < old(cooldowns)[n]
      ensures forall n :: n in cooldowns ==> cooldowns[n] == old(cooldowns)[n]
      ensures forall i :: 0 <= i < services.Length ==>
        var s := old(services[i]);
        services[i] == s.(cooldownUntil := if s.name in cooldowns then Some(cooldowns[s.name]) else s.cooldownUntil)
    {
      var names := cooldowns.Keys;
      while names != {}
        invariant forall n :: n in cooldowns <==> n in old(cooldowns) && (n in names || now < old(cooldowns)[n])
        invariant forall n :: n in cooldowns ==> cooldowns[n] == old(cooldowns)[n]
        invariant names <= old(cooldowns).Keys
        invariant services[..] == old(services[..])
        decreases names
      {
        var n :| n in names;
        if !(now < cooldowns[n]) {
          cooldowns := cooldowns - {n};
        }
        names := names - {n};
      }
      assert cooldowns == Tables.Sweep(old(cooldowns), now);
      for i := 0 to services.Length
        invariant cooldowns == Tables.Sweep(old(cooldowns), now)
        invariant forall j :: 0 <= j < i ==> services[j] == Tables.CoolOne(cooldowns, old(services[..])[j])
        invariant forall j :: i <= j < services.Length ==> services[j] == old(services[..])[j]
      {
        if services[i].name in cooldowns {
          services[i] := services[i].(cooldownUntil := Some(cooldowns[services[i].name]));
        }
      }
    }

    /** recordEffect. */
    method RecordEffect(r: ActionResult, now: Instant)
      modifies this`cooldowns
      ensures State() == Tables.Record(old(State()), cfg.policy, r, now)
      ensures forall n :: n != r.service ==>
        (n in cooldowns <==> n in old(cooldowns)) && (n in cooldowns ==> cooldowns[n] == old(cooldowns)[n])
      ensures match Tables.Judge(cfg.policy, r)
        case Effective => r.service !in cooldowns
        case Useless => r.service in cooldowns && cooldowns[r.service] == now + cfg.policy.actionCooldown
        case _ => cooldowns == old(cooldowns)
    {
      var measured := r.freeBeforeMiB.Some? && r.freeAfterMiB.Some?;
      var gain: i64 := 0;
      if measured {
        gain := Tables.Gain(r.freeBeforeMiB.value, r.freeAfterMiB.value);
      }
      if !r.failed && measured && gain >= WrapI64(cfg.policy.minEffectMiB) {
        cooldowns := cooldowns - {r.service};
        return;
      }
      if !r.failed && !measured {
        return;
      }
      cooldowns := cooldowns[r.service := now + cfg.policy.actionCooldown];
    }

    /** snapshotClaims: the map is walked in any order, the answer is one. */
    method SnapshotClaims() returns (out: seq<Claim>)
      requires Valid()
      ensures out == Tables.SnapshotOf(claims)
    {
      out := [];
      var names := claims.Keys;
      while names != {}
        invariant names <= claims.Keys
        invariant forall c :: c in out <==> c.service in claims && c.service !in names && claims[c.service] == c
        invariant Sorting.NoRepeats(out)
        decreases names
      {
        var n :| n in names;
        out := out + [claims[n]];
        names := names - {n};
      }
      Tables.SortedListingIsSnapshot(claims, out);
      out := Sorting.Sort(Tables.ClaimLess, out);
    }

    /** The claim section of handleRequest; None is the error reply for a
        service the config does not name. */
    method RecordClaim(service: string, needMiB: u64, requestDryRun: bool, at: Instant)
      returns (claim: Option<Claim>)
      requires Valid()
      modifies this`claims
      ensures Valid()
      ensures claim.Some? <==> service != "" && Configured(cfg, service)
      ensures claim.Some? ==> claim.value == Tables.ClaimFor(old(claims), service, needMiB, at)
      ensures State() == if claim.Some? && !requestDryRun && !dryRun
                         then old(State()).(claims := old(claims)[service := claim.value])
                         else old(State())
    {
      if service == "" || LookUp(cfg, service).None? {
        return None;
      }
      var c := Claim(service, needMiB, at);
      if service in claims {
        c := c.(at := claims[service].at);
      }
      if !(requestDryRun || dryRun) {
        claims := claims[service := c];
      }
      return Some(c);
    }

    /** handleReleaseClaim; ok is false for the error replies, had says whether
        there was a claim to drop. */
    method DropClaim(service: string, requestDryRun: bool) returns (ok: bool, had: bool)
      requires Valid()
      modifies this`claims
      ensures Valid()
      ensures ok <==> service != "" && Configured(cfg, service)
      ensures had <==> ok && service in old(claims)
      ensures State() == if ok && !requestDryRun && !dryRun
                         then old(State()).(claims := old(claims) - {service})
                         else old(State())
    {
      if service == "" || LookUp(cfg, service).None? {
        return false, false;
      }
      if dryRun {
        return true, false;
      }
      had := service in claims;
      if requestDryRun {
        return true, had;
      }
      claims := claims - {service};
      return true, had;
    }
  }
}
