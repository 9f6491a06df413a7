/** Nothing is silent: every service considered is either acted on or noted,
    and the figures a plan reports are the true sums. */
module Accounting {
  import opened Machine
  import opened Domain
  import opened Scheduler
  import opened Greedy
  import Ordering
  import Sorting

  // ----------------------------------------------------- one answer per service

  function ActedOn(actions: seq<Action>): (r: seq<string>)
    ensures |r| == |actions|
    ensures forall i :: 0 <= i < |r| ==> r[i] == actions[i].service
  {
    if actions == [] then [] else [actions[0].service] + ActedOn(actions[1..])
  }

  /** The services the notes are about. */
  function NotedIn(notes: seq<Note>): seq<string> {
    if notes == [] then []
    else if notes[0].About? then [notes[0].service] + NotedIn(notes[1..])
    else NotedIn(notes[1..])
  }

  function NamesOf(s: seq<ServiceState>): seq<string> {
    if s == [] then [] else [s[0].name] + NamesOf(s[1..])
  }

  lemma {:induction false} NotedInAppend(a: seq<Note>, b: seq<Note>)
    ensures NotedIn(a + b) == NotedIn(a) + NotedIn(b)
  {
    if a == [] {
      assert a + b == b;
    } else {
      NotedInAppend(a[1..], b);
      assert (a + b)[1..] == a[1..] + b;
    }
  }

  lemma {:induction false} InsertNames(x: ServiceState, s: seq<ServiceState>)
    ensures multiset(NamesOf(Sorting.Insert(CandidateLess, x, s))) == multiset{x.name} + multiset(NamesOf(s))
  {
    if s == [] || !CandidateLess(s[0], x) {
      assert ([x] + s)[1..] == s;
    } else {
      InsertNames(x, s[1..]);
      var tail := Sorting.Insert(CandidateLess, x, s[1..]);
      assert ([s[0]] + tail)[1..] == tail;
    }
  }

  lemma {:induction false} SortNames(s: seq<ServiceState>)
    ensures multiset(NamesOf(Sorting.Sort(CandidateLess, s))) == multiset(NamesOf(s))
  {
    if s != [] {
      SortNames(s[1..]);
      InsertNames(s[0], Sorting.Sort(CandidateLess, s[1..]));
    }
  }

  lemma {:induction false} WalkAccounts(c: seq<ServiceState>, needed: u64, freed: u64)
    ensures var w := Walk(c, needed, freed);
      multiset(ActedOn(w.actions)) + multiset(NotedIn(w.notes)) == multiset(NamesOf(c))
    decreases |c|
  {
    if c != [] {
      assert NamesOf(c) == [c[0].name] + NamesOf(c[1..]);
      hide ActedOn, NotedIn, NamesOf, ChooseVerb, WrapU64;
      if freed >= needed {
        WalkAccounts(c[1..], needed, freed);
        NotedCons(About(c[0].name, TargetMet), Walk(c[1..], needed, freed).notes);
      } else {
        match ChooseVerb(c[0]) {
          case Err(why) =>
            WalkAccounts(c[1..], needed, freed);
            NotedCons(About(c[0].name, why), Walk(c[1..], needed, freed).notes);
          case Ok(verb) =>
            var next := WrapU64(freed + c[0].heldMiB);
            WalkAccounts(c[1..], needed, next);
            ActedCons(Action(c[0].name, verb, c[0].heldMiB), Walk(c[1..], needed, next).actions);
        }
      }
    }
  }

  lemma {:induction false} ActedCons(a: Action, rest: seq<Action>)
    ensures ActedOn([a] + rest) == [a.service] + ActedOn(rest)
  {
    assert ([a] + rest)[1..] == rest;
  }

  lemma {:induction false} NotedCons(n: Note, rest: seq<Note>)
    ensures NotedIn([n] + rest) == (if n.About? then [n.service] else []) + NotedIn(rest)
  {
    assert ([n] + rest)[1..] == rest;
  }

  lemma {:induction false} FilterAccounts(s: seq<ServiceState>, b: ServiceState)
    ensures multiset(NamesOf(EvictableIn(s, b))) + multiset(NotedIn(PassedOver(s, b)))
         == multiset(Others(s, b.name))
  {
    if s != [] {
      FilterAccounts(s[1..], b);
      var e, p, rest := EvictableIn(s[1..], b), PassedOver(s[1..], b), Others(s[1..], b.name);
      if s[0].name == b.name {
        assert EvictableIn(s, b) == e && PassedOver(s, b) == p && Others(s, b.name) == rest;
        hide EvictableIn, PassedOver, Others, NamesOf, NotedIn;
      } else if PassOver(s[0], b).Some? {
        var note := About(s[0].name, PassOver(s[0], b).value);
        assert EvictableIn(s, b) == e && PassedOver(s, b) == [note] + p && Others(s, b.name) == [s[0].name] + rest;
        hide EvictableIn, PassedOver, Others, NamesOf, NotedIn, PassOver;
        NotedCons(note, p);
      } else {
        assert EvictableIn(s, b) == [s[0]] + e && PassedOver(s, b) == p && Others(s, b.name) == [s[0].name] + rest;
        hide EvictableIn, PassedOver, Others, NamesOf, NotedIn, PassOver;
        NamesCons(s[0], e);
      }
    }
  }

  lemma {:induction false} NamesCons(x: ServiceState, rest: seq<ServiceState>)
    ensures NamesOf([x] + rest) == [x.name] + NamesOf(rest)
  {
    assert ([x] + rest)[1..] == rest;
  }

  lemma {:induction false} NoOneNoted(notes: seq<Note>)
    requires forall n :: n in notes ==> !n.About?
    ensures NotedIn(notes) == []
  {
    if notes != [] {
      NoOneNoted(notes[1..]);
    }
  }

  /** Once Decide has a beneficiary and a shortfall, its actions and its
      per-service notes together name every other service as often as it is
      configured: none is skipped in silence, none is named twice. */
  lemma {:induction false} DecideAccounts(cfg: Config, obs: Observation)
    requires Contested(cfg, obs)
    ensures var plan := DecidePlan(cfg, obs);
      multiset(ActedOn(plan.actions)) + multiset(NotedIn(plan.notes))
        == multiset(Others(obs.services, plan.beneficiary))
  {
    hide Walk, PassedOver, Candidates, DemandOf, ActedOn, NotedIn, Others, NamesOf, EvictableIn;
    var b := Beneficiary(cfg, obs);
    var start := Opening(cfg, obs, obs.device.value);
    var c, need := Candidates(obs.services, b), Needed(cfg, obs);
    var walk := Walk(c, need, 0);
    ContestedPlan(cfg, obs);
    WalkAccounts(c, need, 0);
    FilterAccounts(obs.services, b);
    CandidateNames(obs.services, b);
    NotesOfDemand(cfg, obs, obs.device.value.FreeMiB());
    NoOneNoted(start.notes);
    var shortfall := if walk.freed < need then [BestEffort] else [];
    NoOneNoted(shortfall);
    NotedInAppend(start.notes + PassedOver(obs.services, b) + walk.notes, shortfall);
    NotedInAppend(start.notes + PassedOver(obs.services, b), walk.notes);
    NotedInAppend(start.notes, PassedOver(obs.services, b));
  }

  lemma {:induction false} CandidateNames(services: seq<ServiceState>, b: ServiceState)
    ensures multiset(NamesOf(Candidates(services, b))) == multiset(NamesOf(EvictableIn(services, b)))
  {
    SortNames(EvictableIn(services, b));
  }

  /** The other services' names, as often as they are observed. */
  lemma {:induction false} OthersCount(services: seq<ServiceState>, keep: string)
    ensures forall n ::
      multiset(Others(services, keep))[n] == if n == keep then 0 else multiset(NamesOf(services))[n]
  {
    if services != [] {
      OthersCount(services[1..], keep);
    }
  }

  lemma {:induction false} OthersOnce(services: seq<ServiceState>, keep: string)
    requires DistinctNames(services)
    ensures forall n :: n in Others(services, keep) <==> n != keep && exists s :: s in services && s.name == n
    ensures Sorting.NoRepeats(Others(services, keep))
  {
    if services != [] {
      OthersOnce(services[1..], keep);
      var o, rest := Others(services, keep), Others(services[1..], keep);
      assert forall s :: s in services <==> s == services[0] || s in services[1..];
      if services[0].name != keep {
        forall j | 0 < j < |o| ensures o[j] != o[0] {
          assert o[j] == rest[j - 1];
          assert rest[j - 1] in rest;
        }
      }
    }
  }

  /** With distinct names every other service is acted on or noted, never both;
      and no plan acts on a service twice. */
  lemma {:induction false} ExactlyOneAnswer(cfg: Config, obs: Observation)
    requires Contested(cfg, obs) && DistinctNames(obs.services)
    ensures var plan := DecidePlan(cfg, obs);
      && (forall s :: s in obs.services && s.name != plan.beneficiary ==>
            (s.name in ActedOn(plan.actions) <==> s.name !in NotedIn(plan.notes)))
      && plan.beneficiary !in ActedOn(plan.actions)
      && Sorting.NoRepeats(ActedOn(plan.actions))
  {
    hide DecidePlan, ActedOn, NotedIn, Others, Contested;
    var plan := DecidePlan(cfg, obs);
    var others := Others(obs.services, plan.beneficiary);
    var acted, noted := ActedOn(plan.actions), NotedIn(plan.notes);
    DecideAccounts(cfg, obs);
    OthersOnce(obs.services, plan.beneficiary);
    Sorting.NoRepeatsCounts(others);
    Sorting.NoRepeatsCounts(acted);
    forall n ensures multiset(acted)[n] + multiset(noted)[n] == multiset(others)[n]
      && (n in acted <==> multiset(acted)[n] > 0) && (n in noted <==> multiset(noted)[n] > 0)
      && (n in others <==> multiset(others)[n] > 0)
    {
    }
  }

  /** Even without a shortfall, a plan never acts on a service twice. */
  lemma {:induction false} ActsOncePerService(cfg: Config, obs: Observation)
    requires DistinctNames(obs.services)
    ensures Sorting.NoRepeats(ActedOn(DecidePlan(cfg, obs).actions))
  {
    ActionsAreActionable(cfg, obs);
    if Contested(cfg, obs) {
      ExactlyOneAnswer(cfg, obs);
    } else {
      UncontestedIsEmpty(cfg, obs);
    }
  }

  lemma {:induction false} UncontestedIsEmpty(cfg: Config, obs: Observation)
    requires !Contested(cfg, obs)
    ensures DecidePlan(cfg, obs).actions == []
  {
    hide Walk, PassedOver, Candidates, DemandOf;
  }

  /** An empty plan always says why: no observation and no configuration make
      Decide answer with neither an action nor a note. */
  lemma {:induction false} DecideNeverSilent(cfg: Config, obs: Observation)
    ensures DecidePlan(cfg, obs).actions == [] ==> DecidePlan(cfg, obs).notes != []
  {
    hide Walk, PassedOver, Candidates, DemandOf;
    if Contested(cfg, obs) {
      var b := Beneficiary(cfg, obs);
      ContestedPlan(cfg, obs);
      BestEffortNote(cfg, obs);
      NothingTakenNothingFreed(Candidates(obs.services, b), Needed(cfg, obs), 0);
    } else if obs.device.Some? {
      NoDemandHasNote(cfg, obs, obs.device.value.FreeMiB());
    }
  }

  lemma {:induction false} NoDemandHasNote(cfg: Config, obs: Observation, free: u64)
    ensures DemandOf(cfg, obs, free).trigger == NoTrigger ==> DemandOf(cfg, obs, free).notes != []
  {
    hide BestClaim, TopFrom;
  }

  lemma {:induction false} NothingTakenNothingFreed(c: seq<ServiceState>, needed: u64, freed: u64)
    ensures Walk(c, needed, freed).actions == [] ==> Walk(c, needed, freed).freed == freed
    decreases |c|
  {
    if c != [] {
      NothingTakenNothingFreed(c[1..], needed, freed);
    }
  }

  /** On a readable GPU, Evict answers each name exactly once. */
  lemma {:induction false} EvictAccounts(services: seq<ServiceState>, names: seq<string>)
    ensures multiset(ActedOn(EvictActions(services, names))) + multiset(NotedIn(EvictNotes(services, names)))
         == multiset(names)
    ensures |EvictActions(services, names)| + |EvictNotes(services, names)| == |names|
  {
    hide EvictOne, ActedOn, NotedIn, EvictActions, EvictNotes;
    if names == [] {
      NoNamesNoAnswers(services, names);
    } else {
      EvictAccounts(services, names[1..]);
      assert names == [names[0]] + names[1..];
      AnswerNamesIt(services, names[0]);
      AnswerAdds(services, names);
    }
  }

  lemma {:induction false} NoNamesNoAnswers(services: seq<ServiceState>, names: seq<string>)
    requires names == []
    ensures EvictActions(services, names) == [] && EvictNotes(services, names) == []
    ensures ActedOn(EvictActions(services, names)) == [] && NotedIn(EvictNotes(services, names)) == []
  {
  }

  lemma {:induction false} AnswerNamesIt(services: seq<ServiceState>, name: string)
    ensures match EvictOne(services, name)
      case Ok(action) => action.service == name
      case Err(note) => note.About? && note.service == name
  {
  }

  lemma {:induction false} AnswerAdds(services: seq<ServiceState>, names: seq<string>)
    requires names != []
    ensures match EvictOne(services, names[0])
      case Ok(action) =>
        && ActedOn(EvictActions(services, names)) == [action.service] + ActedOn(EvictActions(services, names[1..]))
        && |EvictActions(services, names)| == |EvictActions(services, names[1..])| + 1
        && EvictNotes(services, names) == EvictNotes(services, names[1..])
      case Err(note) =>
        && EvictActions(services, names) == EvictActions(services, names[1..])
        && |EvictNotes(services, names)| == |EvictNotes(services, names[1..])| + 1
        && (note.About? ==>
              NotedIn(EvictNotes(services, names)) == [note.service] + NotedIn(EvictNotes(services, names[1..])))
  {
    hide EvictOne;
    var a, n := EvictActions(services, names[1..]), EvictNotes(services, names[1..]);
    match EvictOne(services, names[0]) {
      case Ok(action) => assert ([action] + a)[1..] == a;
      case Err(note) => assert ([note] + n)[1..] == n;
    }
  }

  lemma {:induction false} NoOthers(services: seq<ServiceState>, keep: string)
    ensures Others(services, keep) == [] <==> forall s :: s in services ==> s.name == keep
  {
    if services != [] {
      NoOthers(services[1..], keep);
    }
  }

  /** `evict --all-except` can be silent, unlike Decide: exactly on a readable
      GPU with the kept service configured and no other one. */
  lemma {:induction false} EvictAllExceptSilentIff(obs: Observation, keep: string)
    ensures var plan := EvictAllExceptPlan(obs, keep);
      (plan.actions == [] && plan.notes == []) <==>
        obs.device.Some? && obs.services != [] && forall s :: s in obs.services ==> s.name == keep
  {
    var names := Sorting.Sort(Ordering.Before, Others(obs.services, keep));
    NoOthers(obs.services, keep);
    EvictAccounts(obs.services, names);
    if FindService(obs.services, keep).None? {
      assert obs.services != [] ==> obs.services[0] in obs.services;
    }
  }

  // ------------------------------------------------------------- true figures

  /** bytesToMiB: below one MiB rounds up to one, zero stays zero. */
  function BytesToMiB(bytes: u64): (mib: u64)
    ensures mib < 0x1000_0000_0000
    ensures mib == 0 <==> bytes == 0
    ensures bytes >= 0x10_0000 ==> mib * 0x10_0000 <= bytes < (mib + 1) * 0x10_0000
  {
    if bytes == 0 then 0
    else
      var mib := bytes / 0x10_0000;
      if mib > 0 then mib else 1
  }

  /** What Probe reports held: the uint64 sum over the models listed. */
  function ProbeHeld(held: u64, sizes: seq<u64>): u64
    decreases |sizes|
  {
    if sizes == [] then held else ProbeHeld(WrapU64(held + BytesToMiB(sizes[0])), sizes[1..])
  }

  /** The held sum of ollamaAdapter.Probe. */
  method SumHeld(sizes: seq<u64>) returns (held: u64)
    ensures held == ProbeHeld(0, sizes)
  {
    held := 0;
    for i := 0 to |sizes|
      invariant ProbeHeld(held, sizes[i..]) == ProbeHeld(0, sizes)
    {
      assert sizes[i..][1..] == sizes[i + 1..];
      held := WrapU64(held + BytesToMiB(sizes[i]));
    }
  }

  function MiBSum(sizes: seq<u64>): nat {
    if sizes == [] then 0 else BytesToMiB(sizes[0]) + MiBSum(sizes[1..])
  }

  lemma {:induction false} MiBSumBounded(sizes: seq<u64>)
    ensures MiBSum(sizes) <= |sizes| * 0x1000_0000_0000
  {
    if sizes != [] {
      MiBSumBounded(sizes[1..]);
    }
  }

  lemma {:induction false} ProbeHeldExact(held: u64, sizes: seq<u64>)
    requires held + MiBSum(sizes) < TWO_64
    ensures ProbeHeld(held, sizes) == held + MiBSum(sizes)
    decreases |sizes|
  {
    hide BytesToMiB;
    if sizes != [] {
      ProbeHeldExact(held + BytesToMiB(sizes[0]), sizes[1..]);
    }
  }

  function ItemCount(items: seq<seq<u64>>): nat {
    if items == [] then 0 else |items[0]| + ItemCount(items[1..])
  }

  /** Each service's figure is what a probe of its items adds up to. */
  ghost predicate ProbedFrom(services: seq<ServiceState>, items: seq<seq<u64>>) {
    |services| == |items| && forall i :: 0 <= i < |items| ==> services[i].heldMiB == ProbeHeld(0, items[i])
  }

  lemma {:induction false} HeldSumBounded(services: seq<ServiceState>, items: seq<seq<u64>>)
    requires ProbedFrom(services, items) && ItemCount(items) < 0x10_0000
    ensures HeldSum(services) <= ItemCount(items) * 0x1000_0000_0000
  {
    if items != [] {
      assert ProbedFrom(services[1..], items[1..]);
      HeldSumBounded(services[1..], items[1..]);
      MiBSumBounded(items[0]);
      ProbeHeldExact(0, items[0]);
      assert services[0].heldMiB == ProbeHeld(0, items[0]);
    }
  }

  function ExpectSum(actions: seq<Action>): nat {
    if actions == [] then 0 else actions[0].expectFreeMiB + ExpectSum(actions[1..])
  }

  lemma {:induction false} ExpectedSumExact(total: u64, actions: seq<Action>)
    requires total + ExpectSum(actions) < TWO_64
    ensures ExpectedSum(total, actions) == total + ExpectSum(actions)
    decreases |actions|
  {
    if actions != [] {
      ExpectedSumExact(total + actions[0].expectFreeMiB, actions[1..]);
    }
  }

  lemma {:induction false} ExpectOfQueue(s: seq<ServiceState>)
    requires forall x :: x in s ==> ChooseVerb(x).Ok?
    ensures ExpectSum(ActionsOn(s)) == HeldSum(s)
  {
    if s != [] {
      ExpectOfQueue(s[1..]);
    }
  }

  lemma {:induction false} WithVerbHoldsLess(s: seq<ServiceState>)
    ensures HeldSum(WithVerb(s)) <= HeldSum(s)
  {
    if s != [] {
      WithVerbHoldsLess(s[1..]);
      var rest := WithVerb(s[1..]);
      assert ([s[0]] + rest)[1..] == rest;
    }
  }

  /** With figures that come from probes of fewer than 2^20 - 1 items in all, on
      a card below 2^44 MiB, no sum wraps: what Decide expects to free is the
      true sum over its actions, and the expected free figure is that sum plus
      what is free now, capped at the card, and never below what is free now. */
  lemma {:induction false} FiguresAreExact(cfg: Config, obs: Observation, items: seq<seq<u64>>)
    requires Contested(cfg, obs)
    requires ProbedFrom(obs.services, items) && ItemCount(items) < 0x10_0000 - 1
    requires obs.device.value.totalMiB < 0x1000_0000_0000
    ensures NoOverflow(obs.services)
    ensures var plan := DecidePlan(cfg, obs);
      var total, sum := obs.device.value.totalMiB, plan.currentFreeMiB + ExpectSum(plan.actions);
      && sum < TWO_64
      && Walk(Candidates(obs.services, Beneficiary(cfg, obs)), Needed(cfg, obs), 0).freed == ExpectSum(plan.actions)
      && ExpectedFree(plan) == (if 0 < total < sum then total else sum)
      && (total > 0 ==> plan.currentFreeMiB <= ExpectedFree(plan) <= total)
  {
    hide DemandOf, PassedOver, Walk, HeldSum, ExpectSum, ExpectedSum, ItemCount, WithVerb, Candidates;
    var b, need := Beneficiary(cfg, obs), Needed(cfg, obs);
    var c := Candidates(obs.services, b);
    HeldSumBounded(obs.services, items);
    ContestedPlan(cfg, obs);
    CandidateMembers(obs.services, b);
    WalkTakesCut(c, need, 0);
    var q := WithVerb(c);
    var k := Cut(q, need);
    ExpectOfQueue(q[..k]);
    PrefixHoldsLess(q, k);
    WithVerbHoldsLess(c);
    var plan := DecidePlan(cfg, obs);
    ExpectedSumExact(plan.currentFreeMiB, plan.actions);
  }

  /** Figures no probe could report do wrap: two holders of 2^63 MiB each, and a
      walk that took both says it expects to free nothing. */
  lemma {:induction false} HugeFiguresWrap(a: ServiceState, b: ServiceState)
    requires a.heldMiB == TWO_63 && b.heldMiB == TWO_63 && ChooseVerb(a).Ok? && ChooseVerb(b).Ok?
    ensures HeldSum([a, b]) == TWO_64
    ensures Walk([a, b], TWO_63 + 1, 0) == Walked(ActionsOn([a, b]), [], 0)
  {
    assert [a, b][1..] == [b] && [b][1..] == [];
    assert HeldSum([b]) == TWO_63;
    assert Walk([b], TWO_63 + 1, TWO_63) == Walked([ActionOn(b)], [], 0);
    assert ActionsOn([b]) == [ActionOn(b)];
  }
}
