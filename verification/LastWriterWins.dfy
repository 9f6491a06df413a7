/** What a loaded configuration is, key by key, in terms of the files alone. */
module LastWriterWins {
  import opened Machine
  import opened Domain
  import opened ConfigKeys
  import opened ConfigLayers
  import opened ConfigLoad

  ghost predicate AllAccepted(rules: Rules, layers: seq<Layer>) {
    forall layer :: layer in layers ==> Accepted(rules, layer)
  }

  ghost predicate AllTablesOk(tables: seq<map<Key, Raw>>, policy: bool) {
    forall t :: t in tables ==> AllDecode(t) && AllInBounds(t, policy)
  }

  lemma {:induction false} PolicyTablesOk(rules: Rules, layers: seq<Layer>)
    requires AllAccepted(rules, layers)
    ensures AllTablesOk(PolicyTables(layers), true)
  {
    if layers != [] {
      assert Accepted(rules, layers[0]);
      PolicyTablesOk(rules, layers[1..]);
    }
  }

  lemma {:induction false} BlocksOk(rules: Rules, layers: seq<Layer>)
    requires AllAccepted(rules, layers)
    ensures forall b :: b in AllBlocks(layers) ==> BlockOk(rules, b)
  {
    if layers != [] {
      assert Accepted(rules, layers[0]);
      BlocksOk(rules, layers[1..]);
    }
  }

  lemma {:induction false} ServiceTablesOk(rules: Rules, blocks: seq<Block>, name: string)
    requires forall b :: b in blocks ==> BlockOk(rules, b)
    ensures AllTablesOk(TablesOf(blocks, name), false)
  {
    if blocks != [] {
      assert BlockOk(rules, blocks[0]);
      ServiceTablesOk(rules, blocks[1..], name);
    }
  }

  /** A bounded key that some accepted table set ends within its range. */
  lemma {:induction false} LastSetInRange(tables: seq<map<Key, Raw>>, policy: bool, b: Bound)
    requires AllTablesOk(tables, policy) && b in NUMERIC_BOUNDS && PolicyKey(b.key) == policy
    ensures LastSet(tables, b.key).Some? ==>
      LastSet(tables, b.key).value.Num? && InRange(b, LastSet(tables, b.key).value.n)
    decreases |tables|
  {
    if tables != [] {
      var last := tables[|tables| - 1];
      assert last in tables;
      if b.key in last {
        FieldInRange(last, policy, b);
      } else {
        LastSetInRange(tables[..|tables| - 1], policy, b);
      }
    }
  }

  // ------------------------------------------------------------------ policy

  /** Every policy key of a loaded config has the value the last file that sets
      it gives it, and its default if none does: Validate replaces none of them. */
  lemma {:induction false} PolicyIsLastWritten(rules: Rules, layers: seq<Layer>, k: Key)
    requires AllAccepted(rules, layers) && PolicyKey(k)
    ensures PolicyValue(Loaded(layers).policy, k) == Or(LastSet(PolicyTables(layers), k), PolicyValue(DEFAULTS, k))
  {
    var merged := MergedPolicy(layers);
    PolicyTablesOk(rules, layers);
    PolicyLastWriter(DEFAULTS, layers, k);
    PolicyLastWriter(DEFAULTS, layers, PollInterval);
    PolicyLastWriter(DEFAULTS, layers, ActionCooldown);
    assert NUMERIC_BOUNDS[3] in NUMERIC_BOUNDS && NUMERIC_BOUNDS[4] in NUMERIC_BOUNDS;
    LastSetInRange(PolicyTables(layers), true, NUMERIC_BOUNDS[3]);
    LastSetInRange(PolicyTables(layers), true, NUMERIC_BOUNDS[4]);
    hide LastSet, MergePolicies, PolicyTables;
    assert PolicyValue(merged, PollInterval).n > 0 && PolicyValue(merged, ActionCooldown).n > 0;
    assert CompletePolicy(merged) == merged;
  }

  // ---------------------------------------------------------------- services

  /** What a key is when no file sets it. */
  function DefaultOf(k: Key): Value {
    if k == Timeout then Num(DEFAULT_TIMEOUT)
    else if k == DrainTimeout then Num(DEFAULT_DRAIN_TIMEOUT)
    else Zero(k)
  }

  /** An endpoint loses its trailing slashes; nothing else is touched. */
  function Tidied(k: Key, v: Value): Value {
    if k == Endpoint && v.Txt? then Txt(TrimSlashes(v.text)) else v
  }

  lemma {:induction false} CompletedKey(s: Service, k: Key)
    requires !PolicyKey(k)
    ensures ServiceValue(Complete(s), k) ==
      if k == Timeout && s.timeout <= 0 then Num(DEFAULT_TIMEOUT)
      else if k == DrainTimeout && s.drainTimeout <= 0 then Num(DEFAULT_DRAIN_TIMEOUT)
      else Tidied(k, ServiceValue(s, k))
  {
    hide TrimSlashes;
  }

  /** A timeout a file sets is positive, so no default is put in its place. */
  lemma {:induction false} TimeoutsArePositive(tables: seq<map<Key, Raw>>, k: Key)
    requires AllTablesOk(tables, false) && (k == Timeout || k == DrainTimeout)
    ensures LastSet(tables, k).Some? ==> LastSet(tables, k).value.Num? && LastSet(tables, k).value.n > 0
  {
    var b := if k == Timeout then NUMERIC_BOUNDS[6] else NUMERIC_BOUNDS[7];
    assert b in NUMERIC_BOUNDS && b.key == k && b.min == 1 && !b.signed;
    hide LastSet;
    LastSetInRange(tables, false, b);
  }

  /** Every key of every loaded service has the value the last block of its name
      that sets it gives it, in whatever file, and its default if none does. */
  lemma {:induction false} ServiceIsLastWritten(rules: Rules, layers: seq<Layer>, i: nat, k: Key)
    requires AllAccepted(rules, layers) && !PolicyKey(k) && i < |Loaded(layers).services|
    ensures var s := Loaded(layers).services[i];
      ServiceValue(s, k) == Tidied(k, Or(LastSet(TablesOf(AllBlocks(layers), s.name), k), DefaultOf(k)))
  {
    var blocks, merged := AllBlocks(layers), MergedServices(layers)[i];
    var tables := TablesOf(blocks, merged.name);
    assert merged in MergedServices(layers) && Loaded(layers).services[i] == Complete(merged);
    assert Complete(merged).name == merged.name;
    ServiceLastWriter(blocks);
    assert ServiceValue(merged, k) == Or(LastSet(tables, k), Zero(k));
    hide Loaded, MergedServices, LastSet, TablesOf, AllBlocks, Complete, Tidied;
    BlocksOk(rules, layers);
    ServiceTablesOk(rules, blocks, merged.name);
    if k == Timeout || k == DrainTimeout {
      TimeoutsArePositive(tables, k);
      assert Tidied(k, Num(0)) == Num(0) by { TidiedFigure(k, 0); }
      assert Tidied(k, DefaultOf(k)) == DefaultOf(k) by { TidiedFigure(k, DefaultOf(k).n); }
    }
    CompletedKey(merged, k);
  }

  lemma {:induction false} TidiedFigure(k: Key, n: int)
    ensures Tidied(k, Num(n)) == Num(n)
  {
  }

  /** The loaded services: each once, in the order the files first mention them. */
  lemma {:induction false} LoadedInFirstMentionOrder(layers: seq<Layer>)
    ensures NamesOf(Loaded(layers).services) == FirstMentions(AllBlocks(layers), [])
    ensures DistinctServices(Loaded(layers).services)
  {
    ServicesInFirstMentionOrder([], AllBlocks(layers));
    assert NamesOf([]) == [];
    NamesComplete(MergedServices(layers));
  }

  // ------------------------------------------------------------------- bounds

  ghost predicate PolicyInBounds(p: Policy) {
    forall b :: b in NUMERIC_BOUNDS && PolicyKey(b.key) ==>
      PolicyValue(p, b.key).Num? && InRange(b, PolicyValue(p, b.key).n)
  }

  ghost predicate ServiceInBounds(s: Service) {
    forall b :: b in NUMERIC_BOUNDS && !PolicyKey(b.key) ==>
      ServiceValue(s, b.key).Num? && InRange(b, ServiceValue(s, b.key).n)
  }

  /** Every bounded figure of a loaded config is inside its bounds. */
  lemma {:induction false} LoadedInBounds(rules: Rules, layers: seq<Layer>)
    requires AllAccepted(rules, layers)
    ensures PolicyInBounds(Loaded(layers).policy)
    ensures forall s :: s in Loaded(layers).services ==> ServiceInBounds(s)
  {
    var cfg := Loaded(layers);
    hide Loaded, LastSet;
    PolicyTablesOk(rules, layers);
    forall b | b in NUMERIC_BOUNDS && PolicyKey(b.key)
      ensures PolicyValue(cfg.policy, b.key).Num? && InRange(b, PolicyValue(cfg.policy, b.key).n)
    {
      PolicyIsLastWritten(rules, layers, b.key);
      LastSetInRange(PolicyTables(layers), true, b);
    }
    BlocksOk(rules, layers);
    forall s, b | s in cfg.services && b in NUMERIC_BOUNDS && !PolicyKey(b.key)
      ensures ServiceValue(s, b.key).Num? && InRange(b, ServiceValue(s, b.key).n)
    {
      var i :| 0 <= i < |cfg.services| && cfg.services[i] == s;
      ServiceIsLastWritten(rules, layers, i, b.key);
      ServiceTablesOk(rules, AllBlocks(layers), s.name);
      LastSetInRange(TablesOf(AllBlocks(layers), s.name), false, b);
    }
  }

  // --------------------------------------------------------------- every load

  lemma {:induction false} LayersAreAccepted(rules: Rules, sources: seq<Source>)
    requires forall s :: s in sources && s.Contents? ==> Accepted(rules, s.layer)
    ensures AllAccepted(rules, LayersOf(sources))
  {
    if sources != [] {
      LayersAreAccepted(rules, sources[1..]);
    }
  }

  lemma {:induction false} PolicyDurations(p: Policy)
    requires PolicyInBounds(p)
    ensures p.actionCooldown > 0 && p.pollInterval >= SECOND && p.gpuIndex >= 0
  {
    assert NUMERIC_BOUNDS[2] in NUMERIC_BOUNDS && NUMERIC_BOUNDS[3] in NUMERIC_BOUNDS;
    assert NUMERIC_BOUNDS[4] in NUMERIC_BOUNDS;
  }

  lemma {:induction false} ServiceDurations(s: Service)
    requires ServiceInBounds(s)
    ensures 0 < s.timeout <= MAX_TIMEOUT && 0 < s.drainTimeout <= MAX_DRAIN_TIMEOUT
  {
    assert NUMERIC_BOUNDS[6] in NUMERIC_BOUNDS && NUMERIC_BOUNDS[7] in NUMERIC_BOUNDS;
  }

  /** For any list of files that loads: the config is inside every bound, its
      services have names of their own, and the deadlines and cooldowns built on
      it are positive. */
  lemma {:induction false} EveryLoadIsSound(rules: Rules, explicit: bool, sources: seq<Source>)
    requires Loadable(rules, explicit, sources)
    ensures var cfg := Loaded(LayersOf(sources));
      && PolicyInBounds(cfg.policy) && DistinctServices(cfg.services)
      && (forall s :: s in cfg.services ==> ServiceInBounds(s))
      && cfg.policy.actionCooldown > 0 && cfg.policy.pollInterval >= SECOND && cfg.policy.gpuIndex >= 0
      && (forall s :: s in cfg.services ==> 0 < s.timeout <= MAX_TIMEOUT && 0 < s.drainTimeout <= MAX_DRAIN_TIMEOUT)
  {
    var layers := LayersOf(sources);
    LayersAreAccepted(rules, sources);
    hide Loaded, LayersOf, PolicyInBounds, ServiceInBounds, DistinctServices;
    LoadedInBounds(rules, layers);
    LoadedInFirstMentionOrder(layers);
    PolicyDurations(Loaded(layers).policy);
    forall s | s in Loaded(layers).services
      ensures 0 < s.timeout <= MAX_TIMEOUT && 0 < s.drainTimeout <= MAX_DRAIN_TIMEOUT
    {
      ServiceDurations(s);
    }
  }
}
