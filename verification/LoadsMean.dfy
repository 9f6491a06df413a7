/** Which files load, spelled out key by key, and what a loaded configuration can
    only say because some file wrote it. */
module LoadsMean {
  import opened Machine
  import opened Domain
  import opened ConfigKeys
  import opened ConfigLayers
  import opened ConfigLoad
  import LastWriterWins

  // --------------------------------------------------------------- a single file

  predicate TableFine(keys: map<Key, Raw>, policy: bool) {
    forall k :: k in keys ==> PolicyKey(k) == policy && Acceptable(k, keys[k])
  }

  ghost predicate BlockFine(rules: Rules, b: Block) {
    && b.name != "" && !b.strayKey && TableFine(b.keys, false)
    && (Unit in b.keys ==> rules.unit(b.keys[Unit].text))
  }

  /** A file is taken when it decodes, sets only keys there are, each to something
      acceptable, and gives every block a name of its own. */
  ghost predicate FileFine(rules: Rules, layer: Layer) {
    && layer.Layer? && !layer.strayKey && TableFine(layer.policy, true)
    && (forall b :: b in layer.blocks ==> BlockFine(rules, b))
    && (forall i, j :: 0 <= i < j < |layer.blocks| ==> layer.blocks[i].name != layer.blocks[j].name)
  }

  lemma {:induction false} TableFineIff(keys: map<Key, Raw>, strayKey: bool, policy: bool)
    ensures TableOk(keys, strayKey, policy) <==> !strayKey && TableFine(keys, policy)
  {
    hide Acceptable, Decode, CheckBound, PolicyKey, AllInBounds, AllDecode;
    if forall k :: k in keys ==> PolicyKey(k) == policy {
      AcceptableTableIff(keys, policy);
    }
  }

  lemma {:induction false} BlockFineIff(rules: Rules, b: Block)
    ensures BlockFine(rules, b) <==> BlockOk(rules, b) && b.name != ""
  {
    TableFineIff(b.keys, b.strayKey, false);
    if TableFine(b.keys, false) && Unit in b.keys {
      assert Acceptable(Unit, b.keys[Unit]);
    }
  }

  lemma {:induction false} FileFineIff(rules: Rules, layer: Layer)
    ensures Accepted(rules, layer) <==> FileFine(rules, layer)
  {
    hide TableOk, BlockOk, BlockFine, TableFine;
    if layer.Layer? {
      TableFineIff(layer.policy, layer.strayKey, true);
      forall b ensures BlockFine(rules, b) <==> BlockOk(rules, b) && b.name != "" {
        BlockFineIff(rules, b);
      }
    }
  }

  // ------------------------------------------------------------ a whole loading

  /** A service the daemon can run: one with an API has an endpoint and no unit, a
      unit has a unit and no endpoint, and there is no other kind. */
  predicate ServiceFine(rules: Rules, s: Service) {
    && rules.name(s.name)
    && match s.adapter
       case Ollama => s.endpoint != "" && rules.endpoint(s.endpoint) && s.unit == ""
       case ComfyUI => s.endpoint != "" && rules.endpoint(s.endpoint) && s.unit == ""
       case LlamaSwap => s.endpoint != "" && rules.endpoint(s.endpoint) && s.unit == ""
       case SystemdUnit => s.unit != "" && rules.unit(s.unit) && s.endpoint == ""
       case UnknownAdapter(_) => false
  }

  ghost predicate FilesFine(rules: Rules, explicit: bool, sources: seq<Source>) {
    && (forall s :: s in sources ==> s != Unreadable && (explicit ==> s != Missing))
    && (forall s :: s in sources && s.Contents? ==> FileFine(rules, s.layer))
  }

  ghost predicate MergedFine(rules: Rules, policy: Policy, services: seq<Service>) {
    && (forall s :: s in services ==> ServiceFine(rules, s))
    && (policy.defaultWorkload != "" ==> exists s :: s in services && s.name == policy.defaultWorkload)
  }

  /** A list of files loads exactly when each that is there can be read and is
      fine, and what they merge to has only services the daemon can run and, if
      it names a default workload, has that one. */
  lemma {:induction false} LoadableIff(rules: Rules, explicit: bool, sources: seq<Source>)
    ensures Loadable(rules, explicit, sources) <==>
      && FilesFine(rules, explicit, sources)
      && MergedFine(rules, MergedPolicy(LayersOf(sources)), MergedServices(LayersOf(sources)))
  {
    var layers := LayersOf(sources);
    hide Accepted, FileFine, MergedServices, MergedPolicy, LayersOf, MergedFine, ConfigValid;
    FilesFineIff(rules, sources);
    if forall s :: s in sources && s.Contents? ==> Accepted(rules, s.layer) {
      DistinctMerged(layers);
      IndexIsFine(rules, sources);
      MergedFineIff(rules, MergedPolicy(layers), MergedServices(layers));
    }
  }

  lemma {:induction false} FilesFineIff(rules: Rules, sources: seq<Source>)
    ensures (forall s :: s in sources && s.Contents? ==> Accepted(rules, s.layer))
       <==> forall s :: s in sources && s.Contents? ==> FileFine(rules, s.layer)
  {
    hide Accepted, FileFine;
    forall s | s in sources && s.Contents? ensures Accepted(rules, s.layer) <==> FileFine(rules, s.layer) {
      FileFineIff(rules, s.layer);
    }
  }

  lemma {:induction false} MergedFineIff(rules: Rules, p: Policy, services: seq<Service>)
    requires DistinctServices(services) && p.gpuIndex >= 0
    ensures ConfigValid(rules, p, services) <==> MergedFine(rules, p, services)
  {
    NamedIff(services, p.defaultWorkload);
    hide DistinctServices, NamesOf, ServiceValid, ServiceFine;
    forall s | s in services ensures ServiceValid(rules, s) <==> ServiceFine(rules, s) {
      ServiceFineIff(rules, s);
    }
  }

  lemma {:induction false} ServiceFineIff(rules: Rules, s: Service)
    ensures ServiceValid(rules, s) <==> ServiceFine(rules, s)
  {
  }

  lemma {:induction false} NamedIff(services: seq<Service>, name: string)
    ensures name in NamesOf(services) <==> exists s :: s in services && s.name == name
  {
    if s :| s in services && s.name == name {
      var i :| 0 <= i < |services| && services[i] == s;
      assert NamesOf(services)[i] == name;
    }
  }

  lemma {:induction false} DistinctMerged(layers: seq<Layer>)
    ensures DistinctServices(MergedServices(layers))
  {
    ServicesInFirstMentionOrder([], AllBlocks(layers));
  }

  /** A fine file sets no index below zero, and the default is none. */
  lemma {:induction false} IndexIsFine(rules: Rules, sources: seq<Source>)
    requires forall s :: s in sources && s.Contents? ==> Accepted(rules, s.layer)
    ensures MergedPolicy(LayersOf(sources)).gpuIndex >= 0
  {
    var layers := LayersOf(sources);
    LastWriterWins.LayersAreAccepted(rules, sources);
    hide Accepted, LayersOf, LastSet;
    LastWriterWins.PolicyTablesOk(rules, layers);
    PolicyLastWriter(DEFAULTS, layers, GpuIndex);
    assert NUMERIC_BOUNDS[2] in NUMERIC_BOUNDS;
    LastWriterWins.LastSetInRange(PolicyTables(layers), true, NUMERIC_BOUNDS[2]);
  }

  /** So every loaded service is one the daemon can run; its endpoint is a fine one
      without its trailing slashes. */
  lemma {:induction false} LoadedServicesRun(rules: Rules, explicit: bool, sources: seq<Source>, s: Service)
    requires Loadable(rules, explicit, sources) && s in Loaded(LayersOf(sources)).services
    ensures exists written :: ServiceFine(rules, s.(endpoint := written)) && s.endpoint == TrimSlashes(written)
  {
    LoadableIff(rules, explicit, sources);
    var merged, loaded := MergedServices(LayersOf(sources)), Loaded(LayersOf(sources)).services;
    hide Loadable, MergedServices, LayersOf, FilesFine;
    var i :| 0 <= i < |loaded| && loaded[i] == s;
    assert s == Complete(merged[i]) && merged[i] in merged;
    assert ServiceFine(rules, s.(endpoint := merged[i].endpoint));
  }

  // -------------------------------------------------- what must have been written

  lemma {:induction false} LastSetIsWritten(tables: seq<map<Key, Raw>>, k: Key)
    ensures LastSet(tables, k).Some? ==> exists t :: t in tables && k in t && Field(t, k) == LastSet(tables, k).value
    decreases |tables|
  {
    hide Field;
    if tables != [] {
      var last := tables[|tables| - 1];
      assert last in tables;
      if k !in last {
        LastSetIsWritten(tables[..|tables| - 1], k);
      }
    }
  }

  lemma {:induction false} TableIsABlocks(blocks: seq<Block>, name: string, t: map<Key, Raw>)
    requires t in TablesOf(blocks, name)
    ensures exists b :: b in blocks && b.name == name && b.keys == t
  {
    if blocks[0].name == name && blocks[0].keys == t {
      assert blocks[0] in blocks;
    } else {
      TableIsABlocks(blocks[1..], name, t);
    }
  }

  lemma {:induction false} TruthIsWritten(keys: map<Key, Raw>, k: Key)
    requires k in keys && (k == AllowStop || k == ReactiveMode) && Field(keys, k) == Flag(true)
    ensures keys[k] == Truth(true)
  {
  }

  /** No service may be stopped unless some file says so of it. */
  lemma {:induction false} StopMustBeWritten(rules: Rules, layers: seq<Layer>, s: Service)
    requires LastWriterWins.AllAccepted(rules, layers) && s in Loaded(layers).services && s.allowStop
    ensures exists b :: b in AllBlocks(layers) && b.name == s.name
                        && AllowStop in b.keys && b.keys[AllowStop] == Truth(true)
  {
    var services, tables := Loaded(layers).services, TablesOf(AllBlocks(layers), s.name);
    hide Loaded, LastSet, Field, TablesOf, AllBlocks, LastWriterWins.AllAccepted;
    var i :| 0 <= i < |services| && services[i] == s;
    LastWriterWins.ServiceIsLastWritten(rules, layers, i, AllowStop);
    assert LastSet(tables, AllowStop) == Some(Flag(true));
    LastSetIsWritten(tables, AllowStop);
    var t :| t in tables && AllowStop in t && Field(t, AllowStop) == Flag(true);
    TruthIsWritten(t, AllowStop);
    TableIsABlocks(AllBlocks(layers), s.name, t);
  }

  /** Reactive mode is off unless some file turns it on. */
  lemma {:induction false} ReactiveMustBeWritten(rules: Rules, layers: seq<Layer>)
    requires LastWriterWins.AllAccepted(rules, layers) && Loaded(layers).policy.reactive
    ensures exists t :: t in PolicyTables(layers) && ReactiveMode in t && t[ReactiveMode] == Truth(true)
  {
    var tables := PolicyTables(layers);
    hide Loaded, LastSet, Field, PolicyTables, LastWriterWins.AllAccepted;
    LastWriterWins.PolicyIsLastWritten(rules, layers, ReactiveMode);
    assert LastSet(tables, ReactiveMode) == Some(Flag(true));
    LastSetIsWritten(tables, ReactiveMode);
    var t :| t in tables && ReactiveMode in t && Field(t, ReactiveMode) == Flag(true);
    TruthIsWritten(t, ReactiveMode);
  }
}
