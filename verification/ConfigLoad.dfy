/** Loading a configuration: every file checked and merged in turn into one
    config, which is then validated and completed. */
module ConfigLoad {
  import opened Machine
  import opened Domain
  import opened ConfigKeys
  import opened ConfigLayers

  // ---------------------------------------------------------------- one file

  predicate OwnKeys(keys: map<Key, Raw>, policy: bool) {
    forall k :: k in keys ==> PolicyKey(k) == policy
  }

  predicate UnitAllowed(rules: Rules, keys: map<Key, Raw>) {
    Unit in keys && keys[Unit].Str? ==> rules.unit(keys[Unit].text)
  }

  ghost predicate TableOk(keys: map<Key, Raw>, strayKey: bool, policy: bool) {
    AllDecode(keys) && !strayKey && OwnKeys(keys, policy) && AllInBounds(keys, policy)
  }

  ghost predicate BlockOk(rules: Rules, b: Block) {
    TableOk(b.keys, b.strayKey, false) && UnitAllowed(rules, b.keys)
  }

  /** Every block has a name of its own. */
  ghost predicate WellNamed(blocks: seq<Block>) {
    && (forall i, j :: 0 <= i < j < |blocks| ==> blocks[i].name != blocks[j].name)
    && forall b :: b in blocks ==> b.name != ""
  }

  ghost predicate TablesOk(rules: Rules, layer: Layer) {
    && layer.Layer?
    && TableOk(layer.policy, layer.strayKey, true)
    && forall b :: b in layer.blocks ==> BlockOk(rules, b)
  }

  /** A file mergeFile takes. */
  ghost predicate Accepted(rules: Rules, layer: Layer) {
    TablesOk(rules, layer) && WellNamed(layer.blocks)
  }

  datatype LoadError =
    | FileMissing | FileUnreadable | NotDecoded | UnknownKey | OutOfBounds(key: Key) | BadUnit | NoName | DefinedTwice
    | BadIndex | BadName | BadAdapter | BadEndpoint | UnitNotTaken | EndpointNotTaken | NoSuchWorkload

  // -------------------------------------------------------------- validation

  predicate NeedsEndpoint(a: AdapterKind) {
    a == Ollama || a == ComfyUI || a == LlamaSwap
  }

  predicate AdapterValid(rules: Rules, s: Service) {
    && !s.adapter.UnknownAdapter?
    && (NeedsEndpoint(s.adapter) ==> s.endpoint != "" && rules.endpoint(s.endpoint) && s.unit == "")
    && (s.adapter == SystemdUnit ==> s.unit != "" && s.endpoint == "" && rules.unit(s.unit))
  }

  predicate ServiceValid(rules: Rules, s: Service) {
    rules.name(s.name) && AdapterValid(rules, s)
  }

  ghost predicate ServicesValid(rules: Rules, services: seq<Service>) {
    DistinctServices(services) && forall s :: s in services ==> ServiceValid(rules, s)
  }

  ghost predicate ConfigValid(rules: Rules, p: Policy, services: seq<Service>) {
    && p.gpuIndex >= 0 && ServicesValid(rules, services)
    && (p.defaultWorkload != "" ==> p.defaultWorkload in NamesOf(services))
  }

  function TrimSlashes(s: string): (r: string)
    ensures r <= s
    ensures r == "" || r[|r| - 1] != '/'
    ensures forall i :: |r| <= i < |s| ==> s[i] == '/'
  {
    if s == "" || s[|s| - 1] != '/' then s else TrimSlashes(s[..|s| - 1])
  }

  function CompletePolicy(p: Policy): Policy {
    p.(pollInterval := if p.pollInterval <= 0 then DEFAULTS.pollInterval else p.pollInterval,
       actionCooldown := if p.actionCooldown <= 0 then DEFAULTS.actionCooldown else p.actionCooldown)
  }

  function Complete(s: Service): Service {
    s.(timeout := if s.timeout <= 0 then DEFAULT_TIMEOUT else s.timeout,
       drainTimeout := if s.drainTimeout <= 0 then DEFAULT_DRAIN_TIMEOUT else s.drainTimeout,
       endpoint := TrimSlashes(s.endpoint))
  }

  /** Validate leaves no duration that is not positive, and replaces no other. */
  lemma {:induction false} CompletedIsPositive(p: Policy, s: Service)
    ensures CompletePolicy(p).pollInterval > 0 && CompletePolicy(p).actionCooldown > 0
    ensures p.pollInterval > 0 && p.actionCooldown > 0 ==> CompletePolicy(p) == p
    ensures p.pollInterval <= 0 ==> CompletePolicy(p).pollInterval == 5 * SECOND
    ensures p.actionCooldown <= 0 ==> CompletePolicy(p).actionCooldown == 60 * SECOND
    ensures Complete(s).timeout == if s.timeout > 0 then s.timeout else 5 * SECOND
    ensures Complete(s).drainTimeout == if s.drainTimeout > 0 then s.drainTimeout else 30 * SECOND
    ensures Complete(s) == s.(timeout := Complete(s).timeout, drainTimeout := Complete(s).drainTimeout,
                              endpoint := TrimSlashes(s.endpoint))
  {
  }

  function CompleteAll(services: seq<Service>): (r: seq<Service>)
    ensures |r| == |services|
    ensures forall i :: 0 <= i < |r| ==> r[i] == Complete(services[i])
  {
    seq(|services|, i requires 0 <= i < |services| => Complete(services[i]))
  }

  // ----------------------------------------------------------- a whole load

  function LayersOf(sources: seq<Source>): seq<Layer> {
    if sources == [] then []
    else
      var rest := LayersOf(sources[1..]);
      if sources[0].Contents? then [sources[0].layer] + rest else rest
  }

  /** Merged, not yet validated. */
  function MergedPolicy(layers: seq<Layer>): Policy {
    MergePolicies(DEFAULTS, layers)
  }

  function MergedServices(layers: seq<Layer>): seq<Service> {
    MergeBlocks([], AllBlocks(layers))
  }

  ghost predicate Loadable(rules: Rules, explicit: bool, sources: seq<Source>) {
    && (forall s :: s in sources ==> s != Unreadable && (explicit ==> s != Missing))
    && (forall s :: s in sources && s.Contents? ==> Accepted(rules, s.layer))
    && ConfigValid(rules, MergedPolicy(LayersOf(sources)), MergedServices(LayersOf(sources)))
  }

  function Loaded(layers: seq<Layer>): Config {
    Config(CompletePolicy(MergedPolicy(layers)), CompleteAll(MergedServices(layers)))
  }

  class Loading {
    var policy: Policy
    var services: seq<Service>

    constructor ()
      ensures policy == DEFAULTS && services == []
    {
      policy, services := DEFAULTS, [];
    }

    /** mergeService, on the service at i. */
    method MergeService(i: nat, src: Service, keys: map<Key, Raw>)
      requires i < |services|
      modifies this`services
      ensures services == old(services)[i := Overlay(old(services)[i], src, keys)]
    {
      var dst := services[i];
      var adapter, endpoint, unit, userUnit := dst.adapter, dst.endpoint, dst.unit, dst.userUnit;
      var priority, allowStop, timeout, drainTimeout := dst.priority, dst.allowStop, dst.timeout, dst.drainTimeout;
      if Adapter in keys { adapter := src.adapter; }
      if Endpoint in keys { endpoint := src.endpoint; }
      if Unit in keys { unit := src.unit; }
      if UserUnit in keys { userUnit := src.userUnit; }
      if Priority in keys { priority := src.priority; }
      if AllowStop in keys { allowStop := src.allowStop; }
      if Timeout in keys { timeout := src.timeout; }
      if DrainTimeout in keys { drainTimeout := src.drainTimeout; }
      dst := Service(dst.name, adapter, endpoint, unit, userUnit, priority, allowStop, timeout, drainTimeout);
      assert dst == Overlay(services[i], src, keys);
      services := services[i := dst];
    }

    /** The part of mergeFile before anything is merged. */
    method CheckFile(rules: Rules, layer: Layer) returns (err: Option<LoadError>)
      ensures err.None? <==> TablesOk(rules, layer)
    {
      if layer.Garbled? || exists k :: k in layer.policy && Decode(k, layer.policy[k]).None? {
        return Some(NotDecoded);
      }
      if exists b :: b in layer.blocks && exists k :: k in b.keys && Decode(k, b.keys[k]).None? {
        return Some(NotDecoded);
      }
      if layer.strayKey || !OwnKeys(layer.policy, true)
         || exists b :: b in layer.blocks && (b.strayKey || !OwnKeys(b.keys, false)) {
        return Some(UnknownKey);
      }
      var bad := CheckBounds(layer.policy, true);
      if bad.Some? {
        return Some(OutOfBounds(bad.value));
      }
      for i := 0 to |layer.blocks|
        invariant forall b :: b in layer.blocks[..i] ==> BlockOk(rules, b)
      {
        var b := layer.blocks[i];
        assert b in layer.blocks;
        assert layer.blocks[..i + 1] == layer.blocks[..i] + [b];
        var out := CheckBounds(b.keys, false);
        if out.Some? {
          return Some(OutOfBounds(out.value));
        }
        if !UnitAllowed(rules, b.keys) {
          return Some(BadUnit);
        }
      }
      assert layer.blocks[..|layer.blocks|] == layer.blocks;
      return None;
    }

    method MergeOne(b: Block)
      modifies this`services
      ensures services == MergeBlock(old(services), b)
    {
      hide Overlay;
      var idx := IndexOfService(services, b.name);
      if idx >= 0 {
        MergeService(idx, TypedService(b), b.keys);
      } else {
        services := services + [TypedService(b)];
      }
    }

    /** The part of mergeFile that merges the services. */
    method MergeEach(blocks: seq<Block>) returns (err: Option<LoadError>)
      modifies this`services
      ensures err.None? <==> WellNamed(blocks)
      ensures err.None? ==> services == MergeBlocks(old(services), blocks)
    {
      hide MergeBlock;
      var inThisFile: set<string> := {};
      for i := 0 to |blocks|
        invariant MergeBlocks(services, blocks[i..]) == MergeBlocks(old(services), blocks)
        invariant forall n :: n in inThisFile <==> exists j :: 0 <= j < i && blocks[j].name == n
        invariant WellNamed(blocks[..i])
      {
        var b := blocks[i];
        assert b in blocks && blocks[i..][1..] == blocks[i + 1..];
        if b.name == "" {
          return Some(NoName);
        }
        if b.name in inThisFile {
          return Some(DefinedTwice);
        }
        inThisFile := inThisFile + {b.name};
        MergeOne(b);
        OneMoreName(blocks, i);
      }
      assert blocks[..|blocks|] == blocks && blocks[|blocks|..] == [];
      return None;
    }

    /** mergeFile. */
    method MergeFile(rules: Rules, layer: Layer) returns (err: Option<LoadError>)
      modifies this
      ensures err.None? <==> Accepted(rules, layer)
      ensures err.None? ==> policy == OverlayPolicy(old(policy), layer.policy)
      ensures err.None? ==> services == MergeBlocks(old(services), layer.blocks)
    {
      err := CheckFile(rules, layer);
      if err.Some? {
        return;
      }
      MergePolicy(TypedPolicy(layer.policy), layer.policy);
      err := MergeEach(layer.blocks);
    }

    /** The policy part of mergeFile: overlays the keys the file sets. */
    method MergePolicy(layer: Policy, keys: map<Key, Raw>)
      requires layer == TypedPolicy(keys)
      modifies this`policy
      ensures policy == OverlayPolicy(old(policy), keys)
    {
      hide TypedPolicy;
      var floor, workload := policy.vramFloorMiB, policy.defaultWorkload;
      var reactive, poll := policy.reactive, policy.pollInterval;
      var index, effect, cooldown := policy.gpuIndex, policy.minEffectMiB, policy.actionCooldown;
      if VramFloorMiB in keys { floor := layer.vramFloorMiB; }
      if DefaultWorkload in keys { workload := layer.defaultWorkload; }
      if ReactiveMode in keys { reactive := layer.reactive; }
      if PollInterval in keys { poll := layer.pollInterval; }
      if GpuIndex in keys { index := layer.gpuIndex; }
      if MinEffectMiB in keys { effect := layer.minEffectMiB; }
      if ActionCooldown in keys { cooldown := layer.actionCooldown; }
      policy := Policy(floor, workload, reactive, poll, index, effect, cooldown);
    }

    /** What Validate has against a service's adapter, if anything. */
    static method CheckAdapter(rules: Rules, s: Service) returns (err: Option<LoadError>)
      ensures err.None? <==> AdapterValid(rules, s)
    {
      if s.adapter.UnknownAdapter? {
        return Some(BadAdapter);
      }
      if NeedsEndpoint(s.adapter) {
        if s.endpoint == "" || !rules.endpoint(s.endpoint) {
          return Some(BadEndpoint);
        }
        if s.unit != "" {
          return Some(UnitNotTaken);
        }
      }
      if s.adapter == SystemdUnit {
        if s.unit == "" {
          return Some(BadUnit);
        }
        if s.endpoint != "" {
          return Some(EndpointNotTaken);
        }
        if !rules.unit(s.unit) {
          return Some(BadUnit);
        }
      }
      return None;
    }

    /** Validate. */
    method Validate(rules: Rules) returns (err: Option<LoadError>)
      modifies this
      ensures err.None? <==> ConfigValid(rules, old(policy), old(services))
      ensures err.None? ==> policy == CompletePolicy(old(policy)) && services == CompleteAll(old(services))
    {
      if policy.pollInterval <= 0 {
        policy := policy.(pollInterval := 5 * SECOND);
      }
      if policy.actionCooldown <= 0 {
        policy := policy.(actionCooldown := 60 * SECOND);
      }
      if policy.gpuIndex < 0 {
        return Some(BadIndex);
      }
      var seen;
      NamesComplete(services);
      err, seen := ValidateServices(rules);
      if err.Some? {
        return;
      }
      if policy.defaultWorkload != "" && policy.defaultWorkload !in seen {
        return Some(NoSuchWorkload);
      }
    }

    /** The loop of Validate, and the names it saw. */
    method ValidateServices(rules: Rules) returns (err: Option<LoadError>, seen: set<string>)
      modifies this`services
      ensures err.None? <==> ServicesValid(rules, old(services))
      ensures err.None? ==> services == CompleteAll(old(services))
      ensures err.None? ==> forall n :: n in seen <==> n in NamesOf(services)
    {
      hide AdapterValid, TrimSlashes;
      ghost var given := services;
      err, seen := None, {};
      for i := 0 to |services|
        invariant |services| == |given| && err.None?
        invariant forall j :: 0 <= j < i ==> services[j] == Complete(given[j]) && ServiceValid(rules, given[j])
        invariant forall j :: i <= j < |given| ==> services[j] == given[j]
        invariant forall n :: n in seen <==> exists j :: 0 <= j < i && given[j].name == n
        invariant DistinctServices(given[..i])
      {
        var svc := services[i];
        assert svc in given;
        if !rules.name(svc.name) {
          return Some(BadName), seen;
        }
        if svc.name in seen {
          return Some(DefinedTwice), seen;
        }
        seen := seen + {svc.name};
        err := CheckAdapter(rules, svc);
        if err.Some? {
          return;
        }
        if svc.timeout <= 0 {
          svc := svc.(timeout := DEFAULT_TIMEOUT);
        }
        if svc.drainTimeout <= 0 {
          svc := svc.(drainTimeout := DEFAULT_DRAIN_TIMEOUT);
        }
        svc := svc.(endpoint := TrimSlashes(svc.endpoint));
        assert svc == Complete(given[i]);
        services := services[i := svc];
        assert given[..i + 1] == given[..i] + [given[i]];
      }
      assert given[..|given|] == given;
      assert services == CompleteAll(given);
      SameNames(given, seen);
    }
  }

  lemma {:induction false} NamesComplete(services: seq<Service>)
    ensures NamesOf(CompleteAll(services)) == NamesOf(services)
  {
  }

  lemma {:induction false} SameNames(given: seq<Service>, seen: set<string>)
    requires forall n :: n in seen <==> exists j :: 0 <= j < |given| && given[j].name == n
    ensures NamesOf(CompleteAll(given)) == NamesOf(given)
    ensures forall n :: n in seen <==> n in NamesOf(given)
  {
    var names := NamesOf(given);
    assert forall j :: 0 <= j < |given| ==> names[j] == given[j].name;
    forall n ensures n in seen <==> n in names {
      if n in seen {
        var j :| 0 <= j < |given| && given[j].name == n;
        assert names[j] == n;
      }
    }
  }

  lemma {:induction false} OneMoreName(blocks: seq<Block>, i: nat)
    requires i < |blocks| && WellNamed(blocks[..i]) && blocks[i].name != ""
    requires forall j :: 0 <= j < i ==> blocks[j].name != blocks[i].name
    ensures WellNamed(blocks[..i + 1])
  {
    assert blocks[..i + 1] == blocks[..i] + [blocks[i]];
  }

  /** LoadFrom. explicit is set when one file was named outright and must exist. */
  method LoadFrom(rules: Rules, explicit: bool, sources: seq<Source>) returns (r: Result<Config, LoadError>)
    ensures r.Ok? <==> Loadable(rules, explicit, sources)
    ensures r.Ok? ==> r.value == Loaded(LayersOf(sources))
  {
    hide ConfigValid, Accepted, OverlayPolicy, CompletePolicy;
    var cfg := new Loading();
    var layers := LayersOf(sources);
    for i := 0 to |sources|
      invariant MergePolicies(cfg.policy, LayersOf(sources[i..])) == MergedPolicy(layers)
      invariant MergeBlocks(cfg.services, AllBlocks(LayersOf(sources[i..]))) == MergedServices(layers)
      invariant forall j :: 0 <= j < i ==> sources[j] != Unreadable && (explicit ==> sources[j] != Missing)
      invariant forall j :: 0 <= j < i && sources[j].Contents? ==> Accepted(rules, sources[j].layer)
    {
      assert sources[i..][1..] == sources[i + 1..];
      assert sources[i] in sources;
      match sources[i] {
        case Missing =>
          if explicit {
            return Err(FileMissing);
          }
        case Unreadable =>
          return Err(FileUnreadable);
        case Contents(layer) =>
          ghost var services, rest := cfg.services, LayersOf(sources[i + 1..]);
          var err := cfg.MergeFile(rules, layer);
          if err.Some? {
            return Err(err.value);
          }
          FileByFile(rules, services, layer, rest);
      }
    }
    var err := cfg.Validate(rules);
    if err.Some? {
      return Err(err.value);
    }
    return Ok(Config(cfg.policy, cfg.services));
  }

  lemma {:induction false} FileByFile(rules: Rules, services: seq<Service>, layer: Layer, rest: seq<Layer>)
    requires Accepted(rules, layer)
    ensures layer.Layer?
    ensures MergeBlocks(services, AllBlocks([layer] + rest))
         == MergeBlocks(MergeBlocks(services, layer.blocks), AllBlocks(rest))
    ensures forall p :: MergePolicies(p, [layer] + rest) == MergePolicies(OverlayPolicy(p, layer.policy), rest)
  {
    assert ([layer] + rest)[1..] == rest;
    MergeAppend(services, layer.blocks, AllBlocks(rest));
  }
}
