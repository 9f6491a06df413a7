/** Layering config files: each overlays only the keys it sets, the last writer
    of a key wins, and what no file sets has its default. */
module ConfigLayers {
  import opened Machine
  import opened Domain
  import opened ConfigKeys

  datatype Block = Block(name: string, keys: map<Key, Raw>, strayKey: bool)

  /** One file: text that does not decode, or the keys each table sets. */
  datatype Layer = Garbled | Layer(policy: map<Key, Raw>, strayKey: bool, blocks: seq<Block>)

  /** What reading one path gives. */
  datatype Source = Missing | Unreadable | Contents(layer: Layer)

  /** The syntax rules for names, endpoints and units, which are not modelled. */
  datatype Rules = Rules(name: string -> bool, endpoint: string -> bool, unit: string -> bool)

  const DEFAULTS := Policy(512, "", false, 5 * SECOND, 0, 64, 60 * SECOND)
  const DEFAULT_TIMEOUT: i64 := 5 * SECOND
  const DEFAULT_DRAIN_TIMEOUT: i64 := 30 * SECOND

  // ------------------------------------------------------------ typed structs

  function PolicyValue(p: Policy, k: Key): Value
    requires PolicyKey(k)
  {
    match k
    case VramFloorMiB => Num(p.vramFloorMiB)
    case DefaultWorkload => Txt(p.defaultWorkload)
    case ReactiveMode => Flag(p.reactive)
    case PollInterval => Num(p.pollInterval)
    case GpuIndex => Num(p.gpuIndex)
    case MinEffectMiB => Num(p.minEffectMiB)
    case ActionCooldown => Num(p.actionCooldown)
  }

  function ServiceValue(s: Service, k: Key): Value
    requires !PolicyKey(k)
  {
    match k
    case Adapter => Kind(s.adapter)
    case Endpoint => Txt(s.endpoint)
    case Unit => Txt(s.unit)
    case UserUnit => Flag(s.userUnit)
    case Priority => Num(s.priority)
    case AllowStop => Flag(s.allowStop)
    case Timeout => Num(s.timeout)
    case DrainTimeout => Num(s.drainTimeout)
  }

  lemma {:induction false} FieldsFit(keys: map<Key, Raw>)
    ensures Field(keys, VramFloorMiB).Num? && 0 <= Field(keys, VramFloorMiB).n < TWO_64
    ensures Field(keys, MinEffectMiB).Num? && 0 <= Field(keys, MinEffectMiB).n < TWO_64
    ensures forall k :: k in {GpuIndex, Priority, PollInterval, ActionCooldown, Timeout, DrainTimeout} ==>
      Field(keys, k).Num? && FitsI64(Field(keys, k).n)
    ensures forall k :: k in {DefaultWorkload, Endpoint, Unit} ==> Field(keys, k).Txt?
    ensures forall k :: k in {ReactiveMode, UserUnit, AllowStop} ==> Field(keys, k).Flag?
    ensures Field(keys, Adapter).Kind?
  {
  }

  /** The typed decode of a [policy] table. */
  function TypedPolicy(keys: map<Key, Raw>): Policy {
    FieldsFit(keys);
    Policy(Field(keys, VramFloorMiB).n, Field(keys, DefaultWorkload).text, Field(keys, ReactiveMode).b,
           Field(keys, PollInterval).n, Field(keys, GpuIndex).n, Field(keys, MinEffectMiB).n,
           Field(keys, ActionCooldown).n)
  }

  /** The typed decode of a [[service]] block. */
  function TypedService(b: Block): (s: Service)
    ensures s.name == b.name
  {
    FieldsFit(b.keys);
    Service(b.name, Field(b.keys, Adapter).adapter, Field(b.keys, Endpoint).text, Field(b.keys, Unit).text,
            Field(b.keys, UserUnit).b, Field(b.keys, Priority).n, Field(b.keys, AllowStop).b,
            Field(b.keys, Timeout).n, Field(b.keys, DrainTimeout).n)
  }

  lemma {:induction false} TypedPolicyField(keys: map<Key, Raw>, k: Key)
    requires PolicyKey(k)
    ensures PolicyValue(TypedPolicy(keys), k) == Field(keys, k)
  {
    FieldsFit(keys);
    hide Field;
  }

  lemma {:induction false} TypedServiceField(b: Block, k: Key)
    requires !PolicyKey(k)
    ensures ServiceValue(TypedService(b), k) == Field(b.keys, k)
  {
    FieldsFit(b.keys);
    hide Field;
  }

  // ------------------------------------------------------------------ overlays

  function OverlayPolicy(p: Policy, keys: map<Key, Raw>): Policy {
    var q := TypedPolicy(keys);
    Policy(
      if VramFloorMiB in keys then q.vramFloorMiB else p.vramFloorMiB,
      if DefaultWorkload in keys then q.defaultWorkload else p.defaultWorkload,
      if ReactiveMode in keys then q.reactive else p.reactive,
      if PollInterval in keys then q.pollInterval else p.pollInterval,
      if GpuIndex in keys then q.gpuIndex else p.gpuIndex,
      if MinEffectMiB in keys then q.minEffectMiB else p.minEffectMiB,
      if ActionCooldown in keys then q.actionCooldown else p.actionCooldown)
  }

  /** mergeService: the name and every key the block does not set stay. */
  function Overlay(dst: Service, src: Service, keys: map<Key, Raw>): Service {
    Service(
      dst.name,
      if Adapter in keys then src.adapter else dst.adapter,
      if Endpoint in keys then src.endpoint else dst.endpoint,
      if Unit in keys then src.unit else dst.unit,
      if UserUnit in keys then src.userUnit else dst.userUnit,
      if Priority in keys then src.priority else dst.priority,
      if AllowStop in keys then src.allowStop else dst.allowStop,
      if Timeout in keys then src.timeout else dst.timeout,
      if DrainTimeout in keys then src.drainTimeout else dst.drainTimeout)
  }

  lemma {:induction false} OverlayPolicySets(p: Policy, keys: map<Key, Raw>, k: Key)
    requires PolicyKey(k)
    ensures PolicyValue(OverlayPolicy(p, keys), k) == if k in keys then Field(keys, k) else PolicyValue(p, k)
  {
    TypedPolicyField(keys, k);
    hide TypedPolicy, Field;
  }

  lemma {:induction false} OverlaySets(dst: Service, b: Block, k: Key)
    requires !PolicyKey(k)
    ensures ServiceValue(Overlay(dst, TypedService(b), b.keys), k)
         == if k in b.keys then Field(b.keys, k) else ServiceValue(dst, k)
  {
    TypedServiceField(b, k);
    hide TypedService, Field;
  }

  function MergeBlock(services: seq<Service>, b: Block): seq<Service> {
    var i := IndexOfService(services, b.name);
    if i >= 0 then services[i := Overlay(services[i], TypedService(b), b.keys)] else services + [TypedService(b)]
  }

  function MergeBlocks(services: seq<Service>, blocks: seq<Block>): seq<Service>
    decreases |blocks|
  {
    if blocks == [] then services else MergeBlocks(MergeBlock(services, blocks[0]), blocks[1..])
  }

  function MergePolicies(p: Policy, layers: seq<Layer>): Policy
    decreases |layers|
  {
    if layers == [] then p
    else MergePolicies(if layers[0].Layer? then OverlayPolicy(p, layers[0].policy) else p, layers[1..])
  }

  function AllBlocks(layers: seq<Layer>): seq<Block> {
    if layers == [] then []
    else (if layers[0].Layer? then layers[0].blocks else []) + AllBlocks(layers[1..])
  }

  // --------------------------------------------------------------- last writer

  /** The last of the tables that sets k, and what it sets it to. */
  function LastSet(tables: seq<map<Key, Raw>>, k: Key): Option<Value>
    decreases |tables|
  {
    if tables == [] then None
    else
      var last := tables[|tables| - 1];
      if k in last then Some(Field(last, k)) else LastSet(tables[..|tables| - 1], k)
  }

  function PolicyTables(layers: seq<Layer>): seq<map<Key, Raw>> {
    if layers == [] then []
    else (if layers[0].Layer? then [layers[0].policy] else []) + PolicyTables(layers[1..])
  }

  function TablesOf(blocks: seq<Block>, name: string): seq<map<Key, Raw>> {
    if blocks == [] then []
    else (if blocks[0].name == name then [blocks[0].keys] else []) + TablesOf(blocks[1..], name)
  }

  function Or(v: Option<Value>, default: Value): Value {
    if v.Some? then v.value else default
  }

  lemma {:induction false} LastSetAppend(a: seq<map<Key, Raw>>, b: seq<map<Key, Raw>>, k: Key, default: Value)
    ensures Or(LastSet(a + b, k), default) == Or(LastSet(b, k), Or(LastSet(a, k), default))
    ensures LastSet(a + b, k).Some? <==> LastSet(a, k).Some? || LastSet(b, k).Some?
    decreases |b|
  {
    if b == [] {
      assert a + b == a;
    } else {
      assert (a + b)[..|a + b| - 1] == a + b[..|b| - 1];
      LastSetAppend(a, b[..|b| - 1], k, default);
    }
  }

  lemma {:induction false} LastSetOne(keys: map<Key, Raw>, k: Key)
    ensures LastSet([keys], k) == if k in keys then Some(Field(keys, k)) else None
  {
    assert [keys][..0] == [];
    assert LastSet([], k) == None;
  }

  /** Every policy key ends as the last file that sets it has it, or untouched. */
  lemma {:induction false} PolicyLastWriter(p: Policy, layers: seq<Layer>, k: Key)
    requires PolicyKey(k)
    ensures PolicyValue(MergePolicies(p, layers), k) == Or(LastSet(PolicyTables(layers), k), PolicyValue(p, k))
    decreases |layers|
  {
    if layers != [] {
      var head, rest := layers[0], PolicyTables(layers[1..]);
      if head.Layer? {
        PolicyLastWriter(OverlayPolicy(p, head.policy), layers[1..], k);
        OverlayPolicySets(p, head.policy, k);
        LastSetAppend([head.policy], rest, k, PolicyValue(p, k));
        LastSetOne(head.policy, k);
      } else {
        PolicyLastWriter(p, layers[1..], k);
        assert PolicyTables(layers) == rest;
      }
    }
  }

  // ------------------------------------------------------------------ services

  /** A service's names, each once, where it is first mentioned. */
  function FirstMentions(blocks: seq<Block>, seen: seq<string>): seq<string>
    decreases |blocks|
  {
    if blocks == [] then []
    else if blocks[0].name in seen then FirstMentions(blocks[1..], seen)
    else [blocks[0].name] + FirstMentions(blocks[1..], seen + [blocks[0].name])
  }

  function NamesOf(services: seq<Service>): (r: seq<string>)
    ensures |r| == |services|
    ensures forall i :: 0 <= i < |r| ==> r[i] == services[i].name
  {
    seq(|services|, i requires 0 <= i < |services| => services[i].name)
  }

  lemma {:induction false} MergeBlockNames(services: seq<Service>, b: Block)
    requires DistinctServices(services)
    ensures DistinctServices(MergeBlock(services, b))
    ensures NamesOf(MergeBlock(services, b))
         == if b.name in NamesOf(services) then NamesOf(services) else NamesOf(services) + [b.name]
  {
    var i := IndexOfService(services, b.name);
    if i < 0 {
      forall j | 0 <= j < |services| ensures services[j].name != b.name {
        assert services[j] in services;
      }
      assert NamesOf(services + [TypedService(b)]) == NamesOf(services) + [b.name];
    } else {
      assert NamesOf(services)[i] == b.name;
    }
  }

  /** Services occur once each, in the order of their first mention in any file. */
  lemma {:induction false} ServicesInFirstMentionOrder(services: seq<Service>, blocks: seq<Block>)
    requires DistinctServices(services)
    ensures DistinctServices(MergeBlocks(services, blocks))
    ensures NamesOf(MergeBlocks(services, blocks)) == NamesOf(services) + FirstMentions(blocks, NamesOf(services))
    decreases |blocks|
  {
    if blocks != [] {
      MergeBlockNames(services, blocks[0]);
      ServicesInFirstMentionOrder(MergeBlock(services, blocks[0]), blocks[1..]);
    }
  }

  /** What is known of the services merged so far: each key of each is what the
      tables say it is. */
  ghost predicate FromTables(services: seq<Service>, blocks: seq<Block>) {
    forall s, k :: s in services && !PolicyKey(k) ==>
      ServiceValue(s, k) == Or(LastSet(TablesOf(blocks, s.name), k), Zero(k))
  }

  lemma {:induction false} TablesAppend(a: seq<Block>, b: seq<Block>, name: string)
    ensures TablesOf(a + b, name) == TablesOf(a, name) + TablesOf(b, name)
  {
    if a == [] {
      assert a + b == b;
    } else {
      assert (a + b)[0] == a[0] && (a + b)[1..] == a[1..] + b;
      TablesAppend(a[1..], b, name);
      var head := if a[0].name == name then [a[0].keys] else [];
      assert head + (TablesOf(a[1..], name) + TablesOf(b, name)) == (head + TablesOf(a[1..], name)) + TablesOf(b, name);
    }
  }

  lemma {:induction false} NoTablesUnlessNamed(blocks: seq<Block>, name: string)
    requires forall b :: b in blocks ==> b.name != name
    ensures TablesOf(blocks, name) == []
  {
    if blocks != [] {
      NoTablesUnlessNamed(blocks[1..], name);
    }
  }

  /** A service after one more block: another one as it was, the block's own
      overlaid, or a new one. */
  lemma {:induction false} WhoseBlock(services: seq<Service>, b: Block, s: Service)
    requires DistinctServices(services) && s in MergeBlock(services, b)
    ensures s.name != b.name ==> s in services
    ensures var i := IndexOfService(services, b.name);
      s.name == b.name ==> s == if i >= 0 then Overlay(services[i], TypedService(b), b.keys) else TypedService(b)
  {
    hide TypedService;
    var i, merged := IndexOfService(services, b.name), MergeBlock(services, b);
    var j :| 0 <= j < |merged| && merged[j] == s;
    if j != i && j < |services| {
      assert merged[j] == services[j];
    }
  }

  lemma {:induction false} TablesGrow(done: seq<Block>, b: Block, name: string, k: Key)
    ensures Or(LastSet(TablesOf(done + [b], name), k), Zero(k))
         == if b.name == name && k in b.keys then Field(b.keys, k) else Or(LastSet(TablesOf(done, name), k), Zero(k))
  {
    TablesAppend(done, [b], name);
    assert [b][1..] == [];
    if b.name == name {
      assert TablesOf([b], name) == [b.keys];
      LastSetAppend(TablesOf(done, name), [b.keys], k, Zero(k));
      LastSetOne(b.keys, k);
    } else {
      assert TablesOf([b], name) == [];
      assert TablesOf(done, name) + [] == TablesOf(done, name);
    }
  }

  /** One more block changes what it sets of its own service, or adds it. */
  lemma {:induction false} MergeBlockValue(done: seq<Block>, services: seq<Service>, b: Block, s: Service, k: Key)
    requires FromTables(services, done) && !PolicyKey(k) && s in MergeBlock(services, b)
    requires DistinctServices(services) && NamesOf(services) == FirstMentions(done, [])
    ensures ServiceValue(s, k) == Or(LastSet(TablesOf(done + [b], s.name), k), Zero(k))
  {
    WhoseBlock(services, b, s);
    TablesGrow(done, b, s.name, k);
    TypedServiceField(b, k);
    hide MergeBlock, TypedService, Field, Zero, TablesOf, LastSet, FirstMentions, Overlay, ServiceValue;
    var i := IndexOfService(services, b.name);
    if s.name == b.name {
      if i >= 0 {
        OverlaySets(services[i], b, k);
        assert services[i] in services;
      } else {
        NeverMentioned(done, services, b.name, k);
        FieldUnset(b.keys, k);
      }
    }
  }

  lemma {:induction false} FieldUnset(keys: map<Key, Raw>, k: Key)
    ensures k !in keys ==> Field(keys, k) == Zero(k)
  {
  }

  lemma {:induction false} MentionsAll(blocks: seq<Block>, seen: seq<string>, b: Block)
    requires b in blocks
    ensures b.name in seen || b.name in FirstMentions(blocks, seen)
    decreases |blocks|
  {
    if b != blocks[0] {
      MentionsAll(blocks[1..], if blocks[0].name in seen then seen else seen + [blocks[0].name], b);
    }
  }

  lemma {:induction false} NotNamed(services: seq<Service>, name: string)
    requires IndexOfService(services, name) < 0
    ensures name !in NamesOf(services)
  {
    forall i | 0 <= i < |services| ensures NamesOf(services)[i] != name {
      assert services[i] in services;
    }
  }

  lemma {:induction false} NeverMentioned(done: seq<Block>, services: seq<Service>, name: string, k: Key)
    requires NamesOf(services) == FirstMentions(done, []) && IndexOfService(services, name) < 0
    ensures Or(LastSet(TablesOf(done, name), k), Zero(k)) == Zero(k)
  {
    forall d | d in done ensures d.name != name {
      MentionsAll(done, [], d);
      NotNamed(services, name);
    }
    NoTablesUnlessNamed(done, name);
    assert LastSet([], k) == None;
  }

  lemma {:induction false} MergeAppend(services: seq<Service>, a: seq<Block>, b: seq<Block>)
    ensures MergeBlocks(services, a + b) == MergeBlocks(MergeBlocks(services, a), b)
    decreases |a|
  {
    if a == [] {
      assert a + b == b;
    } else {
      assert (a + b)[1..] == a[1..] + b;
      MergeAppend(MergeBlock(services, a[0]), a[1..], b);
    }
  }

  /** Every key of every service ends as the last block of that name that sets it
      has it, or unset. */
  lemma {:induction false} ServiceLastWriter(blocks: seq<Block>)
    ensures FromTables(MergeBlocks([], blocks), blocks)
    decreases |blocks|
  {
    if blocks != [] {
      var done, b := blocks[..|blocks| - 1], blocks[|blocks| - 1];
      assert blocks == done + [b];
      var services := MergeBlocks([], done);
      ServiceLastWriter(done);
      ServicesInFirstMentionOrder([], done);
      assert NamesOf([]) + FirstMentions(done, NamesOf([])) == FirstMentions(done, []) by { assert NamesOf([]) == []; }
      MergeAppend([], done, [b]);
      assert [b][1..] == [] && MergeBlocks(services, [b]) == MergeBlock(services, b);
      hide MergeBlock, ServiceValue;
      forall s, k | s in MergeBlock(services, b) && !PolicyKey(k)
        ensures ServiceValue(s, k) == Or(LastSet(TablesOf(blocks, s.name), k), Zero(k))
      {
        MergeBlockValue(done, services, b, s, k);
      }
    }
  }
}
