/** Config files of Ollama services, and the configuration each of them loads to:
    what the examples elsewhere run on. */
module ExampleFiles {
  import opened Machine
  import opened Domain
  import opened ConfigKeys
  import opened ConfigLayers
  import opened ConfigLoad

  const ENDPOINT := "http://127.0.0.1:11434"

  /** One [[service]] block; the durations as they are written and as they parse. */
  datatype Entry = Entry(name: string, priority: i64, timeout: i64, timeoutText: string, drain: i64, drainText: string)

  function Usual(name: string, priority: i64): Entry {
    Entry(name, priority, 5 * SECOND, "5s", 30 * SECOND, "30s")
  }

  function BlockOf(e: Entry): Block {
    Block(e.name,
          map[Adapter := Str("ollama", None), Endpoint := Str(ENDPOINT, None), Priority := Whole(e.priority),
              Timeout := Str(e.timeoutText, Some(e.timeout)), DrainTimeout := Str(e.drainText, Some(e.drain))],
          false)
  }

  function ServiceOf(e: Entry): Service {
    Service(e.name, Ollama, ENDPOINT, "", false, e.priority, false, e.timeout, e.drain)
  }

  function BlocksOf(entries: seq<Entry>): (r: seq<Block>)
    ensures |r| == |entries|
    ensures forall i :: 0 <= i < |r| ==> r[i] == BlockOf(entries[i])
  {
    seq(|entries|, i requires 0 <= i < |entries| => BlockOf(entries[i]))
  }

  function ServicesOf(entries: seq<Entry>): (r: seq<Service>)
    ensures |r| == |entries|
    ensures forall i :: 0 <= i < |r| ==> r[i] == ServiceOf(entries[i])
  {
    seq(|entries|, i requires 0 <= i < |entries| => ServiceOf(entries[i]))
  }

  /** A file that turns reactive mode on, with a floor of 500 MiB. */
  function FileOf(entries: seq<Entry>): Layer {
    Layer(map[VramFloorMiB := Whole(500), ReactiveMode := Truth(true)], false, BlocksOf(entries))
  }

  function ConfigOf(entries: seq<Entry>): Config {
    Config(DEFAULTS.(vramFloorMiB := 500, reactive := true), ServicesOf(entries))
  }

  /** Names of their own, and durations within bounds. */
  predicate WellWritten(rules: Rules, entries: seq<Entry>) {
    && rules.endpoint(ENDPOINT)
    && (forall e :: e in entries ==> e.name != "" && rules.name(e.name))
    && (forall e :: e in entries ==> 0 < e.timeout <= MAX_TIMEOUT && 0 < e.drain <= MAX_DRAIN_TIMEOUT)
    && (forall i, j :: 0 <= i < j < |entries| ==> entries[i].name != entries[j].name)
  }

  lemma {:induction false} TypedAsWritten(e: Entry)
    ensures TypedService(BlockOf(e)) == ServiceOf(e)
  {
  }

  lemma {:induction false} EndpointStays(e: Entry)
    requires e.timeout > 0 && e.drain > 0
    ensures Complete(ServiceOf(e)) == ServiceOf(e)
  {
    assert ENDPOINT[|ENDPOINT| - 1] == '4';
  }

  lemma {:induction false} BlockIsOk(rules: Rules, e: Entry)
    requires 0 < e.timeout <= MAX_TIMEOUT && 0 < e.drain <= MAX_DRAIN_TIMEOUT
    ensures BlockOk(rules, BlockOf(e))
  {
  }

  lemma {:induction false} MergeFresh(done: seq<Entry>, e: Entry)
    requires forall d :: d in done ==> d.name != e.name
    ensures MergeBlock(ServicesOf(done), BlockOf(e)) == ServicesOf(done + [e])
  {
    var services := ServicesOf(done);
    forall s | s in services ensures s.name != e.name {
      var i :| 0 <= i < |services| && services[i] == s;
      assert done[i] in done;
    }
    TypedAsWritten(e);
    hide TypedService;
    assert services + [ServiceOf(e)] == ServicesOf(done + [e]);
  }

  /** Blocks with names of their own are simply added. */
  lemma {:induction false} MergeAll(done: seq<Entry>, entries: seq<Entry>)
    requires forall i, j :: 0 <= i < j < |done + entries| ==> (done + entries)[i].name != (done + entries)[j].name
    ensures MergeBlocks(ServicesOf(done), BlocksOf(entries)) == ServicesOf(done + entries)
    decreases |entries|
  {
    hide MergeBlock, BlockOf, ServiceOf;
    if entries == [] {
      assert done + entries == done;
    } else {
      var e := entries[0];
      forall d | d in done ensures d.name != e.name {
        var i :| 0 <= i < |done| && done[i] == d;
        assert (done + entries)[i] == done[i] && (done + entries)[|done|] == e;
      }
      MergeFresh(done, e);
      assert BlocksOf(entries)[0] == BlockOf(e) && BlocksOf(entries)[1..] == BlocksOf(entries[1..]);
      assert (done + [e]) + entries[1..] == done + entries;
      MergeAll(done + [e], entries[1..]);
    }
  }

  lemma {:induction false} FileIsAccepted(rules: Rules, entries: seq<Entry>)
    requires WellWritten(rules, entries)
    ensures Accepted(rules, FileOf(entries))
  {
    var blocks := FileOf(entries).blocks;
    forall b | b in blocks ensures BlockOk(rules, b) && b.name != "" {
      var i :| 0 <= i < |blocks| && blocks[i] == b;
      assert entries[i] in entries;
      BlockIsOk(rules, entries[i]);
    }
  }

  lemma {:induction false} ServicesAreValid(rules: Rules, entries: seq<Entry>)
    requires WellWritten(rules, entries)
    ensures ServicesValid(rules, ServicesOf(entries)) && CompleteAll(ServicesOf(entries)) == ServicesOf(entries)
  {
    var services := ServicesOf(entries);
    forall s | s in services ensures ServiceValid(rules, s) {
      var i :| 0 <= i < |services| && services[i] == s;
      assert entries[i] in entries;
    }
    forall i | 0 <= i < |services| ensures Complete(services[i]) == services[i] {
      assert entries[i] in entries;
      EndpointStays(entries[i]);
    }
  }

  lemma {:induction false} OneFile(layer: Layer)
    requires layer.Layer?
    ensures LayersOf([Contents(layer)]) == [layer]
    ensures MergedServices([layer]) == MergeBlocks([], layer.blocks)
    ensures MergedPolicy([layer]) == OverlayPolicy(DEFAULTS, layer.policy)
  {
    hide OverlayPolicy, MergeBlocks;
    assert [Contents(layer)][1..] == [];
    assert [layer][1..] == [] && AllBlocks([]) == [];
    assert AllBlocks([layer]) == layer.blocks + [] == layer.blocks;
    assert MergePolicies(OverlayPolicy(DEFAULTS, layer.policy), []) == OverlayPolicy(DEFAULTS, layer.policy);
  }

  lemma {:induction false} MergedAsWritten(entries: seq<Entry>)
    requires forall i, j :: 0 <= i < j < |entries| ==> entries[i].name != entries[j].name
    ensures MergedServices([FileOf(entries)]) == ServicesOf(entries)
    ensures MergedPolicy([FileOf(entries)]) == ConfigOf(entries).policy
    ensures CompletePolicy(MergedPolicy([FileOf(entries)])) == MergedPolicy([FileOf(entries)])
  {
    hide OverlayPolicy, MergedServices, MergedPolicy, CompletePolicy;
    OneFile(FileOf(entries));
    PolicyAsWritten(FileOf(entries).policy);
    assert [] + entries == entries && ServicesOf([]) == [];
    MergeAll([], entries);
  }

  /** The file loads, to exactly this configuration. */
  lemma {:induction false} FileLoads(rules: Rules, entries: seq<Entry>)
    requires WellWritten(rules, entries)
    ensures Loadable(rules, true, [Contents(FileOf(entries))])
    ensures Loaded(LayersOf([Contents(FileOf(entries))])) == ConfigOf(entries)
  {
    hide Accepted, ServicesValid, MergedServices, MergedPolicy, LayersOf, CompletePolicy, FileOf, WellWritten, BlocksOf;
    FileIsAccepted(rules, entries);
    ServicesAreValid(rules, entries);
    NamesApart(rules, entries);
    OneFile(FileOf(entries));
    MergedAsWritten(entries);
  }

  lemma {:induction false} NamesApart(rules: Rules, entries: seq<Entry>)
    requires WellWritten(rules, entries)
    ensures FileOf(entries).Layer?
    ensures forall i, j :: 0 <= i < j < |entries| ==> entries[i].name != entries[j].name
  {
  }

  lemma {:induction false} PolicyAsWritten(keys: map<Key, Raw>)
    requires keys == map[VramFloorMiB := Whole(500), ReactiveMode := Truth(true)]
    ensures OverlayPolicy(DEFAULTS, keys) == DEFAULTS.(vramFloorMiB := 500, reactive := true)
    ensures CompletePolicy(OverlayPolicy(DEFAULTS, keys)) == OverlayPolicy(DEFAULTS, keys)
  {
  }

  /** cfg is what the file with these services loads to. */
  ghost predicate LoadsTo(rules: Rules, entries: seq<Entry>, cfg: Config) {
    var sources := [Contents(FileOf(entries))];
    Loadable(rules, true, sources) && Loaded(LayersOf(sources)) == cfg
  }

  lemma {:induction false} FileLoadsTo(rules: Rules, entries: seq<Entry>)
    requires WellWritten(rules, entries)
    ensures LoadsTo(rules, entries, ConfigOf(entries))
  {
    hide Loadable, Loaded, LayersOf, WellWritten;
    FileLoads(rules, entries);
  }
}
