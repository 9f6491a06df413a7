/** How DRM cards are numbered: a card's index is its rank among the cards that
    are not virtual, whatever order the directory lists them in and whatever
    can or cannot be read of them. */
module Sysfs {
  import opened Machine
  import opened Domain
  import Sorting

  const BYTES_PER_MIB: u64 := 1_048_576

  /** What a stat says of a path. */
  datatype Seen = Missing | Denied | File | Directory

  /** What there is to find behind one card: its device entry, the entry's
      target and the vendor file when the source is opened, and the files as
      they read later. */
  datatype Files = Files(
    entry: Seen, target: Seen, vendorFile: Seen,
    vendor: Option<string>, hasCounters: bool, total: Option<u64>, used: Option<u64>)

  /** One name in the DRM directory; num is the number after "card", when it is one. */
  datatype DirEntry = DirEntry(num: Option<int>, files: Files)

  datatype Kind = Virtual | Real | Unreachable

  /** classifyCard: virtual only if nothing is behind the card at all, or its
      reachable directory has no vendor file. */
  function Classify(f: Files): (k: Kind)
    ensures k == Virtual <==>
      f.entry == Missing || (f.entry != Denied && f.target == Directory && f.vendorFile == Missing)
    ensures k == Real <==>
      && f.entry != Missing && f.entry != Denied && f.target == Directory
      && f.vendorFile != Missing && f.vendorFile != Denied
  {
    if f.entry == Missing then Virtual
    else if f.entry == Denied then Unreachable
    else if f.target != Directory then Unreachable
    else if f.vendorFile == Missing then Virtual
    else if f.vendorFile == Denied then Unreachable
    else Real
  }

  datatype Card = Card(num: int, files: Files, reachable: bool)

  datatype OpenError = RootUnreadable | NoDevices

  predicate Listed(e: DirEntry) {
    e.num.Some? && Classify(e.files) != Virtual
  }

  function CardOf(e: DirEntry): Card
    requires Listed(e)
  {
    Card(e.num.value, e.files, Classify(e.files) == Real)
  }

  function Found(entries: seq<DirEntry>): seq<Card> {
    if entries == [] then []
    else
      var rest := Found(entries[1..]);
      if Listed(entries[0]) then [CardOf(entries[0])] + rest else rest
  }

  predicate NumLess(a: Card, b: Card) {
    a.num < b.num
  }

  function Cards(entries: seq<DirEntry>): seq<Card> {
    Sorting.Sort(NumLess, Found(entries))
  }

  /** openSysfs. */
  method Open(root: Option<seq<DirEntry>>) returns (r: Result<seq<Card>, OpenError>)
    ensures root.None? ==> r == Err(RootUnreadable)
    ensures root.Some? ==> r == if Found(root.value) == [] then Err(NoDevices) else Ok(Cards(root.value))
  {
    if root.None? {
      return Err(RootUnreadable);
    }
    var entries := root.value;
    var found: seq<Card> := [];
    for i := 0 to |entries|
      invariant found + Found(entries[i..]) == Found(entries)
    {
      assert entries[i..][1..] == entries[i + 1..];
      var e := entries[i];
      if e.num.None? {
        continue;
      }
      var kind := Classify(e.files);
      if kind == Virtual {
        continue;
      }
      found := found + [Card(e.num.value, e.files, kind == Real)];
    }
    assert found == Found(entries);
    if |found| == 0 {
      return Err(NoDevices);
    }
    return Ok(Sorting.Sort(NumLess, found));
  }

  // ---------------------------------------------------------------- the cards

  datatype Readability = Readable | NoDirectory | NoVendor | NoCounters | BadCounter

  datatype Gpu = Gpu(index: nat, vendor: Option<string>, memory: Device, state: Readability)

  const UNREAD: Device := Device(0, 0)

  /** readCard: the index is the card's whatever else fails. */
  function ReadCard(index: nat, c: Card): (g: Gpu)
    ensures g.index == index
    ensures g.memory.totalMiB < 0x1000_0000_0000
    ensures g.state == Readable <==>
      c.reachable && c.files.vendor.Some? && c.files.hasCounters && c.files.total.Some? && c.files.used.Some?
    ensures g.state == Readable ==>
      g.memory == Device(c.files.total.value / BYTES_PER_MIB, c.files.used.value / BYTES_PER_MIB)
    ensures g.state != Readable ==> g.memory == UNREAD
    ensures g.vendor == if c.reachable then c.files.vendor else None
    ensures g.state == NoDirectory <==> !c.reachable
    ensures g.state == NoVendor <==> c.reachable && c.files.vendor.None?
    ensures g.state == NoCounters <==> c.reachable && c.files.vendor.Some? && !c.files.hasCounters
  {
    if !c.reachable then Gpu(index, None, UNREAD, NoDirectory)
    else if c.files.vendor.None? then Gpu(index, None, UNREAD, NoVendor)
    else if !c.files.hasCounters then Gpu(index, c.files.vendor, UNREAD, NoCounters)
    else if c.files.total.None? || c.files.used.None? then Gpu(index, c.files.vendor, UNREAD, BadCounter)
    else
      var device := Device(c.files.total.value / BYTES_PER_MIB, c.files.used.value / BYTES_PER_MIB);
      Gpu(index, c.files.vendor, device, Readable)
  }

  /** Devices. */
  method Devices(cards: seq<Card>) returns (gpus: seq<Gpu>)
    ensures |gpus| == |cards|
    ensures forall i :: 0 <= i < |gpus| ==> gpus[i] == ReadCard(i, cards[i])
  {
    gpus := [];
    for i := 0 to |cards|
      invariant |gpus| == i
      invariant forall j :: 0 <= j < i ==> gpus[j] == ReadCard(j, cards[j])
    {
      gpus := gpus + [ReadCard(i, cards[i])];
    }
  }

  /** DeviceByIndex. */
  method DeviceByIndex(gpus: seq<Gpu>, index: int) returns (r: Option<Gpu>)
    ensures r.Some? ==> r.value in gpus && r.value.index == index
    ensures r.None? ==> forall g :: g in gpus ==> g.index != index
    ensures (forall i :: 0 <= i < |gpus| ==> gpus[i].index == i) ==>
      r == if 0 <= index < |gpus| then Some(gpus[index]) else None
  {
    for i := 0 to |gpus|
      invariant forall j :: 0 <= j < i ==> gpus[j].index != index
    {
      if gpus[i].index == index {
        return Some(gpus[i]);
      }
    }
    return None;
  }

  function MemoryAt(cards: seq<Card>, index: int): Option<Device> {
    if 0 <= index < |cards| && ReadCard(index, cards[index]).state == Readable
    then Some(ReadCard(index, cards[index]).memory) else None
  }

  /** The memory the daemon arbitrates: a card that is missing or cannot be read
      is an error, never another card. */
  method Arbitrated(cards: seq<Card>, index: int) returns (r: Option<Device>)
    ensures r == MemoryAt(cards, index)
  {
    var gpus := Devices(cards);
    var g := DeviceByIndex(gpus, index);
    if g.None? || g.value.state != Readable {
      return None;
    }
    return Some(g.value.memory);
  }

  // ------------------------------------------------------------ index is rank

  /** The numbers of the cards that are not virtual. */
  ghost function Numbers(entries: seq<DirEntry>): set<int> {
    set e | e in entries && Listed(e) :: e.num.value
  }

  /** How many of them are below n. */
  ghost function Rank(entries: seq<DirEntry>, n: int): nat {
    |set m | m in Numbers(entries) && m < n|
  }

  ghost predicate DistinctNumbers(entries: seq<DirEntry>) {
    forall i, j :: 0 <= i < j < |entries| && Listed(entries[i]) && Listed(entries[j]) ==>
      entries[i].num != entries[j].num
  }

  lemma {:induction false} FoundMembers(entries: seq<DirEntry>)
    requires DistinctNumbers(entries)
    ensures forall c :: c in Found(entries) <==> exists e :: e in entries && Listed(e) && CardOf(e) == c
    ensures forall i, j :: 0 <= i < j < |Found(entries)| ==> Found(entries)[i].num != Found(entries)[j].num
  {
    if entries != [] {
      FoundMembers(entries[1..]);
      var rest := Found(entries[1..]);
      assert forall e :: e in entries <==> e == entries[0] || e in entries[1..];
      if Listed(entries[0]) {
        forall c | c in rest ensures c.num != entries[0].num.value {
          var e :| e in entries[1..] && Listed(e) && CardOf(e) == c;
          var i :| 0 <= i < |entries[1..]| && entries[1..][i] == e;
          assert entries[i + 1] == e;
        }
      }
    }
  }

  /** The sorted cards: in strictly ascending order, and just the listed ones. */
  lemma {:induction false} CardsAscend(entries: seq<DirEntry>)
    requires DistinctNumbers(entries)
    ensures forall i, j :: 0 <= i < j < |Cards(entries)| ==> Cards(entries)[i].num < Cards(entries)[j].num
    ensures forall c :: c in Cards(entries) <==> exists e :: e in entries && Listed(e) && CardOf(e) == c
  {
    var found, cards := Found(entries), Cards(entries);
    FoundMembers(entries);
    Sorting.SortSorted(NumLess, found);
    Sorting.SameMembers(found, cards);
    forall i, j | 0 <= i < j < |cards| ensures cards[i].num < cards[j].num {
      if cards[i] == cards[j] {
        Sorting.OccursTwice(cards, i, j);
        Sorting.NoRepeatsCounts(found);
      }
      assert cards[i] in found && cards[j] in found && !NumLess(cards[j], cards[i]);
    }
  }

  ghost function NumbersOf(cards: seq<Card>): set<int>
    decreases |cards|
  {
    if cards == [] then {} else NumbersOf(cards[..|cards| - 1]) + {cards[|cards| - 1].num}
  }

  lemma {:induction false} AscendingCount(cards: seq<Card>)
    requires forall i, j :: 0 <= i < j < |cards| ==> cards[i].num < cards[j].num
    ensures forall m :: m in NumbersOf(cards) <==> exists c :: c in cards && c.num == m
    ensures |NumbersOf(cards)| == |cards|
    decreases |cards|
  {
    if cards != [] {
      var init, last := cards[..|cards| - 1], cards[|cards| - 1];
      AscendingCount(init);
      assert cards == init + [last];
      assert last.num !in NumbersOf(init);
    }
  }

  /** Numbering is rank: for every order of the directory, the card with number n
      is at the index that counts the listed cards below n, and every listed
      card is somewhere. */
  lemma {:induction false} IndexIsRank(entries: seq<DirEntry>, e: DirEntry)
    requires DistinctNumbers(entries) && e in entries && Listed(e)
    ensures Rank(entries, e.num.value) < |Cards(entries)|
    ensures Cards(entries)[Rank(entries, e.num.value)] == CardOf(e)
  {
    var cards := Cards(entries);
    CardsAscend(entries);
    assert CardOf(e) in cards;
    var k :| 0 <= k < |cards| && cards[k] == CardOf(e);
    AscendingCount(cards[..k]);
    var below := set m | m in Numbers(entries) && m < e.num.value;
    forall m ensures m in below <==> m in NumbersOf(cards[..k]) {
      RankMember(entries, cards, k, m);
    }
    assert below == NumbersOf(cards[..k]);
  }

  /** A listed number is below that of the card at k when its card is before k. */
  lemma {:induction false} RankMember(entries: seq<DirEntry>, cards: seq<Card>, k: nat, m: int)
    requires k < |cards| && forall i, j :: 0 <= i < j < |cards| ==> cards[i].num < cards[j].num
    requires forall c :: c in cards <==> exists e :: e in entries && Listed(e) && CardOf(e) == c
    ensures (m in Numbers(entries) && m < cards[k].num) <==> exists c :: c in cards[..k] && c.num == m
  {
    if m in Numbers(entries) && m < cards[k].num {
      var o :| o in entries && Listed(o) && o.num.value == m;
      assert CardOf(o) in cards;
      var i :| 0 <= i < |cards| && cards[i] == CardOf(o);
      assert cards[..k][i] == CardOf(o);
    }
    if c :| c in cards[..k] && c.num == m {
      var i :| 0 <= i < k && cards[..k][i] == c;
      assert cards[i] in cards;
      var o :| o in entries && Listed(o) && CardOf(o) == c;
      assert m in Numbers(entries);
    }
  }

  /** Everything of the card is there to be read. */
  predicate Readables(f: Files) {
    && f.entry != Missing && f.entry != Denied && f.target == Directory
    && f.vendorFile != Missing && f.vendorFile != Denied
    && f.vendor.Some? && f.hasCounters && f.total.Some? && f.used.Some?
  }

  /** The card the daemon arbitrates is known, and its memory is that of its own
      counters, exactly when all its files can be read. */
  lemma {:induction false} ArbitratedIff(entries: seq<DirEntry>, e: DirEntry)
    requires DistinctNumbers(entries) && e in entries && Listed(e)
    ensures MemoryAt(Cards(entries), Rank(entries, e.num.value)) ==
      if Readables(e.files) then
        Some(Device(e.files.total.value / BYTES_PER_MIB, e.files.used.value / BYTES_PER_MIB))
      else None
  {
    IndexIsRank(entries, e);
  }

  /** An index beyond the listed cards is never answered. */
  lemma {:induction false} NoSuchCard(entries: seq<DirEntry>, index: int)
    requires DistinctNumbers(entries) && (index < 0 || index >= |Numbers(entries)|)
    ensures MemoryAt(Cards(entries), index) == None
  {
    AsManyCards(entries);
  }

  /** Two readings of a directory that list the same numbers agree on the index
      and every figure of each card they read alike. */
  lemma {:induction false} SameNumbersSameCard(a: seq<DirEntry>, b: seq<DirEntry>, e: DirEntry)
    requires DistinctNumbers(a) && DistinctNumbers(b)
    requires Numbers(a) == Numbers(b)
    requires e in a && e in b && Listed(e)
    ensures var i := Rank(a, e.num.value);
      && i == Rank(b, e.num.value) && i < |Cards(a)| && i < |Cards(b)|
      && ReadCard(i, Cards(a)[i]) == ReadCard(i, Cards(b)[i]) == ReadCard(i, CardOf(e))
  {
    IndexIsRank(a, e);
    IndexIsRank(b, e);
  }

  /** A card keeps its place in the listing whatever becomes of its files, short
      of there being nothing behind it: denied, dangling, no directory, a vendor
      file or a counter that will not read. */
  lemma {:induction false} UnreadableStaysListed(entries: seq<DirEntry>, k: nat, files: Files)
    requires k < |entries| && Listed(entries[k]) && Classify(files) != Virtual
    ensures var after := entries[k := entries[k].(files := files)];
      Numbers(after) == Numbers(entries) && (DistinctNumbers(entries) ==> DistinctNumbers(after))
  {
    var after := entries[k := entries[k].(files := files)];
    assert forall i :: 0 <= i < |entries| ==>
      after[i].num == entries[i].num && (Listed(after[i]) <==> Listed(entries[i]));
    forall m ensures m in Numbers(after) <==> m in Numbers(entries) {
      if m in Numbers(after) {
        var i :| 0 <= i < |after| && Listed(after[i]) && after[i].num.value == m;
        assert entries[i] in entries;
      }
      if m in Numbers(entries) {
        var i :| 0 <= i < |entries| && Listed(entries[i]) && entries[i].num.value == m;
        assert after[i] in after;
      }
    }
  }

  /** No card changes another: whatever a listed card's files turn into, as long
      as something is behind it, every other card keeps its index and figures,
      and it keeps its own index. */
  lemma {:induction false} NoCardChangesAnother(entries: seq<DirEntry>, k: nat, files: Files, i: nat)
    requires DistinctNumbers(entries) && k < |entries| && i < |entries|
    requires Listed(entries[k]) && Listed(entries[i]) && Classify(files) != Virtual
    ensures var after, n := entries[k := entries[k].(files := files)], Rank(entries, entries[i].num.value);
      && n < |Cards(entries)| && |Cards(after)| == |Cards(entries)|
      && Cards(after)[n].num == Cards(entries)[n].num == entries[i].num.value
      && (i != k ==> ReadCard(n, Cards(after)[n]) == ReadCard(n, Cards(entries)[n]))
      && (i == k ==> ReadCard(n, Cards(after)[n]) == ReadCard(n, CardOf(after[k])))
  {
    var after := entries[k := entries[k].(files := files)];
    UnreadableStaysListed(entries, k, files);
    assert after[i] in after && entries[i] in entries;
    IndexIsRank(entries, entries[i]);
    IndexIsRank(after, after[i]);
    AsManyCards(entries);
    AsManyCards(after);
  }

  lemma {:induction false} AsManyCards(entries: seq<DirEntry>)
    requires DistinctNumbers(entries)
    ensures |Cards(entries)| == |Numbers(entries)|
  {
    var cards := Cards(entries);
    CardsAscend(entries);
    AscendingCount(cards);
    forall m ensures m in Numbers(entries) <==> m in NumbersOf(cards) {
      if m in Numbers(entries) {
        var e :| e in entries && Listed(e) && e.num.value == m;
        assert CardOf(e) in cards;
      }
      if m in NumbersOf(cards) {
        var c :| c in cards && c.num == m;
        var e :| e in entries && Listed(e) && CardOf(e) == c;
      }
    }
    assert Numbers(entries) == NumbersOf(cards);
  }

  /** Losing a card for real does renumber: the directory is the only thing that
      can, and only upwards of the gap. */
  lemma {:induction false} OnlyCardsBelowCount(a: seq<DirEntry>, b: seq<DirEntry>, n: int)
    requires forall m :: m < n ==> (m in Numbers(a) <==> m in Numbers(b))
    ensures Rank(a, n) == Rank(b, n)
  {
    assert (set m | m in Numbers(a) && m < n) == (set m | m in Numbers(b) && m < n);
  }
}
