// The state of a controller as text: ConfigState::Write and ConfigState::Read
// (src/Application/ConfigState/ConfigState.cpp), with and without the fields that are not replicated.
// A writer yields its text followed by the text written after it.

module StateCodec {
  import opened Bytes
  import opened Decimal
  import opened KeyedLists
  import opened Formatting
  import opened Schema

  const PREFIX: byte := 67
  const YES: byte := 89
  const NO: byte := 78
  const LETTER_P: byte := 80
  const LETTER_O: byte := 79

  // A Readf whose result is checked against a least number of bytes and then advanced over.
  function Field(kinds: seq<Kind>, least: nat, b: bytes): (r: Parsed<seq<Item>>)
    ensures r.Got? ==> Kinds(r.value) == kinds && |r.rest| + |kinds| <= |b|
  {
    match Scan(kinds, b)
    case NoMatch => Failed
    case AssertFailed => Asserted
    case Matched(items, rest) => if |b| - |rest| < least then Failed else Got(items, rest)
  }

  lemma FieldRoundTrip(items: seq<Item>, least: nat, rest: bytes)
    requires (forall i :: i in items ==> Fits(i)) && Separated(items, rest)
    ensures Field(Kinds(items), least, Render(items, rest)) ==
              if |Render(items, [])| < least then Failed else Got(items, rest)
  {
    RoundTrip(items, rest);
    RenderAppends(items, rest);
  }

  lemma {:induction false} RenderLength(items: seq<Item>)
    ensures |Render(items, [])| >= |items|
  {
    if items != [] { RenderLength(items[1..]); }
  }

  // ---- lists of numbers

  function IDListText(ids: seq<nat>, rest: bytes): bytes { Render([U32(|ids|)], NumbersText(ids, rest)) }

  // Add of a sorted or a plain list.
  function AddTo(sorted: bool, ids: seq<nat>, id: nat): seq<nat> { if sorted then AddSorted(ids, id) else ids + [id] }

  function ReadNumbers(num: nat, sorted: bool, ids: seq<nat>, b: bytes): Parsed<seq<nat>> {
    if num == 0 then Got(ids, b)
    else
      var s :- Field([KSEP], 1, b);
      var f :- Field([KU64], 1, s.rest);
      ReadNumbers(num - 1, sorted, AddTo(sorted, ids, f.value[0].n), f.rest)
  }

  function ReadIDList(sorted: bool, b: bytes): Parsed<seq<nat>> {
    var f :- Field([KU32], 1, b);
    ReadNumbers(f.value[0].n, sorted, [], f.rest)
  }

  predicate ListFits(ids: seq<nat>) { |ids| < TWO_TO_32 && forall id :: id in ids ==> id < TWO_TO_64 }

  lemma OneNumber(n: nat, wide: bool, rest: bytes)
    requires n < TWO_TO_64 && (!wide ==> n < TWO_TO_32) && NoDigitFirst(rest)
    ensures var i := if wide then U64(n) else U32(n);
            Field([KindOf(i)], 1, Render([i], rest)) == Got([i], rest)
  {
    var i := if wide then U64(n) else U32(n);
    assert Kinds([i]) == [KindOf(i)];
    FieldRoundTrip([i], 1, rest);
    assert Render([i], []) == ItemText(i) + [];
  }

  lemma OneSeparator(rest: bytes)
    ensures Field([KSEP], 1, Render([SEP], rest)) == Got([SEP], rest)
  {
    assert Kinds([SEP]) == [KSEP];
    FieldRoundTrip([SEP], 1, rest);
    assert Render([SEP], []) == [COLON] + [];
  }

  lemma SplitPair(a: Item, b: Item, rest: bytes)
    ensures Render([a, b], rest) == Render([a], Render([b], rest))
  {
    assert [a, b] == [a] + [b];
    RenderConcat([a], [b], rest);
  }

  lemma NumbersStart(ids: seq<nat>, rest: bytes)
    requires NoDigitFirst(rest)
    ensures NoDigitFirst(NumbersText(ids, rest))
  {}

  lemma {:induction false} SortedPrefix(a: seq<nat>, x: nat, b: seq<nat>)
    requires Sorted(a + [x] + b)
    ensures AddSorted(a, x) == a + [x]
  {
    forall y | y in a ensures y <= x { SortedOrder(a + [x] + b, a, x, b, y); }
    AddLargest(a, x);
  }

  lemma {:induction false} SortedOrder(l: seq<nat>, a: seq<nat>, x: nat, b: seq<nat>, y: nat)
    requires l == a + [x] + b && Sorted(l) && y in a
    ensures y <= x
    decreases |a|
  {
    assert l[0] == a[0] && x in l[1..] by { assert l[|a|] == x && l[1..][|a| - 1] == x; }
    if y != a[0] { SortedOrder(l[1..], a[1..], x, b, y); }
  }

  lemma {:induction false} NumbersRoundTrip(ids: seq<nat>, sorted: bool, done: seq<nat>, rest: bytes)
    requires NoDigitFirst(rest) && (forall id :: id in ids ==> id < TWO_TO_64) && (sorted ==> Sorted(done + ids))
    ensures ReadNumbers(|ids|, sorted, done, NumbersText(ids, rest)) == Got(done + ids, rest)
    decreases |ids|
  {
    hide Field, Sorted, NoDigitFirst, Digits;
    if ids == [] {
      assert done + ids == done;
    } else {
      var id, more := ids[0], ids[1..];
      assert id in ids && forall n :: n in more ==> n in ids;
      var tail := NumbersText(more, rest);
      NumbersStart(more, rest);
      SplitPair(SEP, U64(id), tail);
      OneSeparator(Render([U64(id)], tail));
      OneNumber(id, true, tail);
      assert done + ids == done + [id] + more == (done + [id]) + more;
      if sorted { SortedPrefix(done, id, more); }
      hide Render;
      NumbersRoundTrip(more, sorted, done + [id], rest);
    }
  }

  lemma IDListRoundTrip(ids: seq<nat>, sorted: bool, rest: bytes)
    requires NoDigitFirst(rest) && ListFits(ids) && (sorted ==> Sorted(ids))
    ensures ReadIDList(sorted, IDListText(ids, rest)) == Got(ids, rest)
  {
    hide Field, ReadNumbers, NoDigitFirst;
    NumbersStart(ids, rest);
    OneNumber(|ids|, false, NumbersText(ids, rest));
    assert [] + ids == ids;
    NumbersRoundTrip(ids, sorted, [], rest);
  }

  // ---- lists of objects: a count, then a colon and the object for each

  function ObjectsText<T>(xs: seq<T>, write: (T, bytes) -> bytes, rest: bytes): bytes {
    if xs == [] then rest else Render([SEP], write(xs[0], ObjectsText(xs[1..], write, rest)))
  }

  function ListText<T>(xs: seq<T>, write: (T, bytes) -> bytes, rest: bytes): bytes {
    Render([U32(|xs|)], ObjectsText(xs, write, rest))
  }

  function ReadObjects<T>(num: nat, read: bytes -> Parsed<T>, b: bytes): Parsed<seq<T>> {
    if num == 0 then Got([], b)
    else
      var s :- Field([KSEP], 1, b);
      var x :- read(s.rest);
      var xs :- ReadObjects(num - 1, read, x.rest);
      Got([x.value] + xs.value, xs.rest)
  }

  function ReadList<T>(read: bytes -> Parsed<T>, b: bytes): Parsed<seq<T>> {
    var f :- Field([KU32], 1, b);
    ReadObjects(f.value[0].n, read, f.rest)
  }

  function Map<T, U>(f: T -> U, xs: seq<T>): (r: seq<U>)
    ensures |r| == |xs| && forall i :: 0 <= i < |xs| ==> r[i] == f(xs[i])
  {
    seq(|xs|, i requires 0 <= i < |xs| => f(xs[i]))
  }

  // Reading a written object gives its projection if the object is good, and fails otherwise.
  ghost predicate Undoes<T>(x: T, write: (T, bytes) -> bytes, read: bytes -> Parsed<T>, good: T -> bool, project: T -> T) {
    forall k: bytes :: NoDigitFirst(k) ==> read(write(x, k)) == if good(x) then Got(project(x), k) else Failed
  }

  lemma ObjectsStart<T>(xs: seq<T>, write: (T, bytes) -> bytes, rest: bytes)
    requires NoDigitFirst(rest)
    ensures NoDigitFirst(ObjectsText(xs, write, rest))
  {}

  lemma {:induction false} ObjectsRoundTrip<T>(
      xs: seq<T>, write: (T, bytes) -> bytes, read: bytes -> Parsed<T>, good: T -> bool, project: T -> T, rest: bytes)
    requires NoDigitFirst(rest) && forall x :: x in xs ==> Undoes(x, write, read, good, project)
    ensures ReadObjects(|xs|, read, ObjectsText(xs, write, rest)) ==
              if forall x :: x in xs ==> good(x) then Got(Map(project, xs), rest) else Failed
  {
    hide Field, NoDigitFirst, Render;
    if xs == [] {
      assert Map(project, xs) == [];
    } else {
      var x, more := xs[0], xs[1..];
      assert x in xs && forall y :: y in more ==> y in xs;
      assert forall y :: y in xs <==> y == x || y in more;
      var tail := ObjectsText(more, write, rest);
      ObjectsStart(more, write, rest);
      assert Undoes(x, write, read, good, project);
      assert read(write(x, tail)) == if good(x) then Got(project(x), tail) else Failed;
      assert Map(project, xs) == [project(x)] + Map(project, more);
      hide Undoes, Map;
      OneSeparator(write(x, tail));
      ObjectsRoundTrip(more, write, read, good, project, rest);
    }
  }

  lemma ListRoundTrip<T>(
      xs: seq<T>, write: (T, bytes) -> bytes, read: bytes -> Parsed<T>, good: T -> bool, project: T -> T, rest: bytes)
    requires NoDigitFirst(rest) && |xs| < TWO_TO_32 && forall x :: x in xs ==> Undoes(x, write, read, good, project)
    ensures ReadList(read, ListText(xs, write, rest)) ==
              if forall x :: x in xs ==> good(x) then Got(Map(project, xs), rest) else Failed
  {
    hide Field, NoDigitFirst;
    ObjectsStart(xs, write, rest);
    OneNumber(|xs|, false, ObjectsText(xs, write, rest));
    ObjectsRoundTrip(xs, write, read, good, project, rest);
  }

  // ---- an optional number, marked by Y or N

  function OptionText(there: bool, n: nat, rest: bytes): bytes {
    if there then Render([Chr(YES), SEP, U64(n)], rest) else Render([Chr(NO)], rest)
  }

  // Only Y announces a number.
  function ReadOption(b: bytes): Parsed<Option<nat>> {
    var c :- Field([KChr], 1, b);
    if c.value[0].c != YES then Got(None, c.rest)
    else
      var s :- Field([KSEP], 1, c.rest);
      var f :- Field([KU64], 1, s.rest);
      Got(Some(f.value[0].n), f.rest)
  }

  lemma OneCharacter(c: byte, rest: bytes)
    ensures Field([KChr], 1, Render([Chr(c)], rest)) == Got([Chr(c)], rest)
  {
    assert Kinds([Chr(c)]) == [KChr];
    FieldRoundTrip([Chr(c)], 1, rest);
    assert Render([Chr(c)], []) == [c] + [];
  }

  lemma OptionRoundTrip(there: bool, n: nat, rest: bytes)
    requires n < TWO_TO_64 && NoDigitFirst(rest)
    ensures ReadOption(OptionText(there, n, rest)) == Got(if there then Some(n) else None, rest)
  {
    if there {
      assert [Chr(YES), SEP, U64(n)] == [Chr(YES)] + [SEP, U64(n)];
      RenderConcat([Chr(YES)], [SEP, U64(n)], rest);
      SplitPair(SEP, U64(n), rest);
      hide Field, Render, NoDigitFirst;
      OneCharacter(YES, Render([SEP], Render([U64(n)], rest)));
      OneSeparator(Render([U64(n)], rest));
      OneNumber(n, true, rest);
    } else {
      OneCharacter(NO, rest);
    }
  }

  // ---- quorums

  function QuorumText(q: Keyed<Quorum>, volatile: bool, rest: bytes): bytes {
    Render([U64(q.id), SEP, Text(q.obj.name)], Render([SEP],
      IDListText(q.obj.activeNodes, Render([SEP],
        IDListText(q.obj.inactiveNodes, Render([SEP],
          IDListText(q.obj.shards, if volatile then QuorumTail(q.obj, rest) else rest)))))))
  }

  function QuorumTail(q: Quorum, rest: bytes): bytes {
    Render([SEP], Render([U64(q.configID)], Render([SEP],
      OptionText(q.isActivatingNode, q.activatingNodeID, Render([SEP, U64(q.paxosID), SEP],
        OptionText(q.hasPrimary, q.primaryID, rest))))))
  }

  function ReadQuorum(volatile: bool, b: bytes): Parsed<Keyed<Quorum>> {
    var f :- Field([KU64, KSEP, KText], 4, b);
    var s1 :- Field([KSEP], 1, f.rest);
    var active :- ReadIDList(true, s1.rest);
    var s2 :- Field([KSEP], 1, active.rest);
    var inactive :- ReadIDList(true, s2.rest);
    var s3 :- Field([KSEP], 1, inactive.rest);
    var shards :- ReadIDList(true, s3.rest);
    var q := NewQuorum.(name := f.value[2].s, activeNodes := active.value, inactiveNodes := inactive.value,
                        shards := shards.value);
    if !volatile then Got(Keyed(f.value[0].n, q), shards.rest)
    else
      var t :- ReadQuorumTail(q, shards.rest);
      Got(Keyed(f.value[0].n, t.value), t.rest)
  }

  function ReadQuorumTail(q: Quorum, b: bytes): Parsed<Quorum> {
    var s1 :- Field([KSEP], 1, b);
    var c :- Field([KU64], 1, s1.rest);
    var s2 :- Field([KSEP], 1, c.rest);
    var activating :- ReadOption(s2.rest);
    var q1 := q.(configID := c.value[0].n, isActivatingNode := activating.value.Some?,
                 activatingNodeID := if activating.value.Some? then activating.value.value else 0);
    ReadPrimary(q1, activating.rest)
  }

  function ReadPrimary(q: Quorum, b: bytes): Parsed<Quorum> {
    var p :- Field([KSEP, KU64, KSEP], 3, b);
    var primary :- ReadOption(p.rest);
    Got(q.(paxosID := p.value[1].n, hasPrimary := primary.value.Some?,
           primaryID := if primary.value.Some? then primary.value.value else 0), primary.rest)
  }

  // What is kept of a quorum.
  function QuorumKept(q: Quorum, volatile: bool): Quorum {
    var kept := NewQuorum.(name := q.name, activeNodes := q.activeNodes, inactiveNodes := q.inactiveNodes, shards := q.shards);
    if volatile then
      kept.(configID := q.configID, paxosID := q.paxosID,
            isActivatingNode := q.isActivatingNode, activatingNodeID := if q.isActivatingNode then q.activatingNodeID else 0,
            hasPrimary := q.hasPrimary, primaryID := if q.hasPrimary then q.primaryID else 0)
    else kept
  }

  predicate QuorumFits(q: Keyed<Quorum>) {
    q.id < TWO_TO_64 && |q.obj.name| < TWO_TO_32
    && ListFits(q.obj.activeNodes) && ListFits(q.obj.inactiveNodes) && ListFits(q.obj.shards)
    && Sorted(q.obj.activeNodes) && Sorted(q.obj.inactiveNodes) && Sorted(q.obj.shards)
    && q.obj.configID < TWO_TO_64 && q.obj.activatingNodeID < TWO_TO_64 && q.obj.paxosID < TWO_TO_64
    && q.obj.primaryID < TWO_TO_64
  }

  // A number, a colon and a text with its length take at least four bytes.
  lemma IDAndName(id: nat, name: bytes, rest: bytes)
    requires id < TWO_TO_64 && |name| < TWO_TO_32
    ensures Scan([KU64, KSEP, KText], Render([U64(id), SEP, Text(name)], rest)) == Matched([U64(id), SEP, Text(name)], rest)
    ensures |Render([U64(id), SEP, Text(name)], rest)| - |rest| == |Digits(id)| + |Digits(|name|)| + |name| + 2
  {
    var items := [U64(id), SEP, Text(name)];
    assert Kinds(items) == [KU64, KSEP, KText];
    RoundTrip(items, rest);
    hide Scan, Digits;
    assert items[1..] == [SEP, Text(name)] && items[1..][1..] == [Text(name)] && items[1..][1..][1..] == [];
    assert Render([Text(name)], rest) == ItemText(Text(name)) + rest;
    assert Render([SEP, Text(name)], rest) == [COLON] + Render([Text(name)], rest);
  }

  lemma EnclosedNumber(n: nat, rest: bytes)
    requires n < TWO_TO_64
    ensures Field([KSEP, KU64, KSEP], 3, Render([SEP, U64(n), SEP], rest)) == Got([SEP, U64(n), SEP], rest)
    ensures NoDigitFirst(Render([SEP, U64(n), SEP], rest))
  {
    var f := [SEP, U64(n), SEP];
    assert Kinds(f) == [KSEP, KU64, KSEP];
    RenderLength(f);
    FieldRoundTrip(f, 3, rest);
  }

  lemma QuorumTailRoundTrip(q: Keyed<Quorum>, kept: Quorum, rest: bytes)
    requires q.obj.configID < TWO_TO_64 && q.obj.activatingNodeID < TWO_TO_64 && q.obj.paxosID < TWO_TO_64
    requires q.obj.primaryID < TWO_TO_64 && NoDigitFirst(rest) && kept == QuorumKept(q.obj, false)
    ensures ReadQuorumTail(kept, QuorumTail(q.obj, rest)) == Got(QuorumKept(q.obj, true), rest)
  {
    var b6 := OptionText(q.obj.hasPrimary, q.obj.primaryID, rest);
    var b5 := Render([SEP, U64(q.obj.paxosID), SEP], b6);
    var b4 := OptionText(q.obj.isActivatingNode, q.obj.activatingNodeID, b5);
    EnclosedNumber(q.obj.paxosID, b6);
    var b2 := Render([SEP], b4);
    var b1 := Render([U64(q.obj.configID)], b2);
    assert NoDigitFirst(b2) && NoDigitFirst(b4);
    hide Field, Render, ReadOption, OptionText, NoDigitFirst;
    OneSeparator(b1);
    OneNumber(q.obj.configID, true, b2);
    OneSeparator(b4);
    OptionRoundTrip(q.obj.isActivatingNode, q.obj.activatingNodeID, b5);
    OptionRoundTrip(q.obj.hasPrimary, q.obj.primaryID, rest);
  }

  lemma QuorumRoundTrip(q: Keyed<Quorum>, volatile: bool, rest: bytes)
    requires QuorumFits(q) && NoDigitFirst(rest)
    ensures ReadQuorum(volatile, QuorumText(q, volatile, rest)) == Got(Keyed(q.id, QuorumKept(q.obj, volatile)), rest)
  {
    var t4 := if volatile then QuorumTail(q.obj, rest) else rest;
    var b3 := IDListText(q.obj.shards, t4);
    var t3 := Render([SEP], b3);
    var b2 := IDListText(q.obj.inactiveNodes, t3);
    var t2 := Render([SEP], b2);
    var b1 := IDListText(q.obj.activeNodes, t2);
    var t1 := Render([SEP], b1);
    assert NoDigitFirst(t2) && NoDigitFirst(t3) && NoDigitFirst(t4);
    assert Field([KU64, KSEP, KText], 4, Render([U64(q.id), SEP, Text(q.obj.name)], t1)) == Got([U64(q.id), SEP, Text(q.obj.name)], t1) by {
      IDAndName(q.id, q.obj.name, t1);
    }
    hide Field, Render, IDListText, ReadIDList, NoDigitFirst, ReadQuorumTail, QuorumTail, Sorted;
    OneSeparator(b1);
    IDListRoundTrip(q.obj.activeNodes, true, t2);
    OneSeparator(b2);
    IDListRoundTrip(q.obj.inactiveNodes, true, t3);
    OneSeparator(b3);
    IDListRoundTrip(q.obj.shards, true, t4);
    if volatile { QuorumTailRoundTrip(q, QuorumKept(q.obj, false), rest); }
  }

  // ---- databases and tables

  function DatabaseText(d: Keyed<Database>, rest: bytes): bytes {
    Render([U64(d.id), SEP, Text(d.obj.name)], Render([SEP], IDListText(d.obj.tables, rest)))
  }

  // The reader asks for five bytes here, one more than the shortest text has.
  function ReadDatabase(b: bytes): Parsed<Keyed<Database>> {
    var f :- Field([KU64, KSEP, KText], 5, b);
    var s :- Field([KSEP], 1, f.rest);
    var tables :- ReadIDList(false, s.rest);
    Got(Keyed(f.value[0].n, Database(f.value[2].s, tables.value)), tables.rest)
  }

  predicate DatabaseFits(d: Keyed<Database>) {
    d.id < TWO_TO_64 && |d.obj.name| < TWO_TO_32 && ListFits(d.obj.tables)
  }

  predicate DatabaseReadable(d: Keyed<Database>) { d.obj.name != [] || d.id >= 10 }

  lemma DatabaseRoundTrip(d: Keyed<Database>, rest: bytes)
    requires DatabaseFits(d) && NoDigitFirst(rest)
    ensures ReadDatabase(DatabaseText(d, rest)) == if DatabaseReadable(d) then Got(d, rest) else Failed
  {
    var b := IDListText(d.obj.tables, rest);
    var t := Render([SEP], b);
    IDAndName(d.id, d.obj.name, t);
    assert |Digits(d.id)| + |Digits(|d.obj.name|)| + |d.obj.name| + 2 >= 5 <==> DatabaseReadable(d);
    hide Render, IDListText, ReadIDList, NoDigitFirst, Scan;
    OneSeparator(b);
    IDListRoundTrip(d.obj.tables, false, rest);
  }

  function TableItems(t: Keyed<Table>): seq<Item> {
    [U64(t.obj.databaseID), SEP, U64(t.id), SEP, Text(t.obj.name), SEP, Flag(t.obj.isFrozen)]
  }

  function TableText(t: Keyed<Table>, rest: bytes): bytes {
    Render(TableItems(t), Render([SEP], IDListText(t.obj.shards, rest)))
  }

  function ReadTable(b: bytes): Parsed<Keyed<Table>> {
    var f :- Field([KU64, KSEP, KU64, KSEP, KText, KSEP, KFlag], 5, b);
    var s :- Field([KSEP], 1, f.rest);
    var shards :- ReadIDList(false, s.rest);
    var v := f.value;
    Got(Keyed(v[2].n, Table(v[0].n, v[4].s, v[6].v, shards.value)), shards.rest)
  }

  predicate TableFits(t: Keyed<Table>) {
    t.id < TWO_TO_64 && t.obj.databaseID < TWO_TO_64 && |t.obj.name| < TWO_TO_32 && ListFits(t.obj.shards)
  }

  lemma TableItemsRead(t: Keyed<Table>, rest: bytes)
    requires TableFits(t)
    ensures Field([KU64, KSEP, KU64, KSEP, KText, KSEP, KFlag], 5, Render(TableItems(t), rest)) == Got(TableItems(t), rest)
  {
    var items := TableItems(t);
    assert Kinds(items) == [KU64, KSEP, KU64, KSEP, KText, KSEP, KFlag];
    FieldRoundTrip(items, 5, rest);
    RenderLength(items);
  }

  lemma TableRoundTrip(t: Keyed<Table>, rest: bytes)
    requires TableFits(t) && NoDigitFirst(rest)
    ensures ReadTable(TableText(t, rest)) == Got(t, rest)
  {
    var b := IDListText(t.obj.shards, rest);
    hide Field, Render, IDListText, ReadIDList, NoDigitFirst;
    TableItemsRead(t, Render([SEP], b));
    OneSeparator(b);
    IDListRoundTrip(t.obj.shards, false, rest);
  }

  // ---- shards

  function ShardItems(sh: Keyed<Shard>): seq<Item> {
    [U64(sh.obj.quorumID), SEP, U64(sh.obj.tableID), SEP, U64(sh.id), SEP,
     Text(sh.obj.firstKey), SEP, Text(sh.obj.lastKey), SEP, U32(sh.obj.state), SEP, U64(sh.obj.parentShardID)]
  }

  const SHARD_KINDS: seq<Kind> :=
    [KU64, KSEP, KU64, KSEP, KU64, KSEP, KText, KSEP, KText, KSEP, KU32, KSEP, KU64]

  function ShardText(sh: Keyed<Shard>, volatile: bool, rest: bytes): bytes {
    Render(ShardItems(sh),
      if volatile then Render([SEP, U64(sh.obj.shardSize), SEP, Text(sh.obj.splitKey)], rest) else rest)
  }

  function ReadShard(volatile: bool, b: bytes): Parsed<Keyed<Shard>> {
    var f :- Field(SHARD_KINDS, 15, b);
    var v := f.value;
    var shard := Shard(v[0].n, v[2].n, v[10].n, v[12].n, v[6].s, v[8].s, 0, [], false);
    if !volatile then Got(Keyed(v[4].n, shard), f.rest)
    else
      var t :- Field([KSEP, KU64, KSEP, KText], 5, f.rest);
      Got(Keyed(v[4].n, shard.(shardSize := t.value[1].n, splitKey := t.value[3].s)), t.rest)
  }

  function ShardKept(sh: Shard, volatile: bool): Shard {
    if volatile then sh.(isSplitable := false) else sh.(shardSize := 0, splitKey := [], isSplitable := false)
  }

  predicate ShardFits(sh: Keyed<Shard>) {
    sh.id < TWO_TO_64 && sh.obj.quorumID < TWO_TO_64 && sh.obj.tableID < TWO_TO_64 && sh.obj.state < TWO_TO_32
    && sh.obj.parentShardID < TWO_TO_64 && |sh.obj.firstKey| < TWO_TO_32 && |sh.obj.lastKey| < TWO_TO_32
    && sh.obj.shardSize < TWO_TO_64 && |sh.obj.splitKey| < TWO_TO_32
  }

  lemma ShardItemsFit(sh: Keyed<Shard>, rest: bytes)
    requires ShardFits(sh) && NoDigitFirst(rest)
    ensures Kinds(ShardItems(sh)) == SHARD_KINDS && Separated(ShardItems(sh), rest)
    ensures forall i :: i in ShardItems(sh) ==> Fits(i)
  {}

  lemma ShardItemsLength(sh: Keyed<Shard>)
    ensures |Render(ShardItems(sh), [])| >= 15
  {
    var a, k := ShardItems(sh)[..6], ShardItems(sh)[6..];
    assert ShardItems(sh) == a + k;
    RenderConcat(a, k, []);
    RenderAppends(a, Render(k, []));
    RenderLength(a);
    TwoTextsLength(sh.obj.firstKey, sh.obj.lastKey, k);
  }

  lemma ShardItemsRead(sh: Keyed<Shard>, rest: bytes)
    requires ShardFits(sh) && NoDigitFirst(rest)
    ensures Field(SHARD_KINDS, 15, Render(ShardItems(sh), rest)) == Got(ShardItems(sh), rest)
  {
    hide ShardItems, ShardFits, NoDigitFirst, Field, Render, Separated;
    ShardItemsFit(sh, rest);
    ShardItemsLength(sh);
    FieldRoundTrip(ShardItems(sh), 15, rest);
  }

  // Each empty text takes two bytes.
  lemma TwoTextsLength(s: bytes, t: bytes, k: seq<Item>)
    requires |k| == 7 && k[0] == Text(s) && k[2] == Text(t)
    ensures |Render(k, [])| >= 9
  {
    RenderLength(k[3..]);
    assert k[1..][1..] == k[2..] && k[2..][1..] == k[3..];
    assert Render(k[2..], []) == ItemText(k[2]) + Render(k[3..], []);
    assert Render(k[1..], []) == ItemText(k[1]) + Render(k[2..], []);
    assert Render(k, []) == ItemText(k[0]) + Render(k[1..], []);
  }

  lemma ShardTailRead(sh: Keyed<Shard>, rest: bytes)
    requires ShardFits(sh)
    ensures var tail := [SEP, U64(sh.obj.shardSize), SEP, Text(sh.obj.splitKey)];
            Field([KSEP, KU64, KSEP, KText], 5, Render(tail, rest)) == Got(tail, rest) && NoDigitFirst(Render(tail, rest))
  {
    var tail := [SEP, U64(sh.obj.shardSize), SEP, Text(sh.obj.splitKey)];
    assert Kinds(tail) == [KSEP, KU64, KSEP, KText];
    FieldRoundTrip(tail, 5, rest);
    assert tail == [SEP, U64(sh.obj.shardSize), SEP] + [Text(sh.obj.splitKey)];
    RenderConcat([SEP, U64(sh.obj.shardSize), SEP], [Text(sh.obj.splitKey)], []);
    RenderAppends([SEP, U64(sh.obj.shardSize), SEP], Render([Text(sh.obj.splitKey)], []));
    RenderLength([SEP, U64(sh.obj.shardSize), SEP]);
    assert Render([Text(sh.obj.splitKey)], []) == ItemText(Text(sh.obj.splitKey)) + [];
  }

  lemma ShardRoundTrip(sh: Keyed<Shard>, volatile: bool, rest: bytes)
    requires ShardFits(sh) && NoDigitFirst(rest)
    ensures ReadShard(volatile, ShardText(sh, volatile, rest)) == Got(Keyed(sh.id, ShardKept(sh.obj, volatile)), rest)
  {
    hide Field, Render, NoDigitFirst, ShardFits;
    if volatile {
      ShardTailRead(sh, rest);
      ShardItemsRead(sh, Render([SEP, U64(sh.obj.shardSize), SEP, Text(sh.obj.splitKey)], rest));
    } else {
      ShardItemsRead(sh, rest);
    }
  }

  // ---- shard servers

  function InfoItems(info: QuorumInfo): seq<Item> {
    [SEP, U64(info.quorumID), SEP, U64(info.paxosID), SEP, Flag(info.needCatchup), SEP, U64(info.unused1), SEP,
     U64(info.unused2), SEP, U64(info.unused3)]
  }

  const INFO_KINDS: seq<Kind> := [KSEP, KU64, KSEP, KU64, KSEP, KFlag, KSEP, KU64, KSEP, KU64, KSEP, KU64]

  function InfosText(infos: seq<QuorumInfo>, rest: bytes): bytes {
    if infos == [] then rest else Render(InfoItems(infos[0]), InfosText(infos[1..], rest))
  }

  function ReadInfos(num: nat, b: bytes): Parsed<seq<QuorumInfo>> {
    if num == 0 then Got([], b)
    else
      var f :- Field(INFO_KINDS, 4, b);
      var more :- ReadInfos(num - 1, f.rest);
      Got([InfoOf(f.value)] + more.value, more.rest)
  }

  function InfoOf(v: seq<Item>): QuorumInfo
    requires Kinds(v) == INFO_KINDS
  {
    QuorumInfo(v[1].n, v[3].n, v[5].v, v[7].n, v[9].n, v[11].n)
  }

  predicate InfoFits(info: QuorumInfo) {
    info.quorumID < TWO_TO_64 && info.paxosID < TWO_TO_64 && info.unused1 < TWO_TO_64 && info.unused2 < TWO_TO_64
    && info.unused3 < TWO_TO_64
  }

  lemma InfoItemsFit(info: QuorumInfo, rest: bytes)
    requires InfoFits(info) && NoDigitFirst(rest)
    ensures Kinds(InfoItems(info)) == INFO_KINDS && Separated(InfoItems(info), rest) && |InfoItems(info)| == 12
    ensures InfoOf(InfoItems(info)) == info
    ensures forall i :: i in InfoItems(info) ==> Fits(i)
  {}

  lemma InfoRead(info: QuorumInfo, rest: bytes)
    requires InfoFits(info) && NoDigitFirst(rest)
    ensures Field(INFO_KINDS, 4, Render(InfoItems(info), rest)) == Got(InfoItems(info), rest)
    ensures Kinds(InfoItems(info)) == INFO_KINDS && InfoOf(InfoItems(info)) == info
  {
    hide InfoItems, InfoOf, Field, Render, Separated, NoDigitFirst;
    InfoItemsFit(info, rest);
    RenderLength(InfoItems(info));
    FieldRoundTrip(InfoItems(info), 4, rest);
  }

  lemma InfosStart(infos: seq<QuorumInfo>, rest: bytes)
    requires NoDigitFirst(rest)
    ensures NoDigitFirst(InfosText(infos, rest))
  {}

  lemma {:induction false} InfosRoundTrip(infos: seq<QuorumInfo>, rest: bytes)
    requires NoDigitFirst(rest) && forall info :: info in infos ==> InfoFits(info)
    ensures ReadInfos(|infos|, InfosText(infos, rest)) == Got(infos, rest)
  {
    hide Field, Render, NoDigitFirst, InfoFits, InfoItems, InfoOf;
    if infos != [] {
      var info, more := infos[0], infos[1..];
      assert info in infos && forall x :: x in more ==> x in infos;
      InfosStart(more, rest);
      InfoRead(info, InfosText(more, rest));
      InfosRoundTrip(more, rest);
      assert infos == [info] + more;
    }
  }

  function PrioritiesText(l: seq<QuorumPriority>, rest: bytes): bytes {
    if l == [] then rest
    else Render([SEP, U64(l[0].quorumID), SEP, U64(l[0].priority)], PrioritiesText(l[1..], rest))
  }

  function ReadPriorities(num: nat, b: bytes): Parsed<seq<QuorumPriority>> {
    if num == 0 then Got([], b)
    else
      var f :- Field([KSEP, KU64, KSEP, KU64], 4, b);
      var more :- ReadPriorities(num - 1, f.rest);
      Got([QuorumPriority(f.value[1].n, f.value[3].n)] + more.value, more.rest)
  }

  // The list is marked by a letter O and may be missing.
  function ReadPriorityList(b: bytes): Parsed<seq<QuorumPriority>> {
    if b == [] || b[0] != LETTER_O then Got([], b)
    else
      var f :- Field([KLit(LETTER_O), KSEP, KU32], 3, b);
      ReadPriorities(f.value[2].n, f.rest)
  }

  function PriorityListText(l: seq<QuorumPriority>, rest: bytes): bytes {
    Render([Lit(LETTER_O), SEP, U32(|l|)], PrioritiesText(l, rest))
  }

  predicate PriorityFits(p: QuorumPriority) { p.quorumID < TWO_TO_64 && p.priority < TWO_TO_64 }

  lemma PriorityRead(p: QuorumPriority, rest: bytes)
    requires PriorityFits(p) && NoDigitFirst(rest)
    ensures var items := [SEP, U64(p.quorumID), SEP, U64(p.priority)];
            Field([KSEP, KU64, KSEP, KU64], 4, Render(items, rest)) == Got(items, rest)
  {
    var items := [SEP, U64(p.quorumID), SEP, U64(p.priority)];
    assert Kinds(items) == [KSEP, KU64, KSEP, KU64];
    RenderLength(items);
    FieldRoundTrip(items, 4, rest);
  }

  lemma PrioritiesStart(l: seq<QuorumPriority>, rest: bytes)
    requires NoDigitFirst(rest)
    ensures NoDigitFirst(PrioritiesText(l, rest))
  {}

  lemma {:induction false} PrioritiesRoundTrip(l: seq<QuorumPriority>, rest: bytes)
    requires NoDigitFirst(rest) && forall p :: p in l ==> PriorityFits(p)
    ensures ReadPriorities(|l|, PrioritiesText(l, rest)) == Got(l, rest)
  {
    if l != [] {
      var p, more := l[0], l[1..];
      assert p in l && forall x :: x in more ==> x in l;
      PrioritiesStart(more, rest);
      hide Field, Render, NoDigitFirst, PriorityFits;
      PriorityRead(p, PrioritiesText(more, rest));
      PrioritiesRoundTrip(more, rest);
      assert l == [p] + more;
    }
  }

  lemma PriorityListRoundTrip(l: seq<QuorumPriority>, rest: bytes)
    requires NoDigitFirst(rest) && |l| < TWO_TO_32 && forall p :: p in l ==> PriorityFits(p)
    ensures ReadPriorityList(PriorityListText(l, rest)) == Got(l, rest)
    ensures NoDigitFirst(PriorityListText(l, rest))
  {
    var items := [Lit(LETTER_O), SEP, U32(|l|)];
    assert Kinds(items) == [KLit(LETTER_O), KSEP, KU32];
    PrioritiesStart(l, rest);
    RenderLength(items);
    FieldRoundTrip(items, 3, PrioritiesText(l, rest));
    PrioritiesRoundTrip(l, rest);
  }

  function ServerText(v: Keyed<ShardServer>, volatile: bool, rest: bytes): bytes {
    Render([U64(v.id), SEP, Text(v.obj.endpoint)],
      if volatile then ServerTail(v.obj, PriorityListText(v.obj.quorumPriorities, rest))
      else PriorityListText(v.obj.quorumPriorities, rest))
  }

  function ServerTail(v: ShardServer, rest: bytes): bytes {
    Render([SEP, U32(v.httpPort), SEP, U32(v.sdbpPort), SEP, Flag(v.hasHeartbeat)], Render([SEP],
      Render([U32(|v.quorumInfos|)], InfosText(v.quorumInfos, rest))))
  }

  function ReadServer(volatile: bool, b: bytes): Parsed<Keyed<ShardServer>> {
    var f :- Field([KU64, KSEP, KText], 3, b);
    var server := NewShardServer(f.value[2].s);
    var t :- if volatile then ReadServerTail(server, f.rest) else Got(server, f.rest);
    var p :- ReadPriorityList(t.rest);
    Got(Keyed(f.value[0].n, t.value.(quorumPriorities := p.value)), p.rest)
  }

  function ReadServerTail(v: ShardServer, b: bytes): Parsed<ShardServer> {
    var f :- Field([KSEP, KU32, KSEP, KU32, KSEP, KFlag], 6, b);
    var s :- Field([KSEP], 1, f.rest);
    var n :- Field([KU32], 1, s.rest);
    var infos :- ReadInfos(n.value[0].n, n.rest);
    Got(v.(httpPort := f.value[1].n, sdbpPort := f.value[3].n, hasHeartbeat := f.value[5].v, quorumInfos := infos.value),
        infos.rest)
  }

  function ServerKept(v: ShardServer, volatile: bool): ShardServer {
    var kept := NewShardServer(v.endpoint).(quorumPriorities := v.quorumPriorities);
    if volatile then
      kept.(httpPort := v.httpPort, sdbpPort := v.sdbpPort, hasHeartbeat := v.hasHeartbeat, quorumInfos := v.quorumInfos)
    else kept
  }

  predicate ServerFits(v: Keyed<ShardServer>) {
    v.id < TWO_TO_64 && |v.obj.endpoint| < TWO_TO_32 && |v.obj.quorumPriorities| < TWO_TO_32
    && |v.obj.quorumInfos| < TWO_TO_32 && v.obj.httpPort < TWO_TO_32 && v.obj.sdbpPort < TWO_TO_32
    && (forall p :: p in v.obj.quorumPriorities ==> PriorityFits(p))
    && (forall info :: info in v.obj.quorumInfos ==> InfoFits(info))
  }

  lemma ServerTailRoundTrip(v: Keyed<ShardServer>, server: ShardServer, rest: bytes)
    requires ServerFits(v) && NoDigitFirst(rest)
    ensures ReadServerTail(server, ServerTail(v.obj, rest)) ==
              Got(server.(httpPort := v.obj.httpPort, sdbpPort := v.obj.sdbpPort, hasHeartbeat := v.obj.hasHeartbeat,
                          quorumInfos := v.obj.quorumInfos), rest)
  {
    var items := [SEP, U32(v.obj.httpPort), SEP, U32(v.obj.sdbpPort), SEP, Flag(v.obj.hasHeartbeat)];
    var b2 := InfosText(v.obj.quorumInfos, rest);
    var b1 := Render([U32(|v.obj.quorumInfos|)], b2);
    assert Kinds(items) == [KSEP, KU32, KSEP, KU32, KSEP, KFlag];
    RenderLength(items);
    FieldRoundTrip(items, 6, Render([SEP], b1));
    InfosStart(v.obj.quorumInfos, rest);
    hide Field, Render, NoDigitFirst, InfosText;
    OneSeparator(b1);
    OneNumber(|v.obj.quorumInfos|, false, b2);
    InfosRoundTrip(v.obj.quorumInfos, rest);
  }

  lemma EndpointRead(id: nat, endpoint: bytes, rest: bytes)
    requires id < TWO_TO_64 && |endpoint| < TWO_TO_32
    ensures Field([KU64, KSEP, KText], 3, Render([U64(id), SEP, Text(endpoint)], rest)) == Got([U64(id), SEP, Text(endpoint)], rest)
  {
    IDAndName(id, endpoint, rest);
  }

  lemma ServerRoundTrip(v: Keyed<ShardServer>, volatile: bool, rest: bytes)
    requires ServerFits(v) && NoDigitFirst(rest)
    ensures ReadServer(volatile, ServerText(v, volatile, rest)) == Got(Keyed(v.id, ServerKept(v.obj, volatile)), rest)
  {
    var b := PriorityListText(v.obj.quorumPriorities, rest);
    hide Field, Render, NoDigitFirst, PriorityListText, ReadPriorityList, ServerTail, ReadServerTail;
    PriorityListRoundTrip(v.obj.quorumPriorities, rest);
    if volatile {
      EndpointRead(v.id, v.obj.endpoint, ServerTail(v.obj, b));
      ServerTailRoundTrip(v, NewShardServer(v.obj.endpoint), b);
    } else {
      EndpointRead(v.id, v.obj.endpoint, b);
    }
  }

  // ---- the whole state

  function NextIDItems(s: State): seq<Item> {
    [U64(s.nextQuorumID), SEP, U64(s.nextDatabaseID), SEP, U64(s.nextTableID), SEP, U64(s.nextShardID), SEP,
     U64(s.nextNodeID)]
  }

  const NEXT_ID_KINDS: seq<Kind> := [KU64, KSEP, KU64, KSEP, KU64, KSEP, KU64, KSEP, KU64]

  function QuorumWriter(volatile: bool): (Keyed<Quorum>, bytes) -> bytes { (q, k) => QuorumText(q, volatile, k) }
  function ShardWriter(volatile: bool): (Keyed<Shard>, bytes) -> bytes { (sh, k) => ShardText(sh, volatile, k) }
  function ServerWriter(volatile: bool): (Keyed<ShardServer>, bytes) -> bytes { (v, k) => ServerText(v, volatile, k) }
  function QuorumReader(volatile: bool): bytes -> Parsed<Keyed<Quorum>> { b => ReadQuorum(volatile, b) }
  function ShardReader(volatile: bool): bytes -> Parsed<Keyed<Shard>> { b => ReadShard(volatile, b) }
  function ServerReader(volatile: bool): bytes -> Parsed<Keyed<ShardServer>> { b => ReadServer(volatile, b) }

  function BodyText(s: State, volatile: bool): bytes {
    Render(NextIDItems(s), Render([SEP],
      ListText(s.quorums, QuorumWriter(volatile), Render([SEP],
        ListText(s.databases, DatabaseText, Render([SEP],
          ListText(s.tables, TableText, Render([SEP],
            ListText(s.shards, ShardWriter(volatile), Render([SEP],
              ListText(s.shardServers, ServerWriter(volatile), [])))))))))))
  }

  function MasterText(s: State, rest: bytes): bytes {
    if s.hasMaster then
      Render([Chr(YES)], Render([SEP], Render([U64(s.masterID)], Render([SEP, Lit(LETTER_P), U64(s.paxosID)], rest))))
    else Render([Chr(NO)], rest)
  }

  function MigrationText(s: State, rest: bytes): bytes {
    if s.isMigrating then
      Render([Chr(YES)], Render([SEP],
        Render([U64(s.migrateSrcShardID), SEP, U64(s.migrateDstShardID), SEP, U64(s.migrateQuorumID)], rest)))
    else Render([Chr(NO)], rest)
  }

  function StateText(s: State, volatile: bool): bytes {
    if volatile then
      Render([Chr(PREFIX)], Render([SEP], MasterText(s, Render([SEP], MigrationText(s, Render([SEP], BodyText(s, true)))))))
    else BodyText(s, false)
  }

  // A counter is raised above every number that is read.
  function Repair<T>(next: nat, l: seq<Keyed<T>>): nat
    decreases |l|
  {
    if l == [] then next else Repair(if l[0].id >= next then l[0].id + 1 else next, l[1..])
  }

  function ReadNextIDs(s: State, b: bytes): Parsed<State> {
    var n :- Field(NEXT_ID_KINDS, 9, b);
    var v := n.value;
    Got(s.(nextQuorumID := v[0].n, nextDatabaseID := v[2].n, nextTableID := v[4].n, nextShardID := v[6].n,
           nextNodeID := v[8].n), n.rest)
  }

  function ReadQuorums(s: State, volatile: bool, b: bytes): Parsed<State> {
    var r :- ReadList(QuorumReader(volatile), b);
    Got(s.(quorums := r.value, nextQuorumID := Repair(s.nextQuorumID, r.value)), r.rest)
  }

  function ReadDatabases(s: State, b: bytes): Parsed<State> {
    var r :- ReadList(ReadDatabase, b);
    Got(s.(databases := r.value, nextDatabaseID := Repair(s.nextDatabaseID, r.value)), r.rest)
  }

  function ReadTables(s: State, b: bytes): Parsed<State> {
    var r :- ReadList(ReadTable, b);
    Got(s.(tables := r.value, nextTableID := Repair(s.nextTableID, r.value)), r.rest)
  }

  function ReadShards(s: State, volatile: bool, b: bytes): Parsed<State> {
    var r :- ReadList(ShardReader(volatile), b);
    Got(s.(shards := r.value, nextShardID := Repair(s.nextShardID, r.value)), r.rest)
  }

  function ReadShardServers(s: State, volatile: bool, b: bytes): Parsed<State> {
    var r :- ReadList(ServerReader(volatile), b);
    Got(s.(shardServers := r.value, nextNodeID := Repair(s.nextNodeID, r.value)), r.rest)
  }

  function ReadBody(s: State, volatile: bool, b: bytes): Parsed<State> {
    var n :- ReadNextIDs(s, b);
    var s1 :- Field([KSEP], 1, n.rest);
    var qs :- ReadQuorums(n.value, volatile, s1.rest);
    var s2 :- Field([KSEP], 1, qs.rest);
    var ds :- ReadDatabases(qs.value, s2.rest);
    var s3 :- Field([KSEP], 1, ds.rest);
    var ts :- ReadTables(ds.value, s3.rest);
    var s4 :- Field([KSEP], 1, ts.rest);
    var shs :- ReadShards(ts.value, volatile, s4.rest);
    var s5 :- Field([KSEP], 1, shs.rest);
    var vs :- ReadShardServers(shs.value, volatile, s5.rest);
    if vs.rest != [] then Failed else vs
  }

  // The log position behind the master may be missing.
  function ReadMaster(s: State, b: bytes): Parsed<State> {
    var c :- Field([KChr], 1, b);
    if c.value[0].c != YES then Got(s, c.rest)
    else
      var s1 :- Field([KSEP], 1, c.rest);
      var id :- Field([KU64], 1, s1.rest);
      match Scan([KSEP, KLit(LETTER_P), KU64], id.rest)
      case Matched(p, rest) => Got(s.(hasMaster := true, masterID := id.value[0].n, paxosID := p[2].n), rest)
      case NoMatch => Got(s.(hasMaster := true, masterID := id.value[0].n), id.rest)
      case AssertFailed => Asserted
  }

  function ReadMigration(s: State, b: bytes): Parsed<State> {
    var c :- Field([KChr], 1, b);
    if c.value[0].c != YES then Got(s, c.rest)
    else
      var s1 :- Field([KSEP], 1, c.rest);
      var f :- Field([KU64, KSEP, KU64, KSEP, KU64], 1, s1.rest);
      Got(s.(isMigrating := true, migrateSrcShardID := f.value[0].n, migrateDstShardID := f.value[2].n,
             migrateQuorumID := f.value[4].n), f.rest)
  }

  function ReadState(volatile: bool, b: bytes): Parsed<State> {
    if !volatile then ReadBody(EmptyState, false, b)
    else
      var c :- Field([KChr], 1, b);
      if c.value[0].c != PREFIX then Asserted
      else
        var s1 :- Field([KSEP], 1, c.rest);
        var m :- ReadMaster(EmptyState, s1.rest);
        var s2 :- Field([KSEP], 1, m.rest);
        var g :- ReadMigration(m.value, s2.rest);
        var s3 :- Field([KSEP], 1, g.rest);
        ReadBody(g.value, true, s3.rest)
  }

  // ---- reading back a written state

  function KeptQuorum(volatile: bool): Keyed<Quorum> -> Keyed<Quorum> { (q: Keyed<Quorum>) => Keyed(q.id, QuorumKept(q.obj, volatile)) }
  function KeptShard(volatile: bool): Keyed<Shard> -> Keyed<Shard> { (sh: Keyed<Shard>) => Keyed(sh.id, ShardKept(sh.obj, volatile)) }
  function KeptServer(volatile: bool): Keyed<ShardServer> -> Keyed<ShardServer> { (v: Keyed<ShardServer>) => Keyed(v.id, ServerKept(v.obj, volatile)) }

  // The part of a state that its text carries.
  function Written(s: State, volatile: bool): State {
    var r := EmptyState.(
      quorums := Map(KeptQuorum(volatile), s.quorums), databases := s.databases, tables := s.tables,
      shards := Map(KeptShard(volatile), s.shards), shardServers := Map(KeptServer(volatile), s.shardServers),
      nextQuorumID := s.nextQuorumID, nextDatabaseID := s.nextDatabaseID, nextTableID := s.nextTableID,
      nextShardID := s.nextShardID, nextNodeID := s.nextNodeID);
    if volatile then
      var m := if s.hasMaster then r.(hasMaster := true, masterID := s.masterID, paxosID := s.paxosID) else r;
      if s.isMigrating then
        m.(isMigrating := true, migrateSrcShardID := s.migrateSrcShardID, migrateDstShardID := s.migrateDstShardID,
           migrateQuorumID := s.migrateQuorumID)
      else m
    else r
  }

  predicate AllBelow<T>(l: seq<Keyed<T>>, next: nat) { forall i :: 0 <= i < |l| ==> l[i].id < next }

  // Numbers fit 64 bits, lengths 32, numbers are below their counters, lists of members are sorted.
  predicate StateFits(s: State) {
    && |s.quorums| < TWO_TO_32 && |s.databases| < TWO_TO_32 && |s.tables| < TWO_TO_32 && |s.shards| < TWO_TO_32
    && |s.shardServers| < TWO_TO_32
    && s.nextQuorumID < TWO_TO_64 && s.nextDatabaseID < TWO_TO_64 && s.nextTableID < TWO_TO_64 && s.nextShardID < TWO_TO_64
    && s.nextNodeID < TWO_TO_64 && s.masterID < TWO_TO_64 && s.paxosID < TWO_TO_64
    && s.migrateSrcShardID < TWO_TO_64 && s.migrateDstShardID < TWO_TO_64 && s.migrateQuorumID < TWO_TO_64
    && (forall q :: q in s.quorums ==> QuorumFits(q)) && (forall d :: d in s.databases ==> DatabaseFits(d))
    && (forall t :: t in s.tables ==> TableFits(t)) && (forall sh :: sh in s.shards ==> ShardFits(sh))
    && (forall v :: v in s.shardServers ==> ServerFits(v))
  }

  predicate CountersAbove(s: State) {
    && AllBelow(s.quorums, s.nextQuorumID) && AllBelow(s.databases, s.nextDatabaseID) && AllBelow(s.tables, s.nextTableID)
    && AllBelow(s.shards, s.nextShardID) && AllBelow(s.shardServers, s.nextNodeID)
  }

  lemma {:induction false} RepairIsNoOp<T>(next: nat, l: seq<Keyed<T>>)
    requires AllBelow(l, next)
    ensures Repair(next, l) == next
  {
    if l != [] {
      RepairIsNoOp(next, l[1..]);
    }
  }

  lemma KeptBelow<T>(f: Keyed<T> -> Keyed<T>, l: seq<Keyed<T>>, next: nat)
    requires AllBelow(l, next) && forall x :: f(x).id == x.id
    ensures AllBelow(Map(f, l), next)
  {}

  function Always<T>(): T -> bool { (x: T) => true }

  lemma QuorumsRoundTrip(l: seq<Keyed<Quorum>>, volatile: bool, rest: bytes)
    requires |l| < TWO_TO_32 && NoDigitFirst(rest) && forall q :: q in l ==> QuorumFits(q)
    ensures ReadList(QuorumReader(volatile), ListText(l, QuorumWriter(volatile), rest)) == Got(Map(KeptQuorum(volatile), l), rest)
  {
    var write, read := QuorumWriter(volatile), QuorumReader(volatile);
    hide QuorumFits, NoDigitFirst, ReadQuorum, QuorumText, QuorumKept;
    forall q | q in l ensures Undoes(q, write, read, Always<Keyed<Quorum>>(), KeptQuorum(volatile)) {
      forall k: bytes | NoDigitFirst(k) ensures read(write(q, k)) == Got(KeptQuorum(volatile)(q), k) {
        QuorumRoundTrip(q, volatile, k);
      }
    }
    hide Undoes, ListText, ReadList;
    ListRoundTrip(l, write, read, Always<Keyed<Quorum>>(), KeptQuorum(volatile), rest);
  }

  lemma ShardsRoundTrip(l: seq<Keyed<Shard>>, volatile: bool, rest: bytes)
    requires |l| < TWO_TO_32 && NoDigitFirst(rest) && forall sh :: sh in l ==> ShardFits(sh)
    ensures ReadList(ShardReader(volatile), ListText(l, ShardWriter(volatile), rest)) == Got(Map(KeptShard(volatile), l), rest)
  {
    var write, read := ShardWriter(volatile), ShardReader(volatile);
    hide ShardFits, NoDigitFirst, ReadShard, ShardText, ShardKept;
    forall sh | sh in l ensures Undoes(sh, write, read, Always<Keyed<Shard>>(), KeptShard(volatile)) {
      forall k: bytes | NoDigitFirst(k) ensures read(write(sh, k)) == Got(KeptShard(volatile)(sh), k) {
        ShardRoundTrip(sh, volatile, k);
      }
    }
    hide Undoes, ListText, ReadList;
    ListRoundTrip(l, write, read, Always<Keyed<Shard>>(), KeptShard(volatile), rest);
  }

  lemma ServersRoundTrip(l: seq<Keyed<ShardServer>>, volatile: bool, rest: bytes)
    requires |l| < TWO_TO_32 && NoDigitFirst(rest) && forall v :: v in l ==> ServerFits(v)
    ensures ReadList(ServerReader(volatile), ListText(l, ServerWriter(volatile), rest)) == Got(Map(KeptServer(volatile), l), rest)
  {
    var write, read := ServerWriter(volatile), ServerReader(volatile);
    hide ServerFits, NoDigitFirst, ReadServer, ServerText, ServerKept;
    forall v | v in l ensures Undoes(v, write, read, Always<Keyed<ShardServer>>(), KeptServer(volatile)) {
      forall k: bytes | NoDigitFirst(k) ensures read(write(v, k)) == Got(KeptServer(volatile)(v), k) {
        ServerRoundTrip(v, volatile, k);
      }
    }
    hide Undoes, ListText, ReadList;
    ListRoundTrip(l, write, read, Always<Keyed<ShardServer>>(), KeptServer(volatile), rest);
  }

  function Same<T>(): T -> T { (x: T) => x }

  lemma DatabasesRoundTrip(l: seq<Keyed<Database>>, rest: bytes)
    requires |l| < TWO_TO_32 && NoDigitFirst(rest) && forall d :: d in l ==> DatabaseFits(d)
    ensures ReadList(ReadDatabase, ListText(l, DatabaseText, rest)) ==
              if forall d :: d in l ==> DatabaseReadable(d) then Got(l, rest) else Failed
  {
    forall d | d in l ensures Undoes(d, DatabaseText, ReadDatabase, DatabaseReadable, Same<Keyed<Database>>()) {
      hide DatabaseFits, NoDigitFirst, ReadDatabase, DatabaseText, DatabaseReadable;
      forall k: bytes | NoDigitFirst(k) ensures ReadDatabase(DatabaseText(d, k)) == if DatabaseReadable(d) then Got(d, k) else Failed {
        DatabaseRoundTrip(d, k);
      }
    }
    hide Undoes, ListText, ReadList, DatabaseReadable;
    assert Map(Same<Keyed<Database>>(), l) == l;
    ListRoundTrip(l, DatabaseText, ReadDatabase, DatabaseReadable, Same<Keyed<Database>>(), rest);
  }

  lemma TablesRoundTrip(l: seq<Keyed<Table>>, rest: bytes)
    requires |l| < TWO_TO_32 && NoDigitFirst(rest) && forall t :: t in l ==> TableFits(t)
    ensures ReadList(ReadTable, ListText(l, TableText, rest)) == Got(l, rest)
  {
    forall t | t in l ensures Undoes(t, TableText, ReadTable, Always<Keyed<Table>>(), Same<Keyed<Table>>()) {
      hide TableFits, NoDigitFirst, ReadTable, TableText;
      forall k: bytes | NoDigitFirst(k) ensures ReadTable(TableText(t, k)) == Got(t, k) { TableRoundTrip(t, k); }
    }
    hide Undoes, ListText, ReadList;
    assert Map(Same<Keyed<Table>>(), l) == l;
    ListRoundTrip(l, TableText, ReadTable, Always<Keyed<Table>>(), Same<Keyed<Table>>(), rest);
  }

  lemma NextIDsRead(s: State, r: State, rest: bytes)
    requires StateFits(s) && NoDigitFirst(rest)
    ensures ReadNextIDs(r, Render(NextIDItems(s), rest)) ==
              Got(r.(nextQuorumID := s.nextQuorumID, nextDatabaseID := s.nextDatabaseID, nextTableID := s.nextTableID,
                     nextShardID := s.nextShardID, nextNodeID := s.nextNodeID), rest)
  {
    var items := NextIDItems(s);
    assert Kinds(items) == NEXT_ID_KINDS;
    RenderLength(items);
    FieldRoundTrip(items, 9, rest);
  }

  lemma ListStarts<T>(l: seq<T>, write: (T, bytes) -> bytes, rest: bytes)
    ensures NoDigitFirst(Render([SEP], ListText(l, write, rest)))
  {}

  lemma QuorumsRead(s: State, r: State, volatile: bool, rest: bytes)
    requires StateFits(s) && CountersAbove(s) && r.nextQuorumID == s.nextQuorumID && NoDigitFirst(rest)
    ensures ReadQuorums(r, volatile, ListText(s.quorums, QuorumWriter(volatile), rest)) ==
              Got(r.(quorums := Map(KeptQuorum(volatile), s.quorums)), rest)
  {
    hide QuorumFits, NoDigitFirst, ReadList, ListText;
    QuorumsRoundTrip(s.quorums, volatile, rest);
    KeptBelow(KeptQuorum(volatile), s.quorums, s.nextQuorumID);
    RepairIsNoOp(s.nextQuorumID, Map(KeptQuorum(volatile), s.quorums));
  }

  lemma DatabasesRead(s: State, r: State, rest: bytes)
    requires StateFits(s) && CountersAbove(s) && r.nextDatabaseID == s.nextDatabaseID && NoDigitFirst(rest)
    ensures ReadDatabases(r, ListText(s.databases, DatabaseText, rest)) ==
              if forall d :: d in s.databases ==> DatabaseReadable(d) then Got(r.(databases := s.databases), rest) else Failed
  {
    hide DatabaseFits, NoDigitFirst, ReadList, ListText, DatabaseReadable;
    DatabasesRoundTrip(s.databases, rest);
    RepairIsNoOp(s.nextDatabaseID, s.databases);
  }

  lemma TablesRead(s: State, r: State, rest: bytes)
    requires StateFits(s) && CountersAbove(s) && r.nextTableID == s.nextTableID && NoDigitFirst(rest)
    ensures ReadTables(r, ListText(s.tables, TableText, rest)) == Got(r.(tables := s.tables), rest)
  {
    hide TableFits, NoDigitFirst, ReadList, ListText;
    TablesRoundTrip(s.tables, rest);
    RepairIsNoOp(s.nextTableID, s.tables);
  }

  lemma ShardsRead(s: State, r: State, volatile: bool, rest: bytes)
    requires StateFits(s) && CountersAbove(s) && r.nextShardID == s.nextShardID && NoDigitFirst(rest)
    ensures ReadShards(r, volatile, ListText(s.shards, ShardWriter(volatile), rest)) ==
              Got(r.(shards := Map(KeptShard(volatile), s.shards)), rest)
  {
    hide ShardFits, NoDigitFirst, ReadList, ListText;
    ShardsRoundTrip(s.shards, volatile, rest);
    KeptBelow(KeptShard(volatile), s.shards, s.nextShardID);
    RepairIsNoOp(s.nextShardID, Map(KeptShard(volatile), s.shards));
  }

  lemma ServersRead(s: State, r: State, volatile: bool)
    requires StateFits(s) && CountersAbove(s) && r.nextNodeID == s.nextNodeID
    ensures ReadShardServers(r, volatile, ListText(s.shardServers, ServerWriter(volatile), [])) ==
              Got(r.(shardServers := Map(KeptServer(volatile), s.shardServers)), [])
  {
    assert NoDigitFirst([]);
    hide ServerFits, NoDigitFirst, ReadList, ListText;
    ServersRoundTrip(s.shardServers, volatile, []);
    KeptBelow(KeptServer(volatile), s.shardServers, s.nextNodeID);
    RepairIsNoOp(s.nextNodeID, Map(KeptServer(volatile), s.shardServers));
  }

  // The lists and counters of s in place of those of r.
  function WithLists(r: State, s: State, volatile: bool): State {
    r.(quorums := Map(KeptQuorum(volatile), s.quorums), databases := s.databases, tables := s.tables,
       shards := Map(KeptShard(volatile), s.shards), shardServers := Map(KeptServer(volatile), s.shardServers),
       nextQuorumID := s.nextQuorumID, nextDatabaseID := s.nextDatabaseID, nextTableID := s.nextTableID,
       nextShardID := s.nextShardID, nextNodeID := s.nextNodeID)
  }

  lemma BodyRoundTrip(s: State, r: State, volatile: bool)
    requires StateFits(s) && CountersAbove(s)
    ensures ReadBody(r, volatile, BodyText(s, volatile)) ==
              if forall d :: d in s.databases ==> DatabaseReadable(d) then Got(WithLists(r, s, volatile), []) else Failed
  {
    var b5 := ListText(s.shardServers, ServerWriter(volatile), []);
    var b4 := ListText(s.shards, ShardWriter(volatile), Render([SEP], b5));
    var b3 := ListText(s.tables, TableText, Render([SEP], b4));
    var b2 := ListText(s.databases, DatabaseText, Render([SEP], b3));
    var b1 := ListText(s.quorums, QuorumWriter(volatile), Render([SEP], b2));
    ListStarts(s.shardServers, ServerWriter(volatile), []);
    ListStarts(s.shards, ShardWriter(volatile), Render([SEP], b5));
    ListStarts(s.tables, TableText, Render([SEP], b4));
    ListStarts(s.databases, DatabaseText, Render([SEP], b3));
    ListStarts(s.quorums, QuorumWriter(volatile), Render([SEP], b2));
    hide StateFits, CountersAbove, NoDigitFirst, Field, Render, ListText, ReadNextIDs, ReadQuorums, ReadDatabases,
      ReadTables, ReadShards, ReadShardServers, DatabaseReadable, Map;
    var r1 := r.(nextQuorumID := s.nextQuorumID, nextDatabaseID := s.nextDatabaseID, nextTableID := s.nextTableID,
                 nextShardID := s.nextShardID, nextNodeID := s.nextNodeID);
    NextIDsRead(s, r, Render([SEP], b1));
    OneSeparator(b1);
    QuorumsRead(s, r1, volatile, Render([SEP], b2));
    var r2 := r1.(quorums := Map(KeptQuorum(volatile), s.quorums));
    OneSeparator(b2);
    DatabasesRead(s, r2, Render([SEP], b3));
    var r3 := r2.(databases := s.databases);
    OneSeparator(b3);
    TablesRead(s, r3, Render([SEP], b4));
    var r4 := r3.(tables := s.tables);
    OneSeparator(b4);
    ShardsRead(s, r4, volatile, Render([SEP], b5));
    var r5 := r4.(shards := Map(KeptShard(volatile), s.shards));
    OneSeparator(b5);
    ServersRead(s, r5, volatile);
  }

  lemma MasterRoundTrip(s: State, r: State, rest: bytes)
    requires StateFits(s) && NoDigitFirst(rest)
    ensures ReadMaster(r, MasterText(s, rest)) ==
              Got(if s.hasMaster then r.(hasMaster := true, masterID := s.masterID, paxosID := s.paxosID) else r, rest)
  {
    if s.hasMaster {
      var items := [SEP, Lit(LETTER_P), U64(s.paxosID)];
      assert Kinds(items) == [KSEP, KLit(LETTER_P), KU64];
      RoundTrip(items, rest);
      var b := Render(items, rest);
      assert NoDigitFirst(b);
      assert s.masterID < TWO_TO_64;
      hide StateFits, Field, Render, Scan, NoDigitFirst;
      OneCharacter(YES, Render([SEP], Render([U64(s.masterID)], b)));
      OneSeparator(Render([U64(s.masterID)], b));
      OneNumber(s.masterID, true, b);
    } else {
      OneCharacter(NO, rest);
    }
  }

  lemma MigrationRoundTrip(s: State, r: State, rest: bytes)
    requires StateFits(s) && NoDigitFirst(rest)
    ensures ReadMigration(r, MigrationText(s, rest)) ==
              Got(if s.isMigrating then r.(isMigrating := true, migrateSrcShardID := s.migrateSrcShardID,
                                           migrateDstShardID := s.migrateDstShardID, migrateQuorumID := s.migrateQuorumID)
                  else r, rest)
  {
    if s.isMigrating {
      var items := [U64(s.migrateSrcShardID), SEP, U64(s.migrateDstShardID), SEP, U64(s.migrateQuorumID)];
      assert Kinds(items) == [KU64, KSEP, KU64, KSEP, KU64];
      RenderLength(items);
      FieldRoundTrip(items, 1, rest);
      var b := Render(items, rest);
      hide StateFits, Field, Render, NoDigitFirst;
      OneCharacter(YES, Render([SEP], b));
      OneSeparator(b);
    } else {
      OneCharacter(NO, rest);
    }
  }

  // Main result: with the counters above the numbers in use, reading a written state gives what was
  // written, uses up the text and repairs nothing, unless some database with a one-digit number
  // has an empty name; then reading fails.
  lemma StateRoundTrip(s: State, volatile: bool)
    requires StateFits(s) && CountersAbove(s)
    ensures ReadState(volatile, StateText(s, volatile)) ==
              if forall d :: d in s.databases ==> DatabaseReadable(d) then Got(Written(s, volatile), []) else Failed
  {
    hide StateFits, CountersAbove, ReadBody, BodyText, DatabaseReadable, Map;
    if !volatile {
      BodyRoundTrip(s, EmptyState, false);
    } else {
      var b3 := Render([SEP], BodyText(s, true));
      var b2 := Render([SEP], MigrationText(s, b3));
      assert NoDigitFirst(b3) && NoDigitFirst(b2);
      hide Field, Render, NoDigitFirst, ReadMaster, MasterText, ReadMigration, MigrationText;
      var m := if s.hasMaster then EmptyState.(hasMaster := true, masterID := s.masterID, paxosID := s.paxosID) else EmptyState;
      var g := if s.isMigrating then m.(isMigrating := true, migrateSrcShardID := s.migrateSrcShardID,
                                        migrateDstShardID := s.migrateDstShardID, migrateQuorumID := s.migrateQuorumID)
               else m;
      OneCharacter(PREFIX, Render([SEP], MasterText(s, b2)));
      OneSeparator(MasterText(s, b2));
      MasterRoundTrip(s, EmptyState, b2);
      OneSeparator(MigrationText(s, b3));
      MigrationRoundTrip(s, m, b3);
      OneSeparator(BodyText(s, true));
      BodyRoundTrip(s, g, true);
    }
  }
}
