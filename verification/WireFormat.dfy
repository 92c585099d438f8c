// The texts of messages and states as they are exchanged: pieces with colons between them.  The writers,
// which append item by item, yield exactly these texts.

module WireFormat {
  import opened Bytes
  import opened Decimal
  import opened KeyedLists
  import opened Formatting
  import opened ConfigMessages
  import opened Schema
  import opened MessageCodec
  import opened StateCodec

  // ---- pieces and colons

  function Colons(pieces: seq<bytes>): bytes {
    if pieces == [] then [] else if |pieces| == 1 then pieces[0] else pieces[0] + [58] + Colons(pieces[1..])
  }

  function Letter(c: char): bytes
    requires c < 128 as char
  {
    [c as byte]
  }

  // A text with its length in front.
  function Counted(s: bytes): bytes { Digits(|s|) + [58] + s }

  function Truth(b: bool): bytes { if b then Letter('T') else Letter('F') }

  // Items with a separator between each two.
  function Spaced(items: seq<Item>): seq<Item> {
    if |items| <= 1 then items else [items[0], SEP] + Spaced(items[1..])
  }

  function Pieces(items: seq<Item>): (r: seq<bytes>)
    ensures |r| == |items| && forall k :: 0 <= k < |items| ==> r[k] == ItemText(items[k])
  {
    seq(|items|, k requires 0 <= k < |items| => ItemText(items[k]))
  }

  lemma RenderOne(i: Item, rest: bytes)
    ensures Render([i], rest) == ItemText(i) + rest
  {
    assert [i][1..] == [];
  }

  lemma {:induction false} SpacedText(items: seq<Item>, rest: bytes)
    requires items != []
    ensures Render(Spaced(items), rest) == Colons(Pieces(items)) + rest
  {
    hide ItemText;
    if |items| == 1 {
      RenderOne(items[0], rest);
      assert Spaced(items) == [items[0]] && Pieces(items) == [ItemText(items[0])];
    } else {
      var more := Spaced(items[1..]);
      SpacedText(items[1..], rest);
      assert Pieces(items)[1..] == Pieces(items[1..]);
      RenderConcat([items[0], SEP], more, rest);
      SplitPair(items[0], SEP, Render(more, rest));
      RenderOne(items[0], Render([SEP], Render(more, rest)));
      SeparatorText(Render(more, rest));
      Grouped(ItemText(items[0]), [58], Colons(Pieces(items[1..])), rest);
    }
  }

  lemma SeparatorText(rest: bytes)
    ensures Render([SEP], rest) == [58] + rest
  {
    RenderOne(SEP, rest);
  }

  lemma Grouped(a: bytes, b: bytes, c: bytes, d: bytes)
    ensures a + (b + (c + d)) == (a + b + c) + d
  {}

  lemma SpacedFew(a: Item, b: Item, c: Item, d: Item)
    ensures Spaced([a]) == [a] && Spaced([a, b]) == [a, SEP, b] && Spaced([a, b, c]) == [a, SEP, b, SEP, c]
    ensures Spaced([a, b, c, d]) == [a, SEP, b, SEP, c, SEP, d]
  {
    assert [a, b][1..] == [b] && [a, b, c][1..] == [b, c] && [b, c][1..] == [c];
    assert [a, b, c, d][1..] == [b, c, d] && [b, c, d][1..] == [c, d] && [c, d][1..] == [d];
    assert Spaced([c, d]) == [c, SEP, d];
    assert Spaced([b, c]) == [b, SEP, c] && Spaced([b, c, d]) == [b, SEP, c, SEP, d];
  }

  // ---- messages

  // Every message is its letter and its arguments.
  function MessageLine(m: Message): bytes {
    match m
    case SetClusterID(id) => Colons([Letter('s'), Digits(id)])
    case RegisterShardServer(id, endpoint) => Colons([Letter('S'), Digits(id), Counted(endpoint)])
    case UnregisterShardServer(id) => Colons([Letter('w'), Digits(id)])
    case CreateQuorum(name, nodes) => Colons([Letter('Q'), Counted(name)] + NumberPieces(nodes))
    case RenameQuorum(id, name) => Colons([Letter('q'), Digits(id), Counted(name)])
    case DeleteQuorum(id) => Colons([Letter('W'), Digits(id)])
    case AddShardServerToQuorum(q, n) => Colons([Letter('n'), Digits(q), Digits(n)])
    case RemoveShardServerFromQuorum(q, n) => Colons([Letter('b'), Digits(q), Digits(n)])
    case ActivateShardServer(q, n, force) => Colons([Letter('p'), Digits(q), Digits(n), Truth(force)])
    case DeactivateShardServer(q, n, force) => Colons([Letter('m'), Digits(q), Digits(n), Truth(force)])
    case SetPriority(q, n, priority) => Colons([Letter('P'), Digits(q), Digits(n), Digits(priority)])
    case CreateDatabase(name) => Colons([Letter('C'), Counted(name)])
    case RenameDatabase(id, name) => Colons([Letter('R'), Digits(id), Counted(name)])
    case DeleteDatabase(id) => Colons([Letter('D'), Digits(id)])
    case CreateTable(d, q, name) => Colons([Letter('c'), Digits(d), Digits(q), Counted(name)])
    case RenameTable(id, name) => Colons([Letter('r'), Digits(id), Counted(name)])
    case DeleteTable(id) => Colons([Letter('d'), Digits(id)])
    case FreezeTable(id) => Colons([Letter('F'), Digits(id)])
    case UnfreezeTable(id) => Colons([Letter('f'), Digits(id)])
    case FreezeDatabase(id) => Colons([Letter('L'), Digits(id)])
    case UnfreezeDatabase(id) => Colons([Letter('l'), Digits(id)])
    case TruncateTableBegin(id) => Colons([Letter('t'), Digits(id)])
    case TruncateTableComplete(id) => Colons([Letter('T'), Digits(id)])
    case SplitShardBegin(id, key) => Colons([Letter('1'), Digits(id), Counted(key)])
    case SplitShardComplete(id) => Colons([Letter('2'), Digits(id)])
    case ShardMigrationBegin(q, id) => Colons([Letter('N'), Digits(q), Digits(id)])
    case ShardMigrationComplete(q, src, dst) => Colons([Letter('M'), Digits(q), Digits(src), Digits(dst)])
  }

  // A count and the numbers.
  function NumberPieces(ids: seq<nat>): (r: seq<bytes>)
    ensures |r| == |ids| + 1 && r[0] == Digits(|ids|) && forall k :: 0 <= k < |ids| ==> r[k + 1] == Digits(ids[k])
  {
    [Digits(|ids|)] + seq(|ids|, k requires 0 <= k < |ids| => Digits(ids[k]))
  }

  // Two, three and four items.
  lemma Line2(a: Item, b: Item, rest: bytes)
    ensures Render([a, SEP, b], rest) == Colons([ItemText(a), ItemText(b)]) + rest
  {
    SpacedFew(a, b, a, b);
    SpacedText([a, b], rest);
    assert Pieces([a, b]) == [ItemText(a), ItemText(b)];
  }

  lemma Line3(a: Item, b: Item, c: Item, rest: bytes)
    ensures Render([a, SEP, b, SEP, c], rest) == Colons([ItemText(a), ItemText(b), ItemText(c)]) + rest
  {
    SpacedFew(a, b, c, a);
    SpacedText([a, b, c], rest);
    assert Pieces([a, b, c]) == [ItemText(a), ItemText(b), ItemText(c)];
  }

  lemma Line4(a: Item, b: Item, c: Item, d: Item, rest: bytes)
    ensures Render([a, SEP, b, SEP, c, SEP, d], rest) == Colons([ItemText(a), ItemText(b), ItemText(c), ItemText(d)]) + rest
  {
    SpacedFew(a, b, c, d);
    SpacedText([a, b, c, d], rest);
    assert Pieces([a, b, c, d]) == [ItemText(a), ItemText(b), ItemText(c), ItemText(d)];
  }

  lemma {:induction false} ColonsConcat(a: seq<bytes>, b: seq<bytes>)
    requires a != [] && b != []
    ensures Colons(a + b) == Colons(a) + [58] + Colons(b)
  {
    if |a| == 1 {
      assert (a + b)[1..] == b;
    } else {
      ColonsConcat(a[1..], b);
      assert (a + b)[1..] == a[1..] + b && (a + b)[0] == a[0];
      var x, y, z := a[0], Colons(a[1..]), Colons(b);
      assert x + [58] + (y + [58] + z) == (x + [58] + y) + [58] + z;
    }
  }

  lemma {:induction false} NumbersAppended(ids: seq<nat>, head: bytes, rest: bytes)
    ensures head + NumbersText(ids, rest) == Colons([head] + seq(|ids|, k requires 0 <= k < |ids| => Digits(ids[k]))) + rest
  {
    var pieces := seq(|ids|, k requires 0 <= k < |ids| => Digits(ids[k]));
    if ids == [] {
      assert [head] + pieces == [head];
    } else {
      var more := seq(|ids[1..]|, k requires 0 <= k < |ids[1..]| => Digits(ids[1..][k]));
      assert pieces == [Digits(ids[0])] + more;
      NumbersAppended(ids[1..], Digits(ids[0]), rest);
      SplitPair(SEP, U64(ids[0]), NumbersText(ids[1..], rest));
      SeparatorText(Render([U64(ids[0])], NumbersText(ids[1..], rest)));
      RenderOne(U64(ids[0]), NumbersText(ids[1..], rest));
      assert ([head] + pieces)[1..] == pieces;
      Grouped(head, [58], Colons(pieces), rest);
    }
  }

  lemma NumberLine(ids: seq<nat>, rest: bytes)
    ensures IDListText(ids, rest) == Colons(NumberPieces(ids)) + rest
  {
    RenderOne(U32(|ids|), NumbersText(ids, rest));
    NumbersAppended(ids, Digits(|ids|), rest);
  }

  lemma CreateQuorumLine(name: bytes, nodes: seq<nat>)
    ensures MessageText(CreateQuorum(name, nodes)) == MessageLine(CreateQuorum(name, nodes))
  {
    hide Colons, Digits, Render, NumbersText, NumberPieces;
    var a, b, c := Chr('Q' as byte), Text(name), U32(|nodes|);
    var rest := NumbersText(nodes, []);
    assert [a, SEP] + Fields(CreateQuorum(name, nodes)) == [a, SEP, b] + [SEP, c];
    RenderConcat([a, SEP, b], [SEP, c], rest);
    SplitPair(SEP, c, rest);
    SeparatorText(Render([c], rest));
    Line2(a, b, [58] + Render([c], rest));
    NumberLine(nodes, []);
    assert Render([c], rest) == IDListText(nodes, []);
    ColonsConcat([Letter('Q'), Counted(name)], NumberPieces(nodes));
    var x, y := Colons([Letter('Q'), Counted(name)]), Colons(NumberPieces(nodes));
    assert x + ([58] + (y + [])) == x + [58] + y;
  }

  lemma OneArgument(m: Message, a: Item)
    requires !m.CreateQuorum? && Fields(m) == [a]
    ensures MessageText(m) == Colons([[TypeOf(m)], ItemText(a)])
  {
    assert [Chr(TypeOf(m)), SEP] + Fields(m) == [Chr(TypeOf(m)), SEP, a];
    Line2(Chr(TypeOf(m)), a, []);
  }

  lemma TwoArguments(m: Message, a: Item, b: Item)
    requires !m.CreateQuorum? && Fields(m) == [a, SEP, b]
    ensures MessageText(m) == Colons([[TypeOf(m)], ItemText(a), ItemText(b)])
  {
    assert [Chr(TypeOf(m)), SEP] + Fields(m) == [Chr(TypeOf(m)), SEP, a, SEP, b];
    Line3(Chr(TypeOf(m)), a, b, []);
  }

  lemma ThreeArguments(m: Message, a: Item, b: Item, c: Item)
    requires !m.CreateQuorum? && Fields(m) == [a, SEP, b, SEP, c]
    ensures MessageText(m) == Colons([[TypeOf(m)], ItemText(a), ItemText(b), ItemText(c)])
  {
    assert [Chr(TypeOf(m)), SEP] + Fields(m) == [Chr(TypeOf(m)), SEP, a, SEP, b, SEP, c];
    Line4(Chr(TypeOf(m)), a, b, c, []);
  }

  lemma OneArgumentLine(m: Message)
    requires |Fields(m)| == 1
    ensures MessageText(m) == MessageLine(m)
  {
    hide MessageText, Colons, Digits;
    OneArgument(m, Fields(m)[0]);
  }

  lemma TwoArgumentsLine(m: Message)
    requires |Fields(m)| == 3 && !m.CreateQuorum?
    ensures MessageText(m) == MessageLine(m)
  {
    hide MessageText, Colons, Digits;
    TwoArguments(m, Fields(m)[0], Fields(m)[2]);
  }

  lemma ThreeArgumentsLine(m: Message)
    requires |Fields(m)| == 5
    ensures MessageText(m) == MessageLine(m)
  {
    hide MessageText, Colons, Digits;
    ThreeArguments(m, Fields(m)[0], Fields(m)[2], Fields(m)[4]);
  }

  lemma FewFields(m: Message)
    ensures |Fields(m)| == 1 || |Fields(m)| == 3 || |Fields(m)| == 5
  {}

  // Main result: the text of a message is its letter and its arguments with colons between them.
  lemma MessageIsLine(m: Message)
    ensures MessageText(m) == MessageLine(m)
  {
    hide MessageText, MessageLine, Fields;
    FewFields(m);
    if m.CreateQuorum? {
      CreateQuorumLine(m.name, m.nodes);
    } else if |Fields(m)| == 1 {
      OneArgumentLine(m);
    } else if |Fields(m)| == 3 {
      TwoArgumentsLine(m);
    } else {
      ThreeArgumentsLine(m);
    }
  }

  // ---- states

  function NumberLineOf(ids: seq<nat>): bytes { Colons(NumberPieces(ids)) }

  function OptionLine(there: bool, n: nat): bytes { if there then Colons([Letter('Y'), Digits(n)]) else Letter('N') }

  function QuorumLine(q: Keyed<Quorum>, volatile: bool): bytes {
    var o := q.obj;
    Colons([Digits(q.id), Counted(o.name), NumberLineOf(o.activeNodes), NumberLineOf(o.inactiveNodes), NumberLineOf(o.shards)]
           + if volatile then
               [Digits(o.configID), OptionLine(o.isActivatingNode, o.activatingNodeID), Digits(o.paxosID), OptionLine(o.hasPrimary, o.primaryID)]
             else [])
  }

  function DatabaseLine(d: Keyed<Database>): bytes { Colons([Digits(d.id), Counted(d.obj.name), NumberLineOf(d.obj.tables)]) }

  function TableLine(t: Keyed<Table>): bytes {
    Colons([Digits(t.obj.databaseID), Digits(t.id), Counted(t.obj.name), Truth(t.obj.isFrozen), NumberLineOf(t.obj.shards)])
  }

  function ShardLine(sh: Keyed<Shard>, volatile: bool): bytes {
    var o := sh.obj;
    Colons([Digits(o.quorumID), Digits(o.tableID), Digits(sh.id), Counted(o.firstKey), Counted(o.lastKey), Digits(o.state),
            Digits(o.parentShardID)]
           + if volatile then [Digits(o.shardSize), Counted(o.splitKey)] else [])
  }

  function InfoLine(i: QuorumInfo): bytes {
    Colons([Digits(i.quorumID), Digits(i.paxosID), Truth(i.needCatchup), Digits(i.unused1), Digits(i.unused2), Digits(i.unused3)])
  }

  function PriorityLine(p: QuorumPriority): bytes { Colons([Digits(p.quorumID), Digits(p.priority)]) }

  // A count and a line for each.
  function ListLine<T>(xs: seq<T>, line: T -> bytes): bytes { Colons([Digits(|xs|)] + Map2(line, xs)) }

  function Map2<T>(f: T -> bytes, xs: seq<T>): (r: seq<bytes>)
    ensures |r| == |xs| && forall i :: 0 <= i < |xs| ==> r[i] == f(xs[i])
  {
    seq(|xs|, i requires 0 <= i < |xs| => f(xs[i]))
  }

  // The list of priorities follows the letter O, without a colon before it.
  function ServerLine(v: Keyed<ShardServer>, volatile: bool): bytes {
    var o := v.obj;
    Colons([Digits(v.id), Counted(o.endpoint)]
           + if volatile then
               [Digits(o.httpPort), Digits(o.sdbpPort), Truth(o.hasHeartbeat), ListLine(o.quorumInfos, InfoLine)]
             else [])
    + Colons([Letter('O'), ListLine(o.quorumPriorities, PriorityLine)])
  }

  function BodyPieces(s: State, volatile: bool): seq<bytes> {
    [Digits(s.nextQuorumID), Digits(s.nextDatabaseID), Digits(s.nextTableID), Digits(s.nextShardID), Digits(s.nextNodeID),
     ListLine(s.quorums, (q: Keyed<Quorum>) => QuorumLine(q, volatile)), ListLine(s.databases, DatabaseLine),
     ListLine(s.tables, TableLine), ListLine(s.shards, (sh: Keyed<Shard>) => ShardLine(sh, volatile)),
     ListLine(s.shardServers, (v: Keyed<ShardServer>) => ServerLine(v, volatile))]
  }

  function MasterLine(s: State): bytes {
    if s.hasMaster then Colons([Letter('Y'), Digits(s.masterID), Letter('P') + Digits(s.paxosID)]) else Letter('N')
  }

  function MigrationLine(s: State): bytes {
    if s.isMigrating then
      Colons([Letter('Y'), Digits(s.migrateSrcShardID), Digits(s.migrateDstShardID), Digits(s.migrateQuorumID)])
    else Letter('N')
  }

  function StateLine(s: State, volatile: bool): bytes {
    Colons((if volatile then [Letter('C'), MasterLine(s), MigrationLine(s)] else []) + BodyPieces(s, volatile))
  }

  // The first piece, then the others.
  lemma Joins(a: bytes, pieces: seq<bytes>)
    requires pieces != []
    ensures Colons([a] + pieces) == a + [58] + Colons(pieces)
  {
    ColonsConcat([a], pieces);
  }

  lemma OneColon(a: bytes)
    ensures Colons([a]) == a
  {}

  // A text in front of a separator and of pieces.
  lemma Prepend(a: bytes, pieces: seq<bytes>, rest: bytes)
    requires pieces != []
    ensures a + Render([SEP], Colons(pieces) + rest) == Colons([a] + pieces) + rest
  {
    Joins(a, pieces);
    SeparatorText(Colons(pieces) + rest);
    Grouped(a, [58], Colons(pieces), rest);
  }

  lemma {:induction false} SpacedCons(a: Item, items: seq<Item>)
    requires items != []
    ensures Spaced([a] + items) == [a, SEP] + Spaced(items)
  {
    assert ([a] + items)[1..] == items;
  }

  lemma OptionIsLine(there: bool, n: nat, rest: bytes)
    ensures OptionText(there, n, rest) == OptionLine(there, n) + rest
  {
    if there {
      Line2(Chr(YES), U64(n), rest);
    } else {
      RenderOne(Chr(NO), rest);
    }
  }

  lemma QuorumTailIsLine(q: Quorum, rest: bytes)
    ensures QuorumTail(q, rest) ==
              Render([SEP], Colons([Digits(q.configID), OptionLine(q.isActivatingNode, q.activatingNodeID), Digits(q.paxosID),
                                    OptionLine(q.hasPrimary, q.primaryID)]) + rest)
  {
    hide Colons, OptionLine, Digits;
    var c, a, p, m := Digits(q.configID), OptionLine(q.isActivatingNode, q.activatingNodeID), Digits(q.paxosID),
                      OptionLine(q.hasPrimary, q.primaryID);
    var r1 := OptionText(q.hasPrimary, q.primaryID, rest);
    OptionIsLine(q.hasPrimary, q.primaryID, rest);
    assert [SEP, U64(q.paxosID), SEP] == [SEP] + [U64(q.paxosID), SEP];
    RenderConcat([SEP], [U64(q.paxosID), SEP], r1);
    SplitPair(U64(q.paxosID), SEP, r1);
    RenderOne(U64(q.paxosID), Render([SEP], r1));
    OneColon(m);
    Prepend(p, [m], rest);
    assert [p] + [m] == [p, m];
    OptionIsLine(q.isActivatingNode, q.activatingNodeID, Render([SEP, U64(q.paxosID), SEP], r1));
    Prepend(a, [p, m], rest);
    assert [a] + [p, m] == [a, p, m];
    RenderOne(U64(q.configID), Render([SEP], Colons([a, p, m]) + rest));
    Prepend(c, [a, p, m], rest);
    assert [c] + [a, p, m] == [c, a, p, m];
  }

  lemma QuorumIsLine(q: Keyed<Quorum>, volatile: bool, rest: bytes)
    ensures QuorumText(q, volatile, rest) == QuorumLine(q, volatile) + rest
  {
    hide Colons, OptionLine, Digits, QuorumTail, IDListText, Render, NumberPieces;
    var o := q.obj;
    var tail := if volatile then
                  [Digits(o.configID), OptionLine(o.isActivatingNode, o.activatingNodeID), Digits(o.paxosID), OptionLine(o.hasPrimary, o.primaryID)]
                else [];
    var end := if volatile then QuorumTail(o, rest) else rest;
    var a, i, s := NumberLineOf(o.activeNodes), NumberLineOf(o.inactiveNodes), NumberLineOf(o.shards);
    QuorumTailIsLine(o, rest);
    NumberLine(o.shards, end);
    assert s + end == Colons([s] + tail) + rest by {
      if volatile { Prepend(s, tail, rest); } else { OneColon(s); assert [s] + tail == [s]; }
    }
    NumberLine(o.inactiveNodes, Render([SEP], Colons([s] + tail) + rest));
    Prepend(i, [s] + tail, rest);
    assert [i] + ([s] + tail) == [i, s] + tail;
    NumberLine(o.activeNodes, Render([SEP], Colons([i, s] + tail) + rest));
    Prepend(a, [i, s] + tail, rest);
    assert [a] + ([i, s] + tail) == [a, i, s] + tail;
    Front2(U64(q.id), Text(o.name), [a, i, s] + tail, rest);
    assert [Digits(q.id), Counted(o.name)] + ([a, i, s] + tail) == [Digits(q.id), Counted(o.name), a, i, s] + tail;
  }

  // Two items in front of more pieces.
  lemma Front2(a: Item, b: Item, pieces: seq<bytes>, rest: bytes)
    requires pieces != []
    ensures Render([a, SEP, b], Render([SEP], Colons(pieces) + rest)) == Colons([ItemText(a), ItemText(b)] + pieces) + rest
  {
    hide ItemText, Colons;
    Line2(a, b, Render([SEP], Colons(pieces) + rest));
    FrontPieces([ItemText(a), ItemText(b)], pieces, rest);
  }

  lemma FrontPieces(front: seq<bytes>, pieces: seq<bytes>, rest: bytes)
    requires front != [] && pieces != []
    ensures Colons(front) + Render([SEP], Colons(pieces) + rest) == Colons(front + pieces) + rest
  {
    hide Colons;
    ColonsConcat(front, pieces);
    SeparatorText(Colons(pieces) + rest);
    Grouped(Colons(front), [58], Colons(pieces), rest);
  }

  lemma DatabaseIsLine(d: Keyed<Database>, rest: bytes)
    ensures DatabaseText(d, rest) == DatabaseLine(d) + rest
  {
    hide Colons, Digits, IDListText, Render, NumberPieces;
    var n := NumberLineOf(d.obj.tables);
    NumberLine(d.obj.tables, rest);
    OneColon(n);
    Front2(U64(d.id), Text(d.obj.name), [n], rest);
    assert [Digits(d.id), Counted(d.obj.name)] + [n] == [Digits(d.id), Counted(d.obj.name), n];
  }

  lemma TableIsLine(t: Keyed<Table>, rest: bytes)
    ensures TableText(t, rest) == TableLine(t) + rest
  {
    hide Colons, Digits, IDListText, Render, NumberPieces;
    var n := NumberLineOf(t.obj.shards);
    var a, b, c, d := U64(t.obj.databaseID), U64(t.id), Text(t.obj.name), Flag(t.obj.isFrozen);
    NumberLine(t.obj.shards, rest);
    OneColon(n);
    Line4(a, b, c, d, Render([SEP], Colons([n]) + rest));
    FrontPieces([ItemText(a), ItemText(b), ItemText(c), ItemText(d)], [n], rest);
    assert [ItemText(a), ItemText(b), ItemText(c), ItemText(d)] + [n] == [ItemText(a), ItemText(b), ItemText(c), ItemText(d), n];
  }

  lemma ShardItemsSpaced(sh: Keyed<Shard>)
    ensures var o := sh.obj;
            ShardItems(sh) == Spaced([U64(o.quorumID), U64(o.tableID), U64(sh.id), Text(o.firstKey), Text(o.lastKey), U32(o.state),
                                      U64(o.parentShardID)])
  {
    hide Spaced;
    var o := sh.obj;
    var l4 := [Text(o.firstKey), Text(o.lastKey), U32(o.state), U64(o.parentShardID)];
    SpacedFew(l4[0], l4[1], l4[2], l4[3]);
    SpacedCons(U64(sh.id), l4);
    SpacedCons(U64(o.tableID), [U64(sh.id)] + l4);
    SpacedCons(U64(o.quorumID), [U64(o.tableID)] + ([U64(sh.id)] + l4));
    assert [U64(o.quorumID)] + ([U64(o.tableID)] + ([U64(sh.id)] + l4))
           == [U64(o.quorumID), U64(o.tableID), U64(sh.id), Text(o.firstKey), Text(o.lastKey), U32(o.state), U64(o.parentShardID)];
  }

  lemma ShardIsLine(sh: Keyed<Shard>, volatile: bool, rest: bytes)
    ensures ShardText(sh, volatile, rest) == ShardLine(sh, volatile) + rest
  {
    hide Colons, Digits, Render, Spaced, ShardItems;
    var o := sh.obj;
    var items := [U64(o.quorumID), U64(o.tableID), U64(sh.id), Text(o.firstKey), Text(o.lastKey), U32(o.state), U64(o.parentShardID)];
    var head := [Digits(o.quorumID), Digits(o.tableID), Digits(sh.id), Counted(o.firstKey), Counted(o.lastKey), Digits(o.state),
                 Digits(o.parentShardID)];
    ShardItemsSpaced(sh);
    assert Pieces(items) == head;
    if volatile {
      var a, b := U64(o.shardSize), Text(o.splitKey);
      assert [SEP, a, SEP, b] == [SEP] + [a, SEP, b];
      RenderConcat([SEP], [a, SEP, b], rest);
      Line2(a, b, rest);
      SpacedText(items, Render([SEP], Colons([ItemText(a), ItemText(b)]) + rest));
      FrontPieces(head, [ItemText(a), ItemText(b)], rest);
    } else {
      SpacedText(items, rest);
      assert head + [] == head;
    }
  }
  // ---- lists of objects

  lemma {:induction false} ObjectsAppended<T>(xs: seq<T>, write: (T, bytes) -> bytes, line: T -> bytes, head: bytes, rest: bytes)
    requires forall x, k :: x in xs ==> write(x, k) == line(x) + k
    ensures head + ObjectsText(xs, write, rest) == Colons([head] + Map2(line, xs)) + rest
  {
    hide Colons, Render;
    if xs == [] {
      OneColon(head);
      assert [head] + Map2(line, xs) == [head];
    } else {
      var x, more := xs[0], xs[1..];
      assert x in xs && forall y :: y in more ==> y in xs;
      ObjectsAppended(more, write, line, line(x), rest);
      assert [line(x)] + Map2(line, more) == Map2(line, xs);
      Prepend(head, Map2(line, xs), rest);
    }
  }

  lemma ListIsLine<T>(xs: seq<T>, write: (T, bytes) -> bytes, line: T -> bytes, rest: bytes)
    requires forall x, k :: x in xs ==> write(x, k) == line(x) + k
    ensures ListText(xs, write, rest) == ListLine(xs, line) + rest
  {
    RenderOne(U32(|xs|), ObjectsText(xs, write, rest));
    ObjectsAppended(xs, write, line, Digits(|xs|), rest);
  }

  // The lists of infos and priorities are lists of objects as well.
  function InfoWriter(i: QuorumInfo, k: bytes): bytes {
    Render([U64(i.quorumID), SEP, U64(i.paxosID), SEP, Flag(i.needCatchup), SEP, U64(i.unused1), SEP, U64(i.unused2), SEP, U64(i.unused3)], k)
  }

  function PriorityWriter(p: QuorumPriority, k: bytes): bytes { Render([U64(p.quorumID), SEP, U64(p.priority)], k) }

  lemma InfoIsLine(i: QuorumInfo, k: bytes)
    ensures InfoWriter(i, k) == InfoLine(i) + k
  {
    hide Colons, Digits, Spaced;
    var l4 := [Flag(i.needCatchup), U64(i.unused1), U64(i.unused2), U64(i.unused3)];
    var items := [U64(i.quorumID), U64(i.paxosID), Flag(i.needCatchup), U64(i.unused1), U64(i.unused2), U64(i.unused3)];
    SpacedFew(l4[0], l4[1], l4[2], l4[3]);
    SpacedCons(U64(i.paxosID), l4);
    SpacedCons(U64(i.quorumID), [U64(i.paxosID)] + l4);
    assert [U64(i.quorumID)] + ([U64(i.paxosID)] + l4) == items;
    assert Spaced(items) == [U64(i.quorumID), SEP, U64(i.paxosID), SEP, Flag(i.needCatchup), SEP, U64(i.unused1), SEP, U64(i.unused2), SEP,
                             U64(i.unused3)];
    SpacedText(items, k);
    assert Pieces(items) == [Digits(i.quorumID), Digits(i.paxosID), Truth(i.needCatchup), Digits(i.unused1), Digits(i.unused2), Digits(i.unused3)];
  }

  lemma {:induction false} InfosAsObjects(infos: seq<QuorumInfo>, rest: bytes)
    ensures InfosText(infos, rest) == ObjectsText(infos, InfoWriter, rest)
  {
    hide Render;
    if infos != [] {
      var i, more := infos[0], InfosText(infos[1..], rest);
      var items := [U64(i.quorumID), SEP, U64(i.paxosID), SEP, Flag(i.needCatchup), SEP, U64(i.unused1), SEP, U64(i.unused2), SEP, U64(i.unused3)];
      InfosAsObjects(infos[1..], rest);
      assert InfoItems(i) == [SEP] + items;
      RenderConcat([SEP], items, more);
    }
  }

  lemma {:induction false} PrioritiesAsObjects(l: seq<QuorumPriority>, rest: bytes)
    ensures PrioritiesText(l, rest) == ObjectsText(l, PriorityWriter, rest)
  {
    hide Render;
    if l != [] {
      PrioritiesAsObjects(l[1..], rest);
      assert [SEP, U64(l[0].quorumID), SEP, U64(l[0].priority)] == [SEP] + [U64(l[0].quorumID), SEP, U64(l[0].priority)];
      RenderConcat([SEP], [U64(l[0].quorumID), SEP, U64(l[0].priority)], PrioritiesText(l[1..], rest));
    }
  }

  lemma InfosAreLines(infos: seq<QuorumInfo>, rest: bytes)
    ensures Render([U32(|infos|)], InfosText(infos, rest)) == ListLine(infos, InfoLine) + rest
  {
    hide InfoWriter, InfoLine, Colons, Render;
    InfosAsObjects(infos, rest);
    forall i, k | i in infos ensures InfoWriter(i, k) == InfoLine(i) + k { InfoIsLine(i, k); }
    ListIsLine(infos, InfoWriter, InfoLine, rest);
  }

  lemma PrioritiesAreLines(l: seq<QuorumPriority>, rest: bytes)
    ensures PriorityListText(l, rest) == Colons([Letter('O'), ListLine(l, PriorityLine)]) + rest
  {
    hide PriorityLine, Colons;
    PrioritiesAsObjects(l, rest);
    forall p, k | p in l ensures PriorityWriter(p, k) == PriorityLine(p) + k { PriorityIsLine(p, k); }
    ListIsLine(l, PriorityWriter, PriorityLine, rest);
    var line, more := ListLine(l, PriorityLine), PrioritiesText(l, rest);
    assert [Lit(LETTER_O), SEP, U32(|l|)] == [Lit(LETTER_O), SEP] + [U32(|l|)];
    RenderConcat([Lit(LETTER_O), SEP], [U32(|l|)], more);
    assert Render([U32(|l|)], more) == ListText(l, PriorityWriter, rest);
    SplitPair(Lit(LETTER_O), SEP, line + rest);
    RenderOne(Lit(LETTER_O), Render([SEP], line + rest));
    OneColon(line);
    Prepend(Letter('O'), [line], rest);
    assert [Letter('O')] + [line] == [Letter('O'), line];
  }

  lemma PriorityIsLine(p: QuorumPriority, k: bytes)
    ensures PriorityWriter(p, k) == PriorityLine(p) + k
  {
    Line2(U64(p.quorumID), U64(p.priority), k);
  }

  lemma ServerTailIsLine(v: ShardServer, rest: bytes)
    ensures ServerTail(v, rest) ==
              Render([SEP], Colons([Digits(v.httpPort), Digits(v.sdbpPort), Truth(v.hasHeartbeat), ListLine(v.quorumInfos, InfoLine)]) + rest)
  {
    hide Colons, Digits, InfosText, ListLine;
    var a, b, c := U32(v.httpPort), U32(v.sdbpPort), Flag(v.hasHeartbeat);
    var line := ListLine(v.quorumInfos, InfoLine);
    InfosAreLines(v.quorumInfos, rest);
    assert [SEP, a, SEP, b, SEP, c] == [SEP] + [a, SEP, b, SEP, c];
    RenderConcat([SEP], [a, SEP, b, SEP, c], Render([SEP], line + rest));
    Line3(a, b, c, Render([SEP], line + rest));
    OneColon(line);
    FrontPieces([ItemText(a), ItemText(b), ItemText(c)], [line], rest);
    assert [ItemText(a), ItemText(b), ItemText(c)] + [line] == [Digits(v.httpPort), Digits(v.sdbpPort), Truth(v.hasHeartbeat), line];
  }

  lemma ServerIsLine(v: Keyed<ShardServer>, volatile: bool, rest: bytes)
    ensures ServerText(v, volatile, rest) == ServerLine(v, volatile) + rest
  {
    hide Colons, Digits, ServerTail, PriorityListText, ListLine, Render;
    var o := v.obj;
    var end := Colons([Letter('O'), ListLine(o.quorumPriorities, PriorityLine)]);
    PrioritiesAreLines(o.quorumPriorities, rest);
    var head := [Digits(v.id), Counted(o.endpoint)];
    if volatile {
      var tail := [Digits(o.httpPort), Digits(o.sdbpPort), Truth(o.hasHeartbeat), ListLine(o.quorumInfos, InfoLine)];
      ServerTailIsLine(o, end + rest);
      Front2(U64(v.id), Text(o.endpoint), tail, end + rest);
      assert Colons(head + tail) + (end + rest) == (Colons(head + tail) + end) + rest;
    } else {
      Line2(U64(v.id), Text(o.endpoint), end + rest);
      assert head + [] == head;
      assert Colons(head) + (end + rest) == (Colons(head) + end) + rest;
    }
  }

  // ---- the whole state

  lemma MasterIsLine(s: State, rest: bytes)
    ensures MasterText(s, rest) == MasterLine(s) + rest
  {
    hide Colons, Digits;
    if s.hasMaster {
      var p := Letter('P') + Digits(s.paxosID);
      assert [SEP, Lit(LETTER_P), U64(s.paxosID)] == [SEP] + [Lit(LETTER_P), U64(s.paxosID)];
      RenderConcat([SEP], [Lit(LETTER_P), U64(s.paxosID)], rest);
      SplitPair(Lit(LETTER_P), U64(s.paxosID), rest);
      RenderOne(U64(s.paxosID), rest);
      RenderOne(Lit(LETTER_P), Digits(s.paxosID) + rest);
      assert Letter('P') + (Digits(s.paxosID) + rest) == p + rest;
      OneColon(p);
      RenderOne(U64(s.masterID), Render([SEP], p + rest));
      Prepend(Digits(s.masterID), [p], rest);
      assert [Digits(s.masterID)] + [p] == [Digits(s.masterID), p];
      RenderOne(Chr(YES), Render([SEP], Colons([Digits(s.masterID), p]) + rest));
      Prepend(Letter('Y'), [Digits(s.masterID), p], rest);
      assert [Letter('Y')] + [Digits(s.masterID), p] == [Letter('Y'), Digits(s.masterID), p];
    } else {
      RenderOne(Chr(NO), rest);
    }
  }

  lemma MigrationIsLine(s: State, rest: bytes)
    ensures MigrationText(s, rest) == MigrationLine(s) + rest
  {
    hide Colons, Digits;
    if s.isMigrating {
      var a, b, c := U64(s.migrateSrcShardID), U64(s.migrateDstShardID), U64(s.migrateQuorumID);
      Line3(a, b, c, rest);
      var pieces := [ItemText(a), ItemText(b), ItemText(c)];
      RenderOne(Chr(YES), Render([SEP], Colons(pieces) + rest));
      Prepend(Letter('Y'), pieces, rest);
      assert [Letter('Y')] + pieces == [Letter('Y'), Digits(s.migrateSrcShardID), Digits(s.migrateDstShardID), Digits(s.migrateQuorumID)];
    } else {
      RenderOne(Chr(NO), rest);
    }
  }

  lemma NextIDsAreLine(s: State, rest: bytes)
    ensures Render(NextIDItems(s), rest) ==
              Colons([Digits(s.nextQuorumID), Digits(s.nextDatabaseID), Digits(s.nextTableID), Digits(s.nextShardID), Digits(s.nextNodeID)]) + rest
  {
    hide Colons, Digits, Spaced;
    var l4 := [U64(s.nextDatabaseID), U64(s.nextTableID), U64(s.nextShardID), U64(s.nextNodeID)];
    var items := [U64(s.nextQuorumID), U64(s.nextDatabaseID), U64(s.nextTableID), U64(s.nextShardID), U64(s.nextNodeID)];
    SpacedFew(l4[0], l4[1], l4[2], l4[3]);
    SpacedCons(U64(s.nextQuorumID), l4);
    assert [U64(s.nextQuorumID)] + l4 == items;
    SpacedText(items, rest);
    assert Pieces(items) == [Digits(s.nextQuorumID), Digits(s.nextDatabaseID), Digits(s.nextTableID), Digits(s.nextShardID), Digits(s.nextNodeID)];
  }

  // The lists of a state, one after the other.
  lemma ListsAreLines(s: State, volatile: bool)
    ensures var ps := BodyPieces(s, volatile);
            BodyText(s, volatile) == Render(NextIDItems(s), Render([SEP], Colons(ps[5..])))
  {
    hide Colons, Render, QuorumText, QuorumLine, DatabaseText, DatabaseLine, TableText, TableLine, ShardText, ShardLine, ServerText, ServerLine,
      ListLine, ListText;
    var ql, sl, vl := (q: Keyed<Quorum>) => QuorumLine(q, volatile), (sh: Keyed<Shard>) => ShardLine(sh, volatile),
                      (v: Keyed<ShardServer>) => ServerLine(v, volatile);
    forall q, k | q in s.quorums ensures QuorumWriter(volatile)(q, k) == ql(q) + k { QuorumIsLine(q, volatile, k); }
    forall d, k | d in s.databases ensures DatabaseText(d, k) == DatabaseLine(d) + k { DatabaseIsLine(d, k); }
    forall t, k | t in s.tables ensures TableText(t, k) == TableLine(t) + k { TableIsLine(t, k); }
    forall sh, k | sh in s.shards ensures ShardWriter(volatile)(sh, k) == sl(sh) + k { ShardIsLine(sh, volatile, k); }
    forall v, k | v in s.shardServers ensures ServerWriter(volatile)(v, k) == vl(v) + k { ServerIsLine(v, volatile, k); }
    var q, d, t, sh, v := ListLine(s.quorums, ql), ListLine(s.databases, DatabaseLine), ListLine(s.tables, TableLine),
                          ListLine(s.shards, sl), ListLine(s.shardServers, vl);
    ListIsLine(s.shardServers, ServerWriter(volatile), vl, []);
    OneColon(v);
    ListIsLine(s.shards, ShardWriter(volatile), sl, Render([SEP], Colons([v]) + []));
    Prepend(sh, [v], []);
    ListIsLine(s.tables, TableText, TableLine, Render([SEP], Colons([sh] + [v]) + []));
    Prepend(t, [sh] + [v], []);
    ListIsLine(s.databases, DatabaseText, DatabaseLine, Render([SEP], Colons([t] + ([sh] + [v])) + []));
    Prepend(d, [t] + ([sh] + [v]), []);
    ListIsLine(s.quorums, QuorumWriter(volatile), ql, Render([SEP], Colons([d] + ([t] + ([sh] + [v]))) + []));
    Prepend(q, [d] + ([t] + ([sh] + [v])), []);
    assert [q] + ([d] + ([t] + ([sh] + [v]))) == BodyPieces(s, volatile)[5..];
    assert Colons(BodyPieces(s, volatile)[5..]) + [] == Colons(BodyPieces(s, volatile)[5..]);
  }

  lemma BodyIsLine(s: State, volatile: bool)
    ensures BodyText(s, volatile) == Colons(BodyPieces(s, volatile))
  {
    hide Colons, Render, BodyText, ListLine, Digits, NextIDItems;
    var ps := BodyPieces(s, volatile);
    ListsAreLines(s, volatile);
    NextIDsAreLine(s, Render([SEP], Colons(ps[5..])));
    assert ps[..5] == [Digits(s.nextQuorumID), Digits(s.nextDatabaseID), Digits(s.nextTableID), Digits(s.nextShardID), Digits(s.nextNodeID)];
    assert Colons(ps[5..]) + [] == Colons(ps[5..]) && Colons(ps) + [] == Colons(ps);
    FrontPieces(ps[..5], ps[5..], []);
    assert ps[..5] + ps[5..] == ps;
  }

  // Main result: the text of a state is its parts with colons between them, in both forms.
  lemma StateIsLine(s: State, volatile: bool)
    ensures StateText(s, volatile) == StateLine(s, volatile)
  {
    hide Colons, Render, BodyText, BodyPieces, MasterText, MigrationText, MasterLine, MigrationLine;
    var ps := BodyPieces(s, volatile);
    BodyIsLine(s, volatile);
    BodyNotEmpty(s, volatile);
    assert Colons(ps) + [] == Colons(ps);
    if volatile {
      var a, b := MasterLine(s), MigrationLine(s);
      MigrationIsLine(s, Render([SEP], Colons(ps) + []));
      Prepend(b, ps, []);
      MasterIsLine(s, Render([SEP], Colons([b] + ps) + []));
      Prepend(a, [b] + ps, []);
      RenderOne(Chr(PREFIX), Render([SEP], Colons([a] + ([b] + ps)) + []));
      Prepend(Letter('C'), [a] + ([b] + ps), []);
      assert [Letter('C')] + ([a] + ([b] + ps)) == [Letter('C'), a, b] + ps;
    } else {
      assert [] + ps == ps;
    }
  }

  lemma BodyNotEmpty(s: State, volatile: bool)
    ensures BodyPieces(s, volatile) != []
  {
    hide ListLine, Digits;
  }
  // ---- what the reader gets back

  // The replicated fields in either form, and in the volatile form the master's as well, but for the stages of
  // an activation.
  lemma WrittenMeans(s: State, volatile: bool, i: nat)
    ensures var r := Written(s, volatile);
            && r.databases == s.databases && r.tables == s.tables && r.nextQuorumID == s.nextQuorumID
            && r.nextDatabaseID == s.nextDatabaseID && r.nextTableID == s.nextTableID && r.nextShardID == s.nextShardID
            && r.nextNodeID == s.nextNodeID && !r.isSplitting
            && |r.quorums| == |s.quorums| && |r.shards| == |s.shards| && |r.shardServers| == |s.shardServers|
    ensures i < |s.quorums| ==>
              var p, q := s.quorums[i], Written(s, volatile).quorums[i];
              && q.id == p.id && q.obj.name == p.obj.name && q.obj.activeNodes == p.obj.activeNodes
              && q.obj.inactiveNodes == p.obj.inactiveNodes && q.obj.shards == p.obj.shards
              && q.obj.hasPrimary == (volatile && p.obj.hasPrimary) && q.obj.isActivatingNode == (volatile && p.obj.isActivatingNode)
              && (q.obj.hasPrimary ==> q.obj.primaryID == p.obj.primaryID)
              && (q.obj.isActivatingNode ==> q.obj.activatingNodeID == p.obj.activatingNodeID)
              && q.obj.configID == (if volatile then p.obj.configID else 0) && q.obj.paxosID == (if volatile then p.obj.paxosID else 0)
    ensures i < |s.shards| ==>
              var p, q := s.shards[i], Written(s, volatile).shards[i];
              && q.id == p.id && q.obj.quorumID == p.obj.quorumID && q.obj.tableID == p.obj.tableID && q.obj.state == p.obj.state
              && q.obj.parentShardID == p.obj.parentShardID && q.obj.firstKey == p.obj.firstKey && q.obj.lastKey == p.obj.lastKey
              && q.obj.shardSize == (if volatile then p.obj.shardSize else 0) && q.obj.splitKey == (if volatile then p.obj.splitKey else [])
    ensures i < |s.shardServers| ==>
              var p, q := s.shardServers[i], Written(s, volatile).shardServers[i];
              && q.id == p.id && q.obj.endpoint == p.obj.endpoint && q.obj.quorumPriorities == p.obj.quorumPriorities
              && (volatile ==> q.obj.httpPort == p.obj.httpPort && q.obj.sdbpPort == p.obj.sdbpPort
                               && q.obj.hasHeartbeat == p.obj.hasHeartbeat && q.obj.quorumInfos == p.obj.quorumInfos)
    ensures var r := Written(s, volatile);
            && r.hasMaster == (volatile && s.hasMaster) && (r.hasMaster ==> r.masterID == s.masterID && r.paxosID == s.paxosID)
            && r.isMigrating == (volatile && s.isMigrating)
            && (r.isMigrating ==> r.migrateSrcShardID == s.migrateSrcShardID && r.migrateDstShardID == s.migrateDstShardID
                                  && r.migrateQuorumID == s.migrateQuorumID)
  {}
}
