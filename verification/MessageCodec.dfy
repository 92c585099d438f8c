// Log entries as text: ConfigMessage::Write and ConfigMessage::Read
// (src/Application/ConfigServer/ConfigMessage.cpp).

module MessageCodec {
  import opened Bytes
  import opened Decimal
  import opened Formatting
  import opened ConfigMessages

  function TypeOf(m: Message): (c: byte)
    ensures !IsDigit(c) || m.SplitShardBegin? || m.SplitShardComplete?
  {
    match m
    case SetClusterID(_) => 's' as byte
    case RegisterShardServer(_, _) => 'S' as byte
    case UnregisterShardServer(_) => 'w' as byte
    case CreateQuorum(_, _) => 'Q' as byte
    case RenameQuorum(_, _) => 'q' as byte
    case DeleteQuorum(_) => 'W' as byte
    case AddShardServerToQuorum(_, _) => 'n' as byte
    case RemoveShardServerFromQuorum(_, _) => 'b' as byte
    case ActivateShardServer(_, _, _) => 'p' as byte
    case DeactivateShardServer(_, _, _) => 'm' as byte
    case SetPriority(_, _, _) => 'P' as byte
    case CreateDatabase(_) => 'C' as byte
    case RenameDatabase(_, _) => 'R' as byte
    case DeleteDatabase(_) => 'D' as byte
    case CreateTable(_, _, _) => 'c' as byte
    case RenameTable(_, _) => 'r' as byte
    case DeleteTable(_) => 'd' as byte
    case FreezeDatabase(_) => 'L' as byte
    case UnfreezeDatabase(_) => 'l' as byte
    case FreezeTable(_) => 'F' as byte
    case UnfreezeTable(_) => 'f' as byte
    case TruncateTableBegin(_) => 't' as byte
    case TruncateTableComplete(_) => 'T' as byte
    case SplitShardBegin(_, _) => '1' as byte
    case SplitShardComplete(_) => '2' as byte
    case ShardMigrationBegin(_, _) => 'N' as byte
    case ShardMigrationComplete(_, _, _) => 'M' as byte
  }

  // The arguments behind the type; those of a quorum are followed by its nodes.
  function Fields(m: Message): seq<Item> {
    match m
    case SetClusterID(id) => [U64(id)]
    case RegisterShardServer(id, endpoint) => [U64(id), SEP, Text(endpoint)]
    case UnregisterShardServer(id) => [U64(id)]
    case CreateQuorum(name, nodes) => [Text(name), SEP, U32(|nodes|)]
    case RenameQuorum(id, name) => [U64(id), SEP, Text(name)]
    case DeleteQuorum(id) => [U64(id)]
    case AddShardServerToQuorum(q, n) => [U64(q), SEP, U64(n)]
    case RemoveShardServerFromQuorum(q, n) => [U64(q), SEP, U64(n)]
    case ActivateShardServer(q, n, force) => [U64(q), SEP, U64(n), SEP, Flag(force)]
    case DeactivateShardServer(q, n, force) => [U64(q), SEP, U64(n), SEP, Flag(force)]
    case SetPriority(q, n, p) => [U64(q), SEP, U64(n), SEP, U64(p)]
    case CreateDatabase(name) => [Text(name)]
    case RenameDatabase(id, name) => [U64(id), SEP, Text(name)]
    case DeleteDatabase(id) => [U64(id)]
    case CreateTable(d, q, name) => [U64(d), SEP, U64(q), SEP, Text(name)]
    case RenameTable(id, name) => [U64(id), SEP, Text(name)]
    case DeleteTable(id) => [U64(id)]
    case FreezeTable(id) => [U64(id)]
    case UnfreezeTable(id) => [U64(id)]
    case FreezeDatabase(id) => [U64(id)]
    case UnfreezeDatabase(id) => [U64(id)]
    case TruncateTableBegin(id) => [U64(id)]
    case TruncateTableComplete(id) => [U64(id)]
    case SplitShardBegin(id, key) => [U64(id), SEP, Text(key)]
    case SplitShardComplete(id) => [U64(id)]
    case ShardMigrationBegin(q, id) => [U64(q), SEP, U64(id)]
    case ShardMigrationComplete(q, src, dst) => [U64(q), SEP, U64(src), SEP, U64(dst)]
  }

  function MessageText(m: Message): (t: bytes)
    ensures t != []
  {
    Render([Chr(TypeOf(m)), SEP] + Fields(m), if m.CreateQuorum? then NumbersText(m.nodes, []) else [])
  }

  // The kinds behind "%c:" that the reader expects for a type, if it knows the type.
  function Format(c: byte): (f: seq<Kind>) {
    var id, sep, text := KU64, KSEP, KText;
    if c in {'s' as byte, 'w' as byte, 'W' as byte, 'D' as byte, 'd' as byte, 't' as byte, 'T' as byte, 'F' as byte,
             'f' as byte, 'L' as byte, 'l' as byte, '2' as byte} then [id]
    else if c in {'S' as byte, 'q' as byte, 'R' as byte, 'r' as byte, '1' as byte} then [id, sep, text]
    else if c in {'n' as byte, 'b' as byte, 'N' as byte} then [id, sep, id]
    else if c in {'p' as byte, 'm' as byte} then [id, sep, id, sep, KFlag]
    else if c in {'P' as byte, 'M' as byte} then [id, sep, id, sep, id]
    else if c == 'C' as byte then [text]
    else if c == 'c' as byte then [id, sep, id, sep, text]
    else if c == 'Q' as byte then [text, sep, KU32]
    else []
  }

  // The message that a type and its arguments make.
  function Build(c: byte, f: seq<Item>): Message
    requires Format(c) != [] && Kinds(f) == Format(c) && c != 'Q' as byte
  {
    if c == 's' as byte then SetClusterID(f[0].n)
    else if c == 'S' as byte then RegisterShardServer(f[0].n, f[2].s)
    else if c == 'w' as byte then UnregisterShardServer(f[0].n)
    else if c == 'q' as byte then RenameQuorum(f[0].n, f[2].s)
    else if c == 'W' as byte then DeleteQuorum(f[0].n)
    else if c == 'n' as byte then AddShardServerToQuorum(f[0].n, f[2].n)
    else if c == 'b' as byte then RemoveShardServerFromQuorum(f[0].n, f[2].n)
    else if c == 'p' as byte then ActivateShardServer(f[0].n, f[2].n, f[4].v)
    else if c == 'm' as byte then DeactivateShardServer(f[0].n, f[2].n, f[4].v)
    else if c == 'P' as byte then SetPriority(f[0].n, f[2].n, f[4].n)
    else if c == 'C' as byte then CreateDatabase(f[0].s)
    else if c == 'R' as byte then RenameDatabase(f[0].n, f[2].s)
    else if c == 'D' as byte then DeleteDatabase(f[0].n)
    else if c == 'c' as byte then CreateTable(f[0].n, f[2].n, f[4].s)
    else if c == 'r' as byte then RenameTable(f[0].n, f[2].s)
    else if c == 'd' as byte then DeleteTable(f[0].n)
    else if c == 'L' as byte then FreezeDatabase(f[0].n)
    else if c == 'l' as byte then UnfreezeDatabase(f[0].n)
    else if c == 'F' as byte then FreezeTable(f[0].n)
    else if c == 'f' as byte then UnfreezeTable(f[0].n)
    else if c == 't' as byte then TruncateTableBegin(f[0].n)
    else if c == 'T' as byte then TruncateTableComplete(f[0].n)
    else if c == '1' as byte then SplitShardBegin(f[0].n, f[2].s)
    else if c == '2' as byte then SplitShardComplete(f[0].n)
    else if c == 'N' as byte then ShardMigrationBegin(f[0].n, f[2].n)
    else ShardMigrationComplete(f[0].n, f[2].n, f[4].n)
  }

  // num times ":%U"; the list read and what remains
  function ReadNodes(num: nat, b: bytes): Parsed<seq<nat>> {
    if num == 0 then Got([], b)
    else
      match Scan([KSEP, KU64], b)
      case NoMatch => Failed
      case AssertFailed => Asserted
      case Matched(f, rest) =>
        match ReadNodes(num - 1, rest)
        case Failed => Failed
        case Asserted => Asserted
        case Got(more, rest') => Got([f[1].n] + more, rest')
  }

  // Behind the type come its arguments.
  lemma ArgumentKinds(c: byte, f: seq<Item>)
    requires Kinds(f) == [KChr, KSEP] + Format(c)
    ensures |f| >= 2 && Kinds(f[2..]) == Format(c)
  {
    hide Format;
    assert Kinds(f)[2..] == Format(c);
  }

  function ReadMessage(b: bytes): Parsed<Message> {
    if |b| < 1 || Format(b[0]) == [] then Failed
    else
      match Scan([KChr, KSEP] + Format(b[0]), b)
      case NoMatch => Failed
      case AssertFailed => Asserted
      case Matched(f, rest) =>
        ArgumentKinds(b[0], f);
        if b[0] == 'Q' as byte then
          if rest == [] then Failed
          else
            match ReadNodes(f[4].n, rest)
            case Failed => Failed
            case Asserted => Asserted
            case Got(nodes, rest') => if rest' == [] then Got(CreateQuorum(f[2].s, nodes), []) else Failed
        else if rest == [] then Got(Build(b[0], f[2..]), [])
        else Failed
  }

  // ---- the code itself

  method Write(m: Message) returns (b: bytes)
    ensures b == MessageText(m)
  {
    b := Render([Chr(TypeOf(m)), SEP] + Fields(m), []);
    ghost var head := [Chr(TypeOf(m)), SEP] + Fields(m);
    if m.CreateQuorum? {
      RenderAppends(head, NumbersText(m.nodes, []));
      for k := 0 to |m.nodes|
        invariant MessageText(m) == b + NumbersText(m.nodes[k..], [])
      {
        assert m.nodes[k..][1..] == m.nodes[k + 1..];
        var f := [SEP, U64(m.nodes[k])];
        RenderAppends(f, NumbersText(m.nodes[k + 1..], []));
        b := b + Render(f, []);
      }
    }
  }

  method Read(b: bytes) returns (r: Parsed<Message>)
    ensures r == ReadMessage(b)
  {
    if |b| < 1 || Format(b[0]) == [] { return Failed; }
    var s := VReadf([KChr, KSEP] + Format(b[0]), b);
    if s.NoMatch? { return Failed; }
    if s.AssertFailed? { return Asserted; }
    ArgumentKinds(b[0], s.items);
    if b[0] != 'Q' as byte {
      return if s.rest == [] then Got(Build(b[0], s.items[2..]), []) else Failed;
    }
    if s.rest == [] { return Failed; }
    var nodes := ReadNodeList(s.items[4].n, s.rest);
    if nodes.Failed? { return Failed; }
    if nodes.Asserted? { return Asserted; }
    return if nodes.rest == [] then Got(CreateQuorum(s.items[2].s, nodes.value), []) else Failed;
  }

  method ReadNodeList(num: nat, b: bytes) returns (r: Parsed<seq<nat>>)
    ensures r == ReadNodes(num, b)
  {
    var nodes, rest := [], b;
    assert ReadNodes(num, b).Got? ==> nodes + ReadNodes(num, b).value == ReadNodes(num, b).value;
    for i := 0 to num
      invariant ReadNodes(num, b) == PrependNodes(nodes, ReadNodes(num - i, rest))
    {
      var one := VReadf([KSEP, KU64], rest);
      if one.NoMatch? { return Failed; }
      if one.AssertFailed? { return Asserted; }
      ghost var more := ReadNodes(num - i - 1, one.rest);
      assert more.Got? ==> nodes + ([one.items[1].n] + more.value) == (nodes + [one.items[1].n]) + more.value;
      nodes, rest := nodes + [one.items[1].n], one.rest;
    }
    assert ReadNodes(0, rest) == Got([], rest) && nodes + [] == nodes;
    return Got(nodes, rest);
  }

  ghost function PrependNodes(nodes: seq<nat>, r: Parsed<seq<nat>>): Parsed<seq<nat>> {
    if r.Got? then Got(nodes + r.value, r.rest) else r
  }

  // ---- reading what was written

  // Numbers have 64 bits, lengths 32.
  predicate MessageFits(m: Message) {
    (forall i :: i in Fields(m) ==> Fits(i)) && (m.CreateQuorum? ==> forall n :: n in m.nodes ==> n < TWO_TO_64)
  }

  lemma NodesStart(nodes: seq<nat>)
    ensures NoDigitFirst(NumbersText(nodes, [])) && (NumbersText(nodes, []) == [] <==> nodes == [])
  {}

  lemma {:induction false} NodesRoundTrip(nodes: seq<nat>)
    requires forall n :: n in nodes ==> n < TWO_TO_64
    ensures ReadNodes(|nodes|, NumbersText(nodes, [])) == Got(nodes, [])
  {
    hide Scan, Digits, NoDigitFirst, ItemText;
    if nodes != [] {
      assert nodes[0] in nodes && forall n :: n in nodes[1..] ==> n in nodes;
      NodesRoundTrip(nodes[1..]);
      NodesStart(nodes[1..]);
      var f := [SEP, U64(nodes[0])];
      RoundTrip(f, NumbersText(nodes[1..], []));
      assert Kinds(f) == [KSEP, KU64];
      assert nodes == [nodes[0]] + nodes[1..];
    }
  }

  lemma FieldsKinds(m: Message)
    ensures Kinds(Fields(m)) == Format(TypeOf(m)) && Format(TypeOf(m)) != []
    ensures !m.CreateQuorum? ==> Build(TypeOf(m), Fields(m)) == m
  {}

  lemma FieldsSeparated(m: Message, rest: bytes)
    requires NoDigitFirst(rest)
    ensures Separated([Chr(TypeOf(m)), SEP] + Fields(m), rest)
  {}

  lemma FitParts(m: Message)
    requires MessageFits(m)
    ensures forall i :: i in [Chr(TypeOf(m)), SEP] + Fields(m) ==> Fits(i)
    ensures m.CreateQuorum? ==> forall n :: n in m.nodes ==> n < TWO_TO_64
  {}

  lemma QuorumFields(m: Message)
    ensures TypeOf(m) == 'Q' as byte <==> m.CreateQuorum?
    ensures m.CreateQuorum? ==> Fields(m) == [Text(m.name), SEP, U32(|m.nodes|)]
  {}

  // The directives behind the type match what was printed.
  lemma HeadScanned(m: Message)
    requires MessageFits(m)
    ensures Scan([KChr, KSEP] + Format(TypeOf(m)), MessageText(m))
            == Matched([Chr(TypeOf(m)), SEP] + Fields(m), if m.CreateQuorum? then NumbersText(m.nodes, []) else [])
    ensures Kinds([Chr(TypeOf(m)), SEP] + Fields(m)) == [KChr, KSEP] + Format(TypeOf(m))
  {
    hide MessageFits, Format, Build, Fields, Separated, Scan, TypeOf, Fits, Render, NumbersText;
    var rest := if m.CreateQuorum? then NumbersText(m.nodes, []) else [];
    if m.CreateQuorum? { NodesStart(m.nodes); }
    var head, f := [Chr(TypeOf(m)), SEP], Fields(m);
    FieldsSeparated(m, rest);
    FieldsKinds(m);
    FitParts(m);
    assert Kinds(head + f) == [KChr, KSEP] + Format(TypeOf(m));
    RoundTrip(head + f, rest);
  }

  // Main result: reading undoes writing for every kind of message, except that a quorum without
  // nodes is written but not read back.
  lemma MessageRoundTrip(m: Message)
    requires MessageFits(m)
    ensures ReadMessage(MessageText(m)) == Got(m, []) <==> !(m.CreateQuorum? && m.nodes == [])
    ensures m.CreateQuorum? && m.nodes == [] ==> ReadMessage(MessageText(m)) == Failed
  {
    hide MessageFits, Format, Build, Fields, ReadNodes, Scan, TypeOf, NumbersText, MessageText, Kinds;
    HeadScanned(m);
    FitParts(m);
    FieldsKinds(m);
    QuorumFields(m);
    FirstCharacter(m);
    assert ([Chr(TypeOf(m)), SEP] + Fields(m))[2..] == Fields(m);
    if m.CreateQuorum? {
      NodesStart(m.nodes);
      NodesRoundTrip(m.nodes);
    }
  }

  lemma FirstCharacter(m: Message)
    ensures MessageText(m) != [] && MessageText(m)[0] == TypeOf(m)
  {
    hide TypeOf, Fields;
  }
}
