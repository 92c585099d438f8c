// The writers of ConfigState as the code works them: a buffer that grows by one Appendf after the
// other (src/Application/ConfigState/ConfigState.cpp, src/Application/ConfigState/ConfigShardServer.cpp).
// Each writer is told, for its proof, the text that will follow its own.

module StateWriting {
  import opened Bytes
  import opened KeyedLists
  import opened Formatting
  import opened Schema
  import opened ConfigStates
  import opened StateCodec

  // Appendf: a first try with the room that is left, and a second one with the room that the first
  // one found to be needed.
  method Appendf(items: seq<Item>, b: bytes, room: nat, ghost next: bytes) returns (r: bytes)
    ensures r + next == b + Render(items, next)
  {
    var space := new byte[room];
    var required := VWritef(space, items);
    if required > space.Length {
      space := new byte[required];
      required := VWritef(space, items);
    }
    RenderAppends(items, next);
    r := b + space[..required];
    assert b + (Render(items, []) + next) == (b + Render(items, [])) + next;
  }

  method WriteIDList(ids: seq<nat>, b: bytes, room: nat, ghost next: bytes) returns (r: bytes)
    ensures r + next == b + IDListText(ids, next)
  {
    hide Render;
    r := Appendf([U32(|ids|)], b, room, NumbersText(ids, next));
    for i := 0 to |ids|
      invariant r + NumbersText(ids[i..], next) == b + IDListText(ids, next)
    {
      assert ids[i..][1..] == ids[i + 1..];
      r := Appendf([SEP, U64(ids[i])], r, room, NumbersText(ids[i + 1..], next));
    }
  }

  method WriteOption(there: bool, n: nat, b: bytes, room: nat, ghost next: bytes) returns (r: bytes)
    ensures r + next == b + OptionText(there, n, next)
  {
    if there { r := Appendf([Chr(YES), SEP, U64(n)], b, room, next); } else { r := Appendf([Chr(NO)], b, room, next); }
  }

  method WriteQuorum(q: Keyed<Quorum>, withVolatile: bool, b: bytes, room: nat, ghost next: bytes) returns (r: bytes)
    ensures r + next == b + QuorumText(q, withVolatile, next)
  {
    hide Render, IDListText, QuorumTail;
    ghost var k3 := if withVolatile then QuorumTail(q.obj, next) else next;
    ghost var k2 := IDListText(q.obj.shards, k3);
    ghost var k1 := IDListText(q.obj.inactiveNodes, Render([SEP], k2));
    ghost var k0 := IDListText(q.obj.activeNodes, Render([SEP], k1));
    r := Appendf([U64(q.id), SEP, Text(q.obj.name)], b, room, Render([SEP], k0));
    r := Appendf([SEP], r, room, k0);
    r := WriteIDList(q.obj.activeNodes, r, room, Render([SEP], k1));
    r := Appendf([SEP], r, room, k1);
    r := WriteIDList(q.obj.inactiveNodes, r, room, Render([SEP], k2));
    r := Appendf([SEP], r, room, k2);
    r := WriteIDList(q.obj.shards, r, room, k3);
    if withVolatile { r := WriteQuorumTail(q.obj, r, room, next); }
  }

  method WriteQuorumTail(q: Quorum, b: bytes, room: nat, ghost next: bytes) returns (r: bytes)
    ensures r + next == b + QuorumTail(q, next)
  {
    hide Render, OptionText;
    ghost var k3 := OptionText(q.hasPrimary, q.primaryID, next);
    ghost var k2 := OptionText(q.isActivatingNode, q.activatingNodeID, Render([SEP, U64(q.paxosID), SEP], k3));
    ghost var k1 := Render([U64(q.configID)], Render([SEP], k2));
    r := Appendf([SEP], b, room, k1);
    r := Appendf([U64(q.configID)], r, room, Render([SEP], k2));
    r := Appendf([SEP], r, room, k2);
    r := WriteOption(q.isActivatingNode, q.activatingNodeID, r, room, Render([SEP, U64(q.paxosID), SEP], k3));
    r := Appendf([SEP, U64(q.paxosID), SEP], r, room, k3);
    r := WriteOption(q.hasPrimary, q.primaryID, r, room, next);
  }

  method WriteDatabase(d: Keyed<Database>, b: bytes, room: nat, ghost next: bytes) returns (r: bytes)
    ensures r + next == b + DatabaseText(d, next)
  {
    hide Render, IDListText;
    ghost var k := IDListText(d.obj.tables, next);
    r := Appendf([U64(d.id), SEP, Text(d.obj.name)], b, room, Render([SEP], k));
    r := Appendf([SEP], r, room, k);
    r := WriteIDList(d.obj.tables, r, room, next);
  }

  method WriteTable(t: Keyed<Table>, b: bytes, room: nat, ghost next: bytes) returns (r: bytes)
    ensures r + next == b + TableText(t, next)
  {
    hide Render, IDListText, TableItems;
    ghost var k := IDListText(t.obj.shards, next);
    r := Appendf(TableItems(t), b, room, Render([SEP], k));
    r := Appendf([SEP], r, room, k);
    r := WriteIDList(t.obj.shards, r, room, next);
  }

  method WriteShard(sh: Keyed<Shard>, withVolatile: bool, b: bytes, room: nat, ghost next: bytes) returns (r: bytes)
    ensures r + next == b + ShardText(sh, withVolatile, next)
  {
    hide Render, ShardItems;
    var tail := [SEP, U64(sh.obj.shardSize), SEP, Text(sh.obj.splitKey)];
    r := Appendf(ShardItems(sh), b, room, if withVolatile then Render(tail, next) else next);
    if withVolatile { r := Appendf(tail, r, room, next); }
  }

  method WriteQuorumPriorities(l: seq<QuorumPriority>, b: bytes, room: nat, ghost next: bytes) returns (r: bytes)
    ensures r + next == b + PriorityListText(l, next)
  {
    hide Render;
    r := Appendf([Lit(LETTER_O), SEP, U32(|l|)], b, room, PrioritiesText(l, next));
    for i := 0 to |l|
      invariant r + PrioritiesText(l[i..], next) == b + PriorityListText(l, next)
    {
      assert l[i..][1..] == l[i + 1..];
      r := Appendf([SEP, U64(l[i].quorumID), SEP, U64(l[i].priority)], r, room, PrioritiesText(l[i + 1..], next));
    }
  }

  method WriteInfoList(infos: seq<QuorumInfo>, b: bytes, room: nat, ghost next: bytes) returns (r: bytes)
    ensures r + next == b + Render([U32(|infos|)], InfosText(infos, next))
  {
    hide Render, InfoItems;
    r := Appendf([U32(|infos|)], b, room, InfosText(infos, next));
    for i := 0 to |infos|
      invariant r + InfosText(infos[i..], next) == b + Render([U32(|infos|)], InfosText(infos, next))
    {
      assert infos[i..][1..] == infos[i + 1..];
      r := Appendf(InfoItems(infos[i]), r, room, InfosText(infos[i + 1..], next));
    }
  }

  method WriteShardServer(v: Keyed<ShardServer>, withVolatile: bool, b: bytes, room: nat, ghost next: bytes) returns (r: bytes)
    ensures r + next == b + ServerText(v, withVolatile, next)
  {
    hide Render, PriorityListText, InfosText;
    ghost var k := PriorityListText(v.obj.quorumPriorities, next);
    r := Appendf([U64(v.id), SEP, Text(v.obj.endpoint)], b, room, if withVolatile then ServerTail(v.obj, k) else k);
    if withVolatile {
      ghost var k1 := Render([U32(|v.obj.quorumInfos|)], InfosText(v.obj.quorumInfos, k));
      r := Appendf([SEP, U32(v.obj.httpPort), SEP, U32(v.obj.sdbpPort), SEP, Flag(v.obj.hasHeartbeat)], r, room, Render([SEP], k1));
      r := Appendf([SEP], r, room, k1);
      r := WriteInfoList(v.obj.quorumInfos, r, room, k);
    }
    r := WriteQuorumPriorities(v.obj.quorumPriorities, r, room, next);
  }

  method WriteQuorums(l: seq<Keyed<Quorum>>, withVolatile: bool, b: bytes, room: nat, ghost next: bytes) returns (r: bytes)
    ensures r + next == b + ListText(l, QuorumWriter(withVolatile), next)
  {
    hide Render, QuorumText;
    r := Appendf([U32(|l|)], b, room, ObjectsText(l, QuorumWriter(withVolatile), next));
    for i := 0 to |l|
      invariant r + ObjectsText(l[i..], QuorumWriter(withVolatile), next) == b + ListText(l, QuorumWriter(withVolatile), next)
    {
      assert l[i..][1..] == l[i + 1..];
      ghost var k := ObjectsText(l[i + 1..], QuorumWriter(withVolatile), next);
      r := Appendf([SEP], r, room, QuorumText(l[i], withVolatile, k));
      r := WriteQuorum(l[i], withVolatile, r, room, k);
    }
  }

  method WriteDatabases(l: seq<Keyed<Database>>, b: bytes, room: nat, ghost next: bytes) returns (r: bytes)
    ensures r + next == b + ListText(l, DatabaseText, next)
  {
    hide Render, DatabaseText;
    r := Appendf([U32(|l|)], b, room, ObjectsText(l, DatabaseText, next));
    for i := 0 to |l|
      invariant r + ObjectsText(l[i..], DatabaseText, next) == b + ListText(l, DatabaseText, next)
    {
      assert l[i..][1..] == l[i + 1..];
      ghost var k := ObjectsText(l[i + 1..], DatabaseText, next);
      r := Appendf([SEP], r, room, DatabaseText(l[i], k));
      r := WriteDatabase(l[i], r, room, k);
    }
  }

  method WriteTables(l: seq<Keyed<Table>>, b: bytes, room: nat, ghost next: bytes) returns (r: bytes)
    ensures r + next == b + ListText(l, TableText, next)
  {
    hide Render, TableText;
    r := Appendf([U32(|l|)], b, room, ObjectsText(l, TableText, next));
    for i := 0 to |l|
      invariant r + ObjectsText(l[i..], TableText, next) == b + ListText(l, TableText, next)
    {
      assert l[i..][1..] == l[i + 1..];
      ghost var k := ObjectsText(l[i + 1..], TableText, next);
      r := Appendf([SEP], r, room, TableText(l[i], k));
      r := WriteTable(l[i], r, room, k);
    }
  }

  method WriteShards(l: seq<Keyed<Shard>>, withVolatile: bool, b: bytes, room: nat, ghost next: bytes) returns (r: bytes)
    ensures r + next == b + ListText(l, ShardWriter(withVolatile), next)
  {
    hide Render, ShardText;
    r := Appendf([U32(|l|)], b, room, ObjectsText(l, ShardWriter(withVolatile), next));
    for i := 0 to |l|
      invariant r + ObjectsText(l[i..], ShardWriter(withVolatile), next) == b + ListText(l, ShardWriter(withVolatile), next)
    {
      assert l[i..][1..] == l[i + 1..];
      ghost var k := ObjectsText(l[i + 1..], ShardWriter(withVolatile), next);
      r := Appendf([SEP], r, room, ShardText(l[i], withVolatile, k));
      r := WriteShard(l[i], withVolatile, r, room, k);
    }
  }

  method WriteShardServers(l: seq<Keyed<ShardServer>>, withVolatile: bool, b: bytes, room: nat, ghost next: bytes) returns (r: bytes)
    ensures r + next == b + ListText(l, ServerWriter(withVolatile), next)
  {
    hide Render, ServerText;
    r := Appendf([U32(|l|)], b, room, ObjectsText(l, ServerWriter(withVolatile), next));
    for i := 0 to |l|
      invariant r + ObjectsText(l[i..], ServerWriter(withVolatile), next) == b + ListText(l, ServerWriter(withVolatile), next)
    {
      assert l[i..][1..] == l[i + 1..];
      ghost var k := ObjectsText(l[i + 1..], ServerWriter(withVolatile), next);
      r := Appendf([SEP], r, room, ServerText(l[i], withVolatile, k));
      r := WriteShardServer(l[i], withVolatile, r, room, k);
    }
  }

  method WriteLists(state: ConfigState, withVolatile: bool, b: bytes, room: nat) returns (r: bytes)
    ensures r == b + BodyText(state.View(), withVolatile)
  {
    hide Render, ListText, NextIDItems;
    ghost var s := state.View();
    ghost var k5 := ListText(s.shardServers, ServerWriter(withVolatile), []);
    ghost var k4 := ListText(s.shards, ShardWriter(withVolatile), Render([SEP], k5));
    ghost var k3 := ListText(s.tables, TableText, Render([SEP], k4));
    ghost var k2 := ListText(s.databases, DatabaseText, Render([SEP], k3));
    ghost var k1 := ListText(s.quorums, QuorumWriter(withVolatile), Render([SEP], k2));
    r := WriteNextIDs(state, b, room, Render([SEP], k1));
    r := Appendf([SEP], r, room, k1);
    r := WriteQuorums(state.quorums, withVolatile, r, room, Render([SEP], k2));
    r := Appendf([SEP], r, room, k2);
    r := WriteDatabases(state.databases, r, room, Render([SEP], k3));
    r := Appendf([SEP], r, room, k3);
    r := WriteTables(state.tables, r, room, Render([SEP], k4));
    r := Appendf([SEP], r, room, k4);
    r := WriteShards(state.shards, withVolatile, r, room, Render([SEP], k5));
    r := Appendf([SEP], r, room, k5);
    r := WriteShardServers(state.shardServers, withVolatile, r, room, []);
    assert r + [] == r;
  }

  method WriteNextIDs(state: ConfigState, b: bytes, room: nat, ghost next: bytes) returns (r: bytes)
    ensures r + next == b + Render(NextIDItems(state.View()), next)
  {
    hide Render;
    r := Appendf([U64(state.nextQuorumID), SEP, U64(state.nextDatabaseID), SEP, U64(state.nextTableID), SEP,
                  U64(state.nextShardID), SEP, U64(state.nextNodeID)], b, room, next);
  }

  method WriteMaster(state: ConfigState, b: bytes, room: nat, ghost next: bytes) returns (r: bytes)
    ensures r + next == b + MasterText(state.View(), next)
  {
    if state.hasMaster {
      ghost var k1 := Render([SEP, Lit(LETTER_P), U64(state.paxosID)], next);
      RenderConcat([Chr(YES)], [SEP, U64(state.masterID)], k1);
      RenderConcat([SEP], [U64(state.masterID)], k1);
      assert [Chr(YES)] + [SEP, U64(state.masterID)] == [Chr(YES), SEP, U64(state.masterID)];
      assert [SEP] + [U64(state.masterID)] == [SEP, U64(state.masterID)];
      hide Render;
      r := Appendf([Chr(YES), SEP, U64(state.masterID)], b, room, k1);
      r := Appendf([SEP, Lit(LETTER_P), U64(state.paxosID)], r, room, next);
    } else {
      r := Appendf([Chr(NO)], b, room, next);
    }
  }

  method WriteMigration(state: ConfigState, b: bytes, room: nat, ghost next: bytes) returns (r: bytes)
    ensures r + next == b + MigrationText(state.View(), next)
  {
    if state.isMigrating {
      var items := [U64(state.migrateSrcShardID), SEP, U64(state.migrateDstShardID), SEP, U64(state.migrateQuorumID)];
      RenderConcat([Chr(YES)], [SEP] + items, next);
      RenderConcat([SEP], items, next);
      hide Render;
      r := Appendf([Chr(YES)] + ([SEP] + items), b, room, next);
    } else {
      r := Appendf([Chr(NO)], b, room, next);
    }
  }

  // ConfigState::Write.
  method Write(state: ConfigState, withVolatile: bool, b: bytes, room: nat) returns (r: bytes)
    ensures r == b + StateText(state.View(), withVolatile)
  {
    hide Render, BodyText, MasterText, MigrationText;
    r := b;
    if withVolatile {
      ghost var s := state.View();
      ghost var k2 := BodyText(s, true);
      ghost var k1 := MigrationText(s, Render([SEP], k2));
      ghost var k0 := MasterText(s, Render([SEP], k1));
      r := Appendf([Chr(PREFIX)], r, room, Render([SEP], k0));
      r := Appendf([SEP], r, room, k0);
      r := WriteMaster(state, r, room, Render([SEP], k1));
      r := Appendf([SEP], r, room, k1);
      r := WriteMigration(state, r, room, Render([SEP], k2));
      r := Appendf([SEP], r, room, k2);
    }
    r := WriteLists(state, withVolatile, r, room);
  }
}
