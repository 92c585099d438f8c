// The readers of ConfigState as the code works them: a position that moves through the text, lists
// that grow, counters that are raised as numbers go by
// (src/Application/ConfigState/ConfigState.cpp, src/Application/ConfigState/ConfigShardServer.cpp).

module StateReading {
  import opened Bytes
  import opened KeyedLists
  import opened Formatting
  import opened Schema
  import opened ConfigStates
  import C = StateCodec

  // Readf, and Advance over what was read if that is enough.
  method Readf(kinds: seq<Kind>, least: nat, b: bytes) returns (r: Parsed<seq<Item>>)
    ensures r == C.Field(kinds, least, b)
  {
    var s := VReadf(kinds, b);
    if s.AssertFailed? { return Asserted; }
    if s.NoMatch? || |b| - |s.rest| < least { return Failed; }
    return Got(s.items, s.rest);
  }

  method ReadIDList(sorted: bool, b: bytes) returns (r: Parsed<seq<nat>>)
    ensures r == C.ReadIDList(sorted, b)
  {
    hide C.Field;
    var f :- Readf([KU32], 1, b);
    var num, ids, rest := f.value[0].n, [], f.rest;
    for i := 0 to num
      invariant C.ReadIDList(sorted, b) == C.ReadNumbers(num - i, sorted, ids, rest)
    {
      var s :- Readf([KSEP], 1, rest);
      var id :- Readf([KU64], 1, s.rest);
      ids, rest := C.AddTo(sorted, ids, id.value[0].n), id.rest;
    }
    return Got(ids, rest);
  }

  // What a reader of a list still gives when done has been read before.
  ghost function After<T>(done: seq<T>, r: Parsed<seq<T>>): Parsed<seq<T>> {
    if r.Got? then Got(done + r.value, r.rest) else r
  }

  lemma AfterOne<T>(done: seq<T>, x: T, r: Parsed<seq<T>>)
    ensures r.Got? ==> After(done, Got([x] + r.value, r.rest)) == After(done + [x], r)
  {
    if r.Got? { assert done + ([x] + r.value) == (done + [x]) + r.value; }
  }

  lemma AfterNone<T>(r: Parsed<seq<T>>)
    ensures After([], r) == r
  {
    if r.Got? { assert [] + r.value == r.value; }
  }

  method ReadInfoList(b: bytes) returns (r: Parsed<seq<QuorumInfo>>)
    ensures r == (var f := C.Field([KU32], 1, b); if f.Got? then C.ReadInfos(f.value[0].n, f.rest) else f.PropagateFailure())
  {
    hide C.Field;
    var f :- Readf([KU32], 1, b);
    var num, infos, rest := f.value[0].n, [], f.rest;
    AfterNone(C.ReadInfos(num, rest));
    for i := 0 to num
      invariant C.ReadInfos(num, f.rest) == After(infos, C.ReadInfos(num - i, rest))
    {
      var g :- Readf(C.INFO_KINDS, 4, rest);
      AfterOne(infos, C.InfoOf(g.value), C.ReadInfos(num - i - 1, g.rest));
      infos, rest := infos + [C.InfoOf(g.value)], g.rest;
    }
    assert infos + [] == infos;
    return Got(infos, rest);
  }

  method ReadQuorumPriorities(b: bytes) returns (r: Parsed<seq<QuorumPriority>>)
    ensures r == C.ReadPriorityList(b)
  {
    hide C.Field;
    if |b| == 0 || b[0] != C.LETTER_O { return Got([], b); }
    var f :- Readf([KLit(C.LETTER_O), KSEP, KU32], 3, b);
    var num, l, rest := f.value[2].n, [], f.rest;
    AfterNone(C.ReadPriorities(num, rest));
    for i := 0 to num
      invariant C.ReadPriorities(num, f.rest) == After(l, C.ReadPriorities(num - i, rest))
    {
      var g :- Readf([KSEP, KU64, KSEP, KU64], 4, rest);
      var p := QuorumPriority(g.value[1].n, g.value[3].n);
      AfterOne(l, p, C.ReadPriorities(num - i - 1, g.rest));
      l, rest := l + [p], g.rest;
    }
    assert l + [] == l;
    return Got(l, rest);
  }

  method ReadOption(b: bytes) returns (r: Parsed<Option<nat>>)
    ensures r == C.ReadOption(b)
  {
    hide C.Field;
    var c :- Readf([KChr], 1, b);
    if c.value[0].c != C.YES { return Got(None, c.rest); }
    var s :- Readf([KSEP], 1, c.rest);
    var f :- Readf([KU64], 1, s.rest);
    return Got(Some(f.value[0].n), f.rest);
  }

  method ReadQuorum(withVolatile: bool, b: bytes) returns (r: Parsed<Keyed<Quorum>>)
    ensures r == C.ReadQuorum(withVolatile, b)
  {
    hide C.Field, C.ReadIDList, C.ReadOption, C.ReadQuorumTail;
    var f :- Readf([KU64, KSEP, KText], 4, b);
    var s :- Readf([KSEP], 1, f.rest);
    var active :- ReadIDList(true, s.rest);
    s :- Readf([KSEP], 1, active.rest);
    var inactive :- ReadIDList(true, s.rest);
    s :- Readf([KSEP], 1, inactive.rest);
    var shards :- ReadIDList(true, s.rest);
    var q := NewQuorum.(name := f.value[2].s, activeNodes := active.value, inactiveNodes := inactive.value,
                        shards := shards.value);
    var rest := shards.rest;
    if withVolatile {
      var t :- ReadVolatile(q, rest);
      q, rest := t.value, t.rest;
    }
    return Got(Keyed(f.value[0].n, q), rest);
  }

  method ReadVolatile(q: Quorum, b: bytes) returns (r: Parsed<Quorum>)
    ensures r == C.ReadQuorumTail(q, b)
  {
    hide C.Field, C.ReadOption;
    var s :- Readf([KSEP], 1, b);
    var c :- Readf([KU64], 1, s.rest);
    s :- Readf([KSEP], 1, c.rest);
    var v := q.(configID := c.value[0].n);
    var activating :- ReadOption(s.rest);
    if activating.value.Some? { v := v.(activatingNodeID := activating.value.value, isActivatingNode := true); }
    else { v := v.(activatingNodeID := 0, isActivatingNode := false); }
    var p :- Readf([KSEP, KU64, KSEP], 3, activating.rest);
    v := v.(paxosID := p.value[1].n);
    var primary :- ReadOption(p.rest);
    if primary.value.Some? { v := v.(primaryID := primary.value.value, hasPrimary := true); }
    else { v := v.(primaryID := 0, hasPrimary := false); }
    return Got(v, primary.rest);
  }

  method ReadDatabase(b: bytes) returns (r: Parsed<Keyed<Database>>)
    ensures r == C.ReadDatabase(b)
  {
    hide C.Field, C.ReadIDList;
    var f :- Readf([KU64, KSEP, KText], 5, b);
    var s :- Readf([KSEP], 1, f.rest);
    var tables :- ReadIDList(false, s.rest);
    return Got(Keyed(f.value[0].n, Database(f.value[2].s, tables.value)), tables.rest);
  }

  method ReadTable(b: bytes) returns (r: Parsed<Keyed<Table>>)
    ensures r == C.ReadTable(b)
  {
    hide C.Field, C.ReadIDList;
    var f :- Readf([KU64, KSEP, KU64, KSEP, KText, KSEP, KFlag], 5, b);
    var s :- Readf([KSEP], 1, f.rest);
    var shards :- ReadIDList(false, s.rest);
    var v := f.value;
    return Got(Keyed(v[2].n, Table(v[0].n, v[4].s, v[6].v, shards.value)), shards.rest);
  }

  method ReadShard(withVolatile: bool, b: bytes) returns (r: Parsed<Keyed<Shard>>)
    ensures r == C.ReadShard(withVolatile, b)
  {
    hide C.Field;
    var f :- Readf(C.SHARD_KINDS, 15, b);
    var v, rest := f.value, f.rest;
    var shard := Shard(v[0].n, v[2].n, v[10].n, v[12].n, v[6].s, v[8].s, 0, [], false);
    if withVolatile {
      var t :- Readf([KSEP, KU64, KSEP, KText], 5, rest);
      shard, rest := shard.(shardSize := t.value[1].n, splitKey := t.value[3].s), t.rest;
    }
    return Got(Keyed(v[4].n, shard), rest);
  }

  method ReadShardServer(withVolatile: bool, b: bytes) returns (r: Parsed<Keyed<ShardServer>>)
    ensures r == C.ReadServer(withVolatile, b)
  {
    hide C.Field, C.ReadInfos, C.ReadPriorityList;
    var f :- Readf([KU64, KSEP, KText], 3, b);
    var server, rest := NewShardServer(f.value[2].s), f.rest;
    if withVolatile {
      var g :- Readf([KSEP, KU32, KSEP, KU32, KSEP, KFlag], 6, rest);
      var s :- Readf([KSEP], 1, g.rest);
      var infos :- ReadInfoList(s.rest);
      server := server.(httpPort := g.value[1].n, sdbpPort := g.value[3].n, hasHeartbeat := g.value[5].v,
                        quorumInfos := infos.value);
      rest := infos.rest;
    }
    var p :- ReadQuorumPriorities(rest);
    return Got(Keyed(f.value[0].n, server.(quorumPriorities := p.value)), p.rest);
  }

  lemma {:induction false} RepairAppend<T>(next: nat, l: seq<Keyed<T>>, x: Keyed<T>)
    ensures C.Repair(next, l + [x]) == if x.id >= C.Repair(next, l) then x.id + 1 else C.Repair(next, l)
    decreases |l|
  {
    if l == [] {
      assert l + [x] == [x] && [x][1..] == [];
    } else {
      assert (l + [x])[1..] == l[1..] + [x];
      RepairAppend(if l[0].id >= next then l[0].id + 1 else next, l[1..], x);
    }
  }

  // The master, and the position in the log that newer versions write with it.
  method MasterPart(ghost s: State, b: bytes) returns (r: Parsed<Option<(nat, Option<nat>)>>)
    ensures C.ReadMaster(s, b) ==
              if !r.Got? then r.PropagateFailure()
              else if r.value.None? then Got(s, r.rest)
              else
                var m := s.(hasMaster := true, masterID := r.value.value.0);
                Got(if r.value.value.1.Some? then m.(paxosID := r.value.value.1.value) else m, r.rest)
  {
    hide C.Field, Scan;
    var c :- Readf([KChr], 1, b);
    if c.value[0].c != C.YES { return Got(None, c.rest); }
    var t :- Readf([KSEP], 1, c.rest);
    var id :- Readf([KU64], 1, t.rest);
    var p := VReadf([KSEP, KLit(C.LETTER_P), KU64], id.rest);
    if p.AssertFailed? { return Asserted; }
    if p.NoMatch? { return Got(Some((id.value[0].n, None)), id.rest); }
    return Got(Some((id.value[0].n, Some(p.items[2].n))), p.rest);
  }

  method MigrationPart(ghost s: State, b: bytes) returns (r: Parsed<Option<(nat, nat, nat)>>)
    ensures C.ReadMigration(s, b) ==
              if !r.Got? then r.PropagateFailure()
              else if r.value.None? then Got(s, r.rest)
              else
                var m := r.value.value;
                Got(s.(isMigrating := true, migrateSrcShardID := m.0, migrateDstShardID := m.1, migrateQuorumID := m.2), r.rest)
  {
    hide C.Field;
    var c :- Readf([KChr], 1, b);
    if c.value[0].c != C.YES { return Got(None, c.rest); }
    var t :- Readf([KSEP], 1, c.rest);
    var f :- Readf([KU64, KSEP, KU64, KSEP, KU64], 1, t.rest);
    return Got(Some((f.value[0].n, f.value[2].n, f.value[4].n)), f.rest);
  }

  // Before the first turn of a list reader, and after the last one.
  lemma NoneRead<T>(next: nat, num: nat, read: bytes -> Parsed<Keyed<T>>, b: bytes)
    ensures After([], C.ReadObjects(num, read, b)) == C.ReadObjects(num, read, b) && C.Repair<T>(next, []) == next
  {
    AfterNone(C.ReadObjects(num, read, b));
  }

  lemma AllRead<T>(done: seq<T>, read: bytes -> Parsed<T>, b: bytes)
    ensures After(done, C.ReadObjects(0, read, b)) == Got(done, b)
  {
    assert done + [] == done;
  }

  // What one turn of a list reader means for what is still to come.
  lemma OneMore<T>(done: seq<T>, num: nat, read: bytes -> Parsed<T>, b: bytes, rest: bytes, x: T, rest': bytes)
    requires num > 0 && C.Field([KSEP], 1, b).Got? && C.Field([KSEP], 1, b).rest == rest && read(rest) == Got(x, rest')
    ensures After(done, C.ReadObjects(num, read, b)) == After(done + [x], C.ReadObjects(num - 1, read, rest'))
  {
    hide C.Field;
    AfterOne(done, x, C.ReadObjects(num - 1, read, rest'));
  }

  // Reading fails as soon as a separator or an object fails.
  lemma NoMore<T>(done: seq<T>, num: nat, read: bytes -> Parsed<T>, b: bytes)
    requires num > 0
    requires var s := C.Field([KSEP], 1, b); !s.Got? || !read(s.rest).Got?
    ensures !After(done, C.ReadObjects(num, read, b)).Got?
  {}

  // A state that is being read from a text.
  class StateReader {
    const state: ConfigState
    var buffer: bytes

    constructor (state: ConfigState, b: bytes)
      ensures this.state == state && buffer == b
    {
      this.state, buffer := state, b;
    }

    method ReadQuorums(withVolatile: bool) returns (ok: bool)
      requires state.quorums == []
      modifies state`quorums, state`nextQuorumID, this`buffer
      ensures Agrees(ok, C.ReadQuorums(old(state.View()), withVolatile, old(buffer)), state.View(), buffer)
    {
      hide C.Field, C.ReadObjects, C.Repair, C.ReadQuorum, C.ReadDatabase, C.ReadTable, C.ReadShard, C.ReadServer, After;
      var f := Readf([KU32], 1, buffer);
      if !f.Got? { return false; }
      buffer := f.rest;
      ghost var done := [];
      NoneRead(state.nextQuorumID, f.value[0].n, C.QuorumReader(withVolatile), buffer);
      for i := 0 to f.value[0].n
        invariant C.ReadList(C.QuorumReader(withVolatile), old(buffer)) == After(done, C.ReadObjects(f.value[0].n - i, C.QuorumReader(withVolatile), buffer))
        invariant state.quorums == done && state.nextQuorumID == C.Repair(old(state.nextQuorumID), done)
      {
        var s := Readf([KSEP], 1, buffer);
        var x := Failed;
        if s.Got? { x := ReadQuorum(withVolatile, s.rest); }
        if !x.Got? {
          NoMore(done, f.value[0].n - i, C.QuorumReader(withVolatile), buffer);
          return false;
        }
        OneMore(done, f.value[0].n - i, C.QuorumReader(withVolatile), buffer, s.rest, x.value, x.rest);
        RepairAppend(old(state.nextQuorumID), done, x.value);
        buffer := x.rest;
        if x.value.id >= state.nextQuorumID { state.nextQuorumID := x.value.id + 1; }
        state.quorums := state.quorums + [x.value];
        done := done + [x.value];
      }
      AllRead(done, C.QuorumReader(withVolatile), buffer);
      return true;
    }

    method ReadDatabases() returns (ok: bool)
      requires state.databases == []
      modifies state`databases, state`nextDatabaseID, this`buffer
      ensures Agrees(ok, C.ReadDatabases(old(state.View()), old(buffer)), state.View(), buffer)
    {
      hide C.Field, C.ReadObjects, C.Repair, C.ReadQuorum, C.ReadDatabase, C.ReadTable, C.ReadShard, C.ReadServer, After;
      var f := Readf([KU32], 1, buffer);
      if !f.Got? { return false; }
      buffer := f.rest;
      ghost var done := [];
      NoneRead(state.nextDatabaseID, f.value[0].n, C.ReadDatabase, buffer);
      for i := 0 to f.value[0].n
        invariant C.ReadList(C.ReadDatabase, old(buffer)) == After(done, C.ReadObjects(f.value[0].n - i, C.ReadDatabase, buffer))
        invariant state.databases == done && state.nextDatabaseID == C.Repair(old(state.nextDatabaseID), done)
      {
        var s := Readf([KSEP], 1, buffer);
        var x := Failed;
        if s.Got? { x := ReadDatabase(s.rest); }
        if !x.Got? {
          NoMore(done, f.value[0].n - i, C.ReadDatabase, buffer);
          return false;
        }
        OneMore(done, f.value[0].n - i, C.ReadDatabase, buffer, s.rest, x.value, x.rest);
        RepairAppend(old(state.nextDatabaseID), done, x.value);
        buffer := x.rest;
        if x.value.id >= state.nextDatabaseID { state.nextDatabaseID := x.value.id + 1; }
        state.databases := state.databases + [x.value];
        done := done + [x.value];
      }
      AllRead(done, C.ReadDatabase, buffer);
      return true;
    }

    method ReadTables() returns (ok: bool)
      requires state.tables == []
      modifies state`tables, state`nextTableID, this`buffer
      ensures Agrees(ok, C.ReadTables(old(state.View()), old(buffer)), state.View(), buffer)
    {
      hide C.Field, C.ReadObjects, C.Repair, C.ReadQuorum, C.ReadDatabase, C.ReadTable, C.ReadShard, C.ReadServer, After;
      var f := Readf([KU32], 1, buffer);
      if !f.Got? { return false; }
      buffer := f.rest;
      ghost var done := [];
      NoneRead(state.nextTableID, f.value[0].n, C.ReadTable, buffer);
      for i := 0 to f.value[0].n
        invariant C.ReadList(C.ReadTable, old(buffer)) == After(done, C.ReadObjects(f.value[0].n - i, C.ReadTable, buffer))
        invariant state.tables == done && state.nextTableID == C.Repair(old(state.nextTableID), done)
      {
        var s := Readf([KSEP], 1, buffer);
        var x := Failed;
        if s.Got? { x := ReadTable(s.rest); }
        if !x.Got? {
          NoMore(done, f.value[0].n - i, C.ReadTable, buffer);
          return false;
        }
        OneMore(done, f.value[0].n - i, C.ReadTable, buffer, s.rest, x.value, x.rest);
        RepairAppend(old(state.nextTableID), done, x.value);
        buffer := x.rest;
        if x.value.id >= state.nextTableID { state.nextTableID := x.value.id + 1; }
        state.tables := state.tables + [x.value];
        done := done + [x.value];
      }
      AllRead(done, C.ReadTable, buffer);
      return true;
    }

    method ReadShards(withVolatile: bool) returns (ok: bool)
      requires state.shards == []
      modifies state`shards, state`nextShardID, this`buffer
      ensures Agrees(ok, C.ReadShards(old(state.View()), withVolatile, old(buffer)), state.View(), buffer)
    {
      hide C.Field, C.ReadObjects, C.Repair, C.ReadQuorum, C.ReadDatabase, C.ReadTable, C.ReadShard, C.ReadServer, After;
      var f := Readf([KU32], 1, buffer);
      if !f.Got? { return false; }
      buffer := f.rest;
      ghost var done := [];
      NoneRead(state.nextShardID, f.value[0].n, C.ShardReader(withVolatile), buffer);
      for i := 0 to f.value[0].n
        invariant C.ReadList(C.ShardReader(withVolatile), old(buffer)) == After(done, C.ReadObjects(f.value[0].n - i, C.ShardReader(withVolatile), buffer))
        invariant state.shards == done && state.nextShardID == C.Repair(old(state.nextShardID), done)
      {
        var s := Readf([KSEP], 1, buffer);
        var x := Failed;
        if s.Got? { x := ReadShard(withVolatile, s.rest); }
        if !x.Got? {
          NoMore(done, f.value[0].n - i, C.ShardReader(withVolatile), buffer);
          return false;
        }
        OneMore(done, f.value[0].n - i, C.ShardReader(withVolatile), buffer, s.rest, x.value, x.rest);
        RepairAppend(old(state.nextShardID), done, x.value);
        buffer := x.rest;
        if x.value.id >= state.nextShardID { state.nextShardID := x.value.id + 1; }
        state.shards := state.shards + [x.value];
        done := done + [x.value];
      }
      AllRead(done, C.ShardReader(withVolatile), buffer);
      return true;
    }

    method ReadShardServers(withVolatile: bool) returns (ok: bool)
      requires state.shardServers == []
      modifies state`shardServers, state`nextNodeID, this`buffer
      ensures Agrees(ok, C.ReadShardServers(old(state.View()), withVolatile, old(buffer)), state.View(), buffer)
    {
      hide C.Field, C.ReadObjects, C.Repair, C.ReadQuorum, C.ReadDatabase, C.ReadTable, C.ReadShard, C.ReadServer, After;
      var f := Readf([KU32], 1, buffer);
      if !f.Got? { return false; }
      buffer := f.rest;
      ghost var done := [];
      NoneRead(state.nextNodeID, f.value[0].n, C.ServerReader(withVolatile), buffer);
      for i := 0 to f.value[0].n
        invariant C.ReadList(C.ServerReader(withVolatile), old(buffer)) == After(done, C.ReadObjects(f.value[0].n - i, C.ServerReader(withVolatile), buffer))
        invariant state.shardServers == done && state.nextNodeID == C.Repair(old(state.nextNodeID), done)
      {
        var s := Readf([KSEP], 1, buffer);
        var x := Failed;
        if s.Got? { x := ReadShardServer(withVolatile, s.rest); }
        if !x.Got? {
          NoMore(done, f.value[0].n - i, C.ServerReader(withVolatile), buffer);
          return false;
        }
        OneMore(done, f.value[0].n - i, C.ServerReader(withVolatile), buffer, s.rest, x.value, x.rest);
        RepairAppend(old(state.nextNodeID), done, x.value);
        buffer := x.rest;
        if x.value.id >= state.nextNodeID { state.nextNodeID := x.value.id + 1; }
        state.shardServers := state.shardServers + [x.value];
        done := done + [x.value];
      }
      AllRead(done, C.ServerReader(withVolatile), buffer);
      return true;
    }

    method ReadSeparator() returns (ok: bool)
      modifies this`buffer
      ensures var r := C.Field([KSEP], 1, old(buffer)); ok == r.Got? && (ok ==> buffer == r.rest)
    {
      hide C.Field;
      var s := Readf([KSEP], 1, buffer);
      if s.Got? { buffer := s.rest; }
      return s.Got?;
    }

    method ReadNextIDs() returns (ok: bool)
      modifies state`nextQuorumID, state`nextDatabaseID, state`nextTableID, state`nextShardID, state`nextNodeID, this`buffer
      ensures Agrees(ok, C.ReadNextIDs(old(state.View()), old(buffer)), state.View(), buffer)
    {
      hide C.Field;
      var n := Readf(C.NEXT_ID_KINDS, 9, buffer);
      if !n.Got? { return false; }
      var v := n.value;
      state.SetNextIDs(v[0].n, v[2].n, v[4].n, v[6].n, v[8].n);
      buffer := n.rest;
      return true;
    }

    method ReadMaster() returns (ok: bool)
      modifies state`hasMaster, state`masterID, state`paxosID, this`buffer
      ensures Agrees(ok, C.ReadMaster(old(state.View()), old(buffer)), state.View(), buffer)
    {
      hide C.ReadMaster;
      var m := MasterPart(state.View(), buffer);
      if !m.Got? { return false; }
      buffer := m.rest;
      if m.value.Some? {
        state.masterID, state.hasMaster := m.value.value.0, true;
        if m.value.value.1.Some? { state.paxosID := m.value.value.1.value; }
      }
      return true;
    }

    method ReadMigration() returns (ok: bool)
      modifies state`isMigrating, state`migrateSrcShardID, state`migrateDstShardID, state`migrateQuorumID, this`buffer
      ensures Agrees(ok, C.ReadMigration(old(state.View()), old(buffer)), state.View(), buffer)
    {
      hide C.ReadMigration;
      var m := MigrationPart(state.View(), buffer);
      if !m.Got? { return false; }
      buffer := m.rest;
      if m.value.Some? {
        state.isMigrating, state.migrateSrcShardID := true, m.value.value.0;
        state.migrateDstShardID, state.migrateQuorumID := m.value.value.1, m.value.value.2;
      }
      return true;
    }

    method ReadLists(withVolatile: bool) returns (ok: bool)
      requires state.quorums == [] && state.databases == [] && state.tables == [] && state.shards == []
      requires state.shardServers == []
      modifies state, this`buffer
      ensures Agrees(ok, C.ReadBody(old(state.View()), withVolatile, old(buffer)), state.View(), buffer)
      ensures ok ==> buffer == []
    {
      hide C.Field, C.ReadQuorums, C.ReadDatabases, C.ReadTables, C.ReadShards, C.ReadShardServers, C.ReadNextIDs,
        ConfigState.View;
      ok := ReadNextIDs();
      if !ok { return; }
      ok := ReadSeparator();
      if !ok { return; }
      ok := ReadQuorums(withVolatile);
      if !ok { return; }
      ok := ReadSeparator();
      if !ok { return; }
      ok := ReadDatabases();
      if !ok { return; }
      ok := ReadSeparator();
      if !ok { return; }
      ok := ReadTables();
      if !ok { return; }
      ok := ReadSeparator();
      if !ok { return; }
      ok := ReadShards(withVolatile);
      if !ok { return; }
      ok := ReadSeparator();
      if !ok { return; }
      ok := ReadShardServers(withVolatile);
      if !ok { return; }
      return |buffer| == 0;
    }

    // ConfigState::Read: what StateRoundTrip says of ReadState holds of it.
    method Read(withVolatile: bool) returns (ok: bool)
      modifies state, this`buffer
      ensures Agrees(ok, C.ReadState(withVolatile, old(buffer)), state.View(), buffer)
      ensures ok ==> buffer == []
    {
      hide C.Field, C.ReadMaster, C.ReadMigration, C.ReadBody;
      state.Init();
      if withVolatile {
        var c := Readf([KChr], 1, buffer);
        if !c.Got? { return false; }
        buffer := c.rest;
        if c.value[0].c != C.PREFIX { return false; }
        ok := ReadSeparator();
        if !ok { return; }
        ok := ReadMaster();
        if !ok { return; }
        ok := ReadSeparator();
        if !ok { return; }
        ok := ReadMigration();
        if !ok { return; }
        ok := ReadSeparator();
        if !ok { return; }
      }
      ok := ReadLists(withVolatile);
    }
  }

  // A reader that succeeds gives the value and the rest that the function gives; where the function
  // fails or stops at an assertion, it does not succeed.
  ghost predicate Agrees(ok: bool, r: Parsed<State>, view: State, buffer: bytes) {
    ok == r.Got? && (ok ==> r.value == view && r.rest == buffer)
  }
}
