// Every accepted log entry keeps the state well-formed and, under the conditions named in
// Applicable, fails no assertion.

module SchemaSteps {
  import opened Bytes
  import opened KeyedLists
  import opened Links
  import opened KeyRanges
  import opened ConfigMessages
  import opened Schema
  import opened SchemaInvariant

  // ---- steps that change no link and no range

  lemma ServersKeep(s: State, servers: seq<Keyed<ShardServer>>, next: nat)
    requires WellFormed(s) && Unique(servers) && Below(AsMap(servers), CONFIG_MIN_SHARD_NODE_ID, next)
    ensures WellFormed(s.(shardServers := servers, nextNodeID := next))
  {
    hide Consistent;
    assert StructureOf(s.(shardServers := servers, nextNodeID := next)) == StructureOf(s);
  }

  lemma PutQuorumKeeps(s: State, q: nat, o: Quorum)
    requires WellFormed(s) && Has(s.quorums, q) && o.shards == Get(s.quorums, q).shards
    ensures WellFormed(PutQuorum(s, q, o))
  {
    hide Consistent;
    QuorumMap(AsMap(s.quorums), q, o);
    assert StructureOf(PutQuorum(s, q, o)) == StructureOf(s);
  }

  lemma PutTableKeeps(s: State, t: nat, o: Table)
    requires WellFormed(s) && Has(s.tables, t)
    requires o.shards == Get(s.tables, t).shards && o.databaseID == Get(s.tables, t).databaseID
    requires TableNamesUnique(AsMap(s.tables)[t := o])
    ensures WellFormed(s.(tables := Put(s.tables, t, o)))
  {
    hide Consistent;
    hide TableOf, QuorumOf, RangeOf, DatabaseOf, TableShards, QuorumShards, DatabaseTables;
    SameTableMaps(AsMap(s.tables), t, o);
    assert StructureOf(s.(tables := Put(s.tables, t, o))) == StructureOf(s);
  }

  lemma PutShardKeeps(s: State, id: nat, o: Shard)
    requires WellFormed(s) && Has(s.shards, id)
    requires var p := Get(s.shards, id);
             o.tableID == p.tableID && o.quorumID == p.quorumID && o.firstKey == p.firstKey && o.lastKey == p.lastKey
    ensures WellFormed(s.(shards := Put(s.shards, id, o)))
  {
    hide Consistent;
    hide TableOf, QuorumOf, RangeOf, DatabaseOf, TableShards, QuorumShards, DatabaseTables;
    SameShardMaps(AsMap(s.shards), id, o);
    assert StructureOf(s.(shards := Put(s.shards, id, o))) == StructureOf(s);
  }

  lemma PutDatabaseKeeps(s: State, d: nat, o: Database)
    requires WellFormed(s) && Has(s.databases, d) && o.tables == Get(s.databases, d).tables
    requires DatabaseNamesUnique(AsMap(s.databases)[d := o])
    ensures WellFormed(s.(databases := Put(s.databases, d, o)))
  {
    hide Consistent;
    DatabaseMap(AsMap(s.databases), d, o);
    assert StructureOf(s.(databases := Put(s.databases, d, o))) == StructureOf(s);
  }

  // ---- names

  lemma DatabaseNameFree(s: State, name: bytes)
    requires DatabaseNamed(s.databases, name) == |s.databases|
    ensures forall d :: d in AsMap(s.databases) ==> AsMap(s.databases)[d].name != name
  {
    forall d | d in AsMap(s.databases) ensures AsMap(s.databases)[d].name != name {
      assert Has(s.databases, d) && s.databases[IndexOf(s.databases, d)].obj == Get(s.databases, d);
    }
  }

  lemma DatabaseNameOwn(s: State, d: nat, name: bytes)
    requires Unique(s.databases) && DatabaseNamesUnique(AsMap(s.databases))
    requires var i := DatabaseNamed(s.databases, name); i < |s.databases| && s.databases[i].id == d
    ensures forall e :: e in AsMap(s.databases) && e != d ==> AsMap(s.databases)[e].name != name
  {
    InMap(s.databases, DatabaseNamed(s.databases, name));
  }

  lemma TableNameFree(s: State, d: nat, name: bytes)
    requires TableNamed(s.tables, d, name) == |s.tables|
    ensures forall t :: t in AsMap(s.tables) && AsMap(s.tables)[t].databaseID == d ==> AsMap(s.tables)[t].name != name
  {
    forall t | t in AsMap(s.tables) && AsMap(s.tables)[t].databaseID == d ensures AsMap(s.tables)[t].name != name {
      assert Has(s.tables, t) && s.tables[IndexOf(s.tables, t)].obj == Get(s.tables, t);
    }
  }

  lemma TableNameOwn(s: State, t: nat, d: nat, name: bytes)
    requires Unique(s.tables) && TableNamesUnique(AsMap(s.tables))
    requires var i := TableNamed(s.tables, d, name); i < |s.tables| && s.tables[i].id == t
    ensures forall u :: u in AsMap(s.tables) && u != t && AsMap(s.tables)[u].databaseID == d ==> AsMap(s.tables)[u].name != name
  {
    InMap(s.tables, TableNamed(s.tables, d, name));
  }

  lemma OnRenameDatabaseKeeps(s: State, d: nat, name: bytes)
    requires WellFormed(s) && CompleteMessage(s, RenameDatabase(d, name)).Accepted?
    ensures OnRenameDatabase(s, d, name).Ok? && WellFormed(OnRenameDatabase(s, d, name).value)
  {
    hide Consistent;
    if DatabaseNamed(s.databases, name) < |s.databases| { DatabaseNameOwn(s, d, name); } else { DatabaseNameFree(s, name); }
    PutDatabaseKeeps(s, d, Get(s.databases, d).(name := name));
  }

  lemma OnRenameTableKeeps(s: State, t: nat, name: bytes)
    requires WellFormed(s) && CompleteMessage(s, RenameTable(t, name)).Accepted?
    ensures OnRenameTable(s, t, name).Ok? && WellFormed(OnRenameTable(s, t, name).value)
  {
    hide Consistent;
    var d := Get(s.tables, t).databaseID;
    if TableNamed(s.tables, d, name) < |s.tables| { TableNameOwn(s, t, d, name); } else { TableNameFree(s, d, name); }
    PutTableKeeps(s, t, Get(s.tables, t).(name := name));
  }

  lemma OnSetFrozenKeeps(s: State, t: nat, frozen: bool)
    requires WellFormed(s) && Has(s.tables, t)
    ensures OnSetFrozen(s, t, frozen).Ok? && WellFormed(OnSetFrozen(s, t, frozen).value)
    ensures AsMap(OnSetFrozen(s, t, frozen).value.tables).Keys == AsMap(s.tables).Keys
  {
    hide Consistent;
    PutTableKeeps(s, t, Get(s.tables, t).(isFrozen := frozen));
  }

  lemma {:induction false} SetFrozenAllKeeps(s: State, ids: seq<nat>, frozen: bool)
    requires WellFormed(s) && forall t :: t in ids ==> t in AsMap(s.tables)
    ensures SetFrozenAll(s, ids, frozen).Ok? && WellFormed(SetFrozenAll(s, ids, frozen).value)
    decreases |ids|
  {
    hide WellFormed;
    if ids != [] {
      assert ids[0] in ids;
      OnSetFrozenKeeps(s, ids[0], frozen);
      SetFrozenAllKeeps(OnSetFrozen(s, ids[0], frozen).value, ids[1..], frozen);
    }
  }

  lemma OnSetDatabaseFrozenKeeps(s: State, d: nat, frozen: bool)
    requires WellFormed(s) && Has(s.databases, d)
    ensures OnSetDatabaseFrozen(s, d, frozen).Ok? && WellFormed(OnSetDatabaseFrozen(s, d, frozen).value)
  {
    hide WellFormed;
    DatabaseList(s, d);
    assert forall t :: t in Get(s.databases, d).tables ==> t in AsMap(s.tables);
    SetFrozenAllKeeps(s, Get(s.databases, d).tables, frozen);
  }

  // ---- quorums and databases come and go

  lemma WithParentConsistent(x: Structure, p: nat)
    requires Consistent(x, {})
    ensures p !in x.quorumShards ==> Consistent(x.(quorumShards := x.quorumShards[p := []]), {})
    ensures p !in x.databaseTables ==> Consistent(x.(databaseTables := x.databaseTables[p := []]), {})
    ensures p in x.quorumShards && x.quorumShards[p] == [] ==> Consistent(x.(quorumShards := x.quorumShards - {p}), {})
  {
    hide Linked;
    if p !in x.quorumShards { AddParent(x.quorumOf, x.quorumShards, {}, p); }
    if p !in x.databaseTables { AddParent(x.databaseOf, x.databaseTables, {}, p); }
    if p in x.quorumShards && x.quorumShards[p] == [] { DropParent(x.quorumOf, x.quorumShards, {}, p); }
  }

  lemma OnCreateQuorumKeeps(s: State, name: bytes, nodes: seq<nat>)
    requires WellFormed(s)
    ensures WellFormed(OnCreateQuorum(s, name, nodes))
  {
    hide Consistent;
    var s' := OnCreateQuorum(s, name, nodes);
    WithParentConsistent(StructureOf(s), s.nextQuorumID);
    QuorumMap(AsMap(s.quorums), s.nextQuorumID, Get(s'.quorums, s.nextQuorumID));
  }

  lemma OnDeleteQuorumKeeps(s: State, q: nat)
    requires WellFormed(s) && Has(s.quorums, q) && Get(s.quorums, q).shards == []
    ensures WellFormed(OnDeleteQuorum(s, q).value)
  {
    hide Consistent;
    WithParentConsistent(StructureOf(s), q);
    QuorumMap(AsMap(s.quorums), q, NewQuorum);
  }

  lemma OnCreateDatabaseKeeps(s: State, name: bytes)
    requires WellFormed(s) && DatabaseNamed(s.databases, name) == |s.databases|
    ensures WellFormed(OnCreateDatabase(s, name).value)
  {
    hide Consistent;
    DatabaseNameFree(s, name);
    WithParentConsistent(StructureOf(s), s.nextDatabaseID);
    DatabaseMap(AsMap(s.databases), s.nextDatabaseID, Database(name, []));
  }

  // ---- tables and shards

  // The structure with a new table that has no shard yet.
  function WithTable(x: Structure, t: nat, d: nat): Structure
    requires d in x.databaseTables
  {
    x.(tableShards := x.tableShards[t := []], databaseOf := x.databaseOf[t := d],
       databaseTables := x.databaseTables[d := x.databaseTables[d] + [t]])
  }

  lemma OnCreateTableStructure(s: State, d: nat, q: nat, name: bytes)
    requires Has(s.databases, d) && Has(s.quorums, q) && TableNamed(s.tables, d, name) == |s.tables|
    requires !Has(s.tables, s.nextTableID) && !Has(s.shards, s.nextShardID)
    ensures OnCreateTable(s, d, q, name).Ok?
    ensures StructureOf(OnCreateTable(s, d, q, name).value)
            == WithShard(WithTable(StructureOf(s), s.nextTableID, d), s.nextShardID, s.nextTableID, q, Range([], []))
  {
    var s', x, t, id := OnCreateTable(s, d, q, name).value, StructureOf(s), s.nextTableID, s.nextShardID;
    assert x.databaseTables[d] == Get(s.databases, d).tables && x.quorumShards[q] == Get(s.quorums, q).shards;
    hide TableOf, QuorumOf, RangeOf, DatabaseOf, TableShards, QuorumShards, DatabaseTables;
    ShardMaps(AsMap(s.shards), id, Get(s'.shards, id));
    TableMaps(AsMap(s.tables), t, Get(s'.tables, t));
    QuorumMap(AsMap(s.quorums), q, Get(s'.quorums, q));
    DatabaseMap(AsMap(s.databases), d, Get(s'.databases, d));
    assert [] + [id] == [id];
    PutTwice(x.tableShards, t, [], [id]);
  }

  lemma OnCreateTableRest(s: State, d: nat, q: nat, name: bytes)
    requires Numbered(s) && TableNamesUnique(AsMap(s.tables)) && DatabaseNamesUnique(AsMap(s.databases))
    requires CompleteMessage(s, CreateTable(d, q, name)).Accepted?
    ensures OnCreateTable(s, d, q, name).Ok?
    ensures var s' := OnCreateTable(s, d, q, name).value;
            Numbered(s') && TableNamesUnique(AsMap(s'.tables)) && DatabaseNamesUnique(AsMap(s'.databases))
  {
    TableNameFree(s, d, name);
  }

  lemma OnCreateTableKeeps(s: State, d: nat, q: nat, name: bytes)
    requires WellFormed(s) && CompleteMessage(s, CreateTable(d, q, name)).Accepted?
    ensures OnCreateTable(s, d, q, name).Ok? && WellFormed(OnCreateTable(s, d, q, name).value)
  {
    assert !Has(s.tables, s.nextTableID) && !Has(s.shards, s.nextShardID);
    hide Consistent, Numbered, TableNamesUnique, DatabaseNamesUnique;
    var x, t := StructureOf(s), s.nextTableID;
    WithTableConsistent(x, t, d);
    FirstShardConsistent(WithTable(x, t, d), s.nextShardID, t, q);
    OnCreateTableStructure(s, d, q, name);
    OnCreateTableRest(s, d, q, name);
  }

  // ---- truncating: all shards go and one that covers the key space takes their place

  lemma FirstShardStructure(s: State, t: nat, q: nat, shard: Shard)
    requires Has(s.tables, t) && Has(s.quorums, q) && !Has(s.shards, s.nextShardID)
    requires shard.tableID == t && shard.quorumID == q
    ensures var s' := AddShard(s, t, q, shard);
            StructureOf(s') == WithShard(StructureOf(s), s.nextShardID, t, q, Range(shard.firstKey, shard.lastKey))
  {
    var s', x, id := AddShard(s, t, q, shard), StructureOf(s), s.nextShardID;
    assert x.tableShards[t] == Get(s.tables, t).shards && x.quorumShards[q] == Get(s.quorums, q).shards;
    hide TableOf, QuorumOf, RangeOf, DatabaseOf, TableShards, QuorumShards, DatabaseTables;
    ShardMaps(AsMap(s.shards), id, shard);
    TableMaps(AsMap(s.tables), t, Get(s'.tables, t));
    SameTableMaps(AsMap(s.tables), t, Get(s'.tables, t));
    QuorumMap(AsMap(s.quorums), q, Get(s'.quorums, q));
  }

  lemma AddShardRest(s: State, t: nat, q: nat, shard: Shard)
    requires Numbered(s) && TableNamesUnique(AsMap(s.tables)) && Has(s.tables, t) && Has(s.quorums, q)
    ensures Numbered(AddShard(s, t, q, shard)) && TableNamesUnique(AsMap(AddShard(s, t, q, shard).tables))
  {}

  lemma {:induction false} DeletedQuorumStays(s: State, t: nat, q: nat, gone: set<nat>)
    requires WellFormedExcept(s, gone) && Has(s.tables, t) && t in gone
    requires Get(s.tables, t).shards != [] || q in StructureOf(s).quorumShards
    ensures DeletedQuorum(s, t, q) in StructureOf(s).quorumShards
    decreases |s.shards|
  {
    hide Linked, Tiled, Numbered, TableNamesUnique, DatabaseNamesUnique;
    var x := StructureOf(s);
    TableList(x, t);
    var ids := Get(s.tables, t).shards;
    if ids != [] {
      assert ids[0] in x.tableShards[t];
      Parents(x, ids[0]);
      DeleteShardKeeps(s, ids[0], gone);
      DeletedQuorumStays(DeleteShard(s, ids[0]).value, t, x.quorumOf[ids[0]], gone);
    }
  }

  lemma TableNotEmpty(s: State, t: nat)
    requires WellFormed(s) && Has(s.tables, t)
    ensures Get(s.tables, t).shards != []
  {
    hide Linked, Partition;
    var x := StructureOf(s);
    PartitionNotEmpty(x.rangeOf, x.tableShards[t]);
  }

  lemma TableParent(s: State, t: nat)
    requires WellFormed(s) && Has(s.tables, t)
    ensures Has(s.databases, Get(s.tables, t).databaseID)
  {
    hide Tiled, Numbered, TableNamesUnique, DatabaseNamesUnique;
    assert Listed(StructureOf(s).databaseOf, StructureOf(s).databaseTables, t);
  }

  lemma OnTruncateTableBeginKeeps(s: State, t: nat)
    requires WellFormed(s) && Has(s.tables, t)
    ensures OnTruncateTableBegin(s, t).Ok? && WellFormed(OnTruncateTableBegin(s, t).value)
  {
    hide Linked, Tiled, Numbered, TableNamesUnique, DatabaseNamesUnique;
    hide DeletedQuorum, DeleteShardsOf;
    TableNotEmpty(s, t);
    TableParent(s, t);
    SchemaInvariant.GoneGrows(s, {t});
    DeletedQuorumStays(s, t, 0, {t});
    DeleteShardsOfKeeps(s, t, {t});
    TruncateAdds(s, DeleteShardsOf(s, t).value, t);
  }

  lemma TruncateAdds(s: State, s1: State, t: nat)
    requires WellFormedExcept(s1, {t}) && Has(s1.tables, t) && Get(s1.tables, t).shards == []
    requires Has(s.tables, t) && Has(s1.quorums, DeletedQuorum(s, t, 0))
    ensures var q := DeletedQuorum(s, t, 0);
            WellFormed(AddShard(s1, t, q, Shard(q, t, SHARD_TRUNC_CREATING, 0, [], [], 0, [], false)))
  {
    var q := DeletedQuorum(s, t, 0);
    var shard := Shard(q, t, SHARD_TRUNC_CREATING, 0, [], [], 0, [], false);
    assert !Has(s1.shards, s1.nextShardID);
    hide Consistent, Numbered, TableNamesUnique, DatabaseNamesUnique;
    FirstShardConsistent(StructureOf(s1), s1.nextShardID, t, q);
    FirstShardStructure(s1, t, q, shard);
    AddShardRest(s1, t, q, shard);
  }

  // ---- splitting

  lemma SplitParts(s: State, id: nat, key: bytes)
    requires WellFormed(s) && CompleteSplitShardBegin(s, id, key).Accepted?
    ensures var x := StructureOf(s);
            id in x.tableOf && s.nextShardID !in x.tableOf && InRange(x.rangeOf[id].first, x.rangeOf[id].last, key)
            && key != x.rangeOf[id].first && key != x.rangeOf[id].last
  {
    hide Linked, Tiled, TableNamesUnique, DatabaseNamesUnique;
    var shard := Get(s.shards, id);
    RangeContainsIsInRange(shard.firstKey, shard.lastKey, key);
    CmpEqual(shard.firstKey, key);
    CmpEqual(shard.lastKey, key);
  }

  lemma OnSplitShardBeginKeeps(s: State, id: nat, key: bytes)
    requires WellFormed(s) && CompleteSplitShardBegin(s, id, key).Accepted?
    ensures OnSplitShardBegin(s, id, key).Ok? && WellFormed(OnSplitShardBegin(s, id, key).value)
  {
    SplitParts(s, id, key);
    assert !Has(s.shards, s.nextShardID);
    hide Consistent, Numbered, TableNamesUnique, DatabaseNamesUnique;
    SplitShardConsistent(StructureOf(s), id, s.nextShardID, key);
    SplitStructure(s, id, key);
  }

  lemma SplitStructure(s: State, id: nat, key: bytes)
    requires Numbered(s) && TableNamesUnique(AsMap(s.tables)) && Has(s.shards, id)
    requires Has(s.tables, Get(s.shards, id).tableID) && Has(s.quorums, Get(s.shards, id).quorumID)
    ensures OnSplitShardBegin(s, id, key).Ok?
    ensures var s' := OnSplitShardBegin(s, id, key).value;
            Numbered(s') && TableNamesUnique(AsMap(s'.tables))
            && StructureOf(s') == SplitShard(StructureOf(s), id, s.nextShardID, key)
            && s'.databases == s.databases
  {
    var parent := Get(s.shards, id);
    var s1 := s.(shards := Put(s.shards, id, parent.(lastKey := key)));
    var right := Shard(parent.quorumID, parent.tableID, SHARD_SPLIT_CREATING, id, key, parent.lastKey, 0, [], false);
    CutStructure(s, id, key);
    AddShardRest(s1, parent.tableID, parent.quorumID, right);
    FirstShardStructure(s1, parent.tableID, parent.quorumID, right);
  }

  lemma CutStructure(s: State, id: nat, key: bytes)
    requires Has(s.shards, id)
    ensures var s1 := s.(shards := Put(s.shards, id, Get(s.shards, id).(lastKey := key)));
            StructureOf(s1) == StructureOf(s).(rangeOf := RangeOf(AsMap(s.shards))[id := Range(Get(s.shards, id).firstKey, key)])
  {
    hide TableOf, QuorumOf, RangeOf, DatabaseOf, TableShards, QuorumShards, DatabaseTables;
    ShardMaps(AsMap(s.shards), id, Get(s.shards, id).(lastKey := key));
    SameShardMaps(AsMap(s.shards), id, Get(s.shards, id).(lastKey := key));
  }

  // ---- migrating

  lemma MigrationStructure(s: State, q: nat, src: nat, dst: nat)
    requires Unique(s.shards) && Has(s.shards, src) && !Has(s.shards, dst) && Has(s.quorums, q)
    requires Has(s.tables, Get(s.shards, src).tableID) && Has(s.quorums, Get(s.shards, src).quorumID)
    ensures OnShardMigrationComplete(s, q, src, dst).Ok?
    ensures StructureOf(OnShardMigrationComplete(s, q, src, dst).value) == MoveShard(StructureOf(s), src, dst, q)
  {
    var shard, s', x := Get(s.shards, src), OnShardMigrationComplete(s, q, src, dst).value, StructureOf(s);
    assert x.tableOf[src] == shard.tableID && x.quorumOf[src] == shard.quorumID;
    assert x.rangeOf[src] == Range(shard.firstKey, shard.lastKey);
    assert shard.tableID in x.tableShards && x.tableShards[shard.tableID] == Get(s.tables, shard.tableID).shards;
    assert x.quorumShards[shard.quorumID] == Get(s.quorums, shard.quorumID).shards;
    assert x.quorumShards[q] == Get(s.quorums, q).shards;
    hide Unique, TableOf, QuorumOf, RangeOf, DatabaseOf, TableShards, QuorumShards, DatabaseTables;
    var ss := AsMap(s.shards);
    ShardMaps(ss, src, shard);
    ShardMaps(ss - {src}, dst, shard.(quorumID := q));
    TableMaps(AsMap(s.tables), shard.tableID, Get(s'.tables, shard.tableID));
    SameTableMaps(AsMap(s.tables), shard.tableID, Get(s'.tables, shard.tableID));
    MigrationQuorums(s, q, src, dst);
    PutTwice(x.tableShards, shard.tableID, Remove(x.tableShards[shard.tableID], src),
             Remove(x.tableShards[shard.tableID], src) + [dst]);
  }

  lemma MigrationQuorums(s: State, q: nat, src: nat, dst: nat)
    requires Has(s.shards, src) && Has(s.quorums, q)
    requires Has(s.tables, Get(s.shards, src).tableID) && Has(s.quorums, Get(s.shards, src).quorumID)
    ensures OnShardMigrationComplete(s, q, src, dst).Ok?
    ensures var p, x := Get(s.shards, src).quorumID, QuorumShards(AsMap(s.quorums));
            var x1 := x[p := Remove(x[p], src)];
            QuorumShards(AsMap(OnShardMigrationComplete(s, q, src, dst).value.quorums)) == x1[q := AddSorted(x1[q], dst)]
  {
    var p, qs := Get(s.shards, src).quorumID, AsMap(s.quorums);
    var s' := OnShardMigrationComplete(s, q, src, dst).value;
    QuorumMap(qs, p, qs[p].(shards := Remove(qs[p].shards, src)));
    var qs1 := qs[p := qs[p].(shards := Remove(qs[p].shards, src))];
    QuorumMap(qs1, q, Get(s'.quorums, q));
  }

  lemma MigrationRest(s: State, q: nat, src: nat, dst: nat)
    requires Numbered(s) && TableNamesUnique(AsMap(s.tables)) && Has(s.shards, src) && Has(s.quorums, q)
    requires !Has(s.shards, dst) && 1 <= dst < s.nextShardID
    requires Has(s.tables, Get(s.shards, src).tableID) && Has(s.quorums, Get(s.shards, src).quorumID)
    ensures OnShardMigrationComplete(s, q, src, dst).Ok?
    ensures var s' := OnShardMigrationComplete(s, q, src, dst).value;
            Numbered(s') && TableNamesUnique(AsMap(s'.tables)) && s'.databases == s.databases
  {}

  lemma ShardParents(s: State, id: nat)
    requires WellFormed(s) && Has(s.shards, id)
    ensures Has(s.tables, Get(s.shards, id).tableID) && Has(s.quorums, Get(s.shards, id).quorumID)
  {
    hide Tiled, Linked, TableNamesUnique, DatabaseNamesUnique, Numbered;
    Parents(StructureOf(s), id);
  }

  lemma OnShardMigrationCompleteKeeps(s: State, q: nat, src: nat, dst: nat)
    requires WellFormed(s) && Has(s.shards, src) && Has(s.quorums, q)
    requires !Has(s.shards, dst) && 1 <= dst < s.nextShardID
    ensures OnShardMigrationComplete(s, q, src, dst).Ok?
    ensures WellFormed(OnShardMigrationComplete(s, q, src, dst).value)
  {
    ShardParents(s, src);
    assert Unique(s.shards);
    hide Consistent, Numbered, TableNamesUnique, DatabaseNamesUnique;
    MoveShardConsistent(StructureOf(s), src, dst, q);
    MigrationStructure(s, q, src, dst);
    MigrationRest(s, q, src, dst);
  }

  // ---- all messages

  // The conditions, each a lookup that the caller can make, under which an accepted message fails
  // no assertion of its handler.  The other kinds of message need none.
  predicate Applicable(s: State, m: Message) {
    match m
    case ActivateShardServer(quorumID, _, _) =>
      Has(s.quorums, quorumID) && Get(s.quorums, quorumID).isActivatingNode ==>
        Has(s.shardServers, Get(s.quorums, quorumID).activatingNodeID)
    case TruncateTableComplete(tableID) =>
      Has(s.tables, tableID) && Get(s.tables, tableID).shards != [] &&
      Has(s.shards, Get(s.tables, tableID).shards[0]) &&
      Get(s.shards, Get(s.tables, tableID).shards[0]).state == SHARD_TRUNC_CREATING
    case ShardMigrationComplete(quorumID, src, _) => Has(s.shards, src) ==> Has(s.quorums, quorumID)
    case _ => true
  }

  // The destination number of a migration was set aside by the log entry that began it.
  predicate Reserved(s: State, m: Message) {
    m.ShardMigrationComplete? && Has(s.shards, m.srcShardID) ==>
      1 <= m.dstShardID < s.nextShardID && !Has(s.shards, m.dstShardID)
  }

  lemma {:induction false} TruncateVerdictState(s: State, ids: seq<nat>)
    ensures TruncateVerdict(s, ids).Accepted? ==> TruncateVerdict(s, ids).state == s
  {
    if ids != [] { TruncateVerdictState(s, ids[1..]); }
  }

  // CompleteMessage changes nothing but the splitting flag.
  lemma CompleteMessageState(s: State, m: Message)
    requires CompleteMessage(s, m).Accepted?
    ensures CompleteMessage(s, m).state == s.(isSplitting := s.isSplitting || m.SplitShardBegin?)
  {
    match m
    case TruncateTableBegin(t) => TruncateVerdictState(s, Get(s.tables, t).shards);
    case _ =>
  }

  lemma SplittingFlag(s: State, b: bool)
    requires WellFormed(s)
    ensures WellFormed(s.(isSplitting := b))
  {
    hide Consistent;
    assert StructureOf(s.(isSplitting := b)) == StructureOf(s);
  }

  lemma OnServerKeeps(s: State, nodeID: nat, endpoint: bytes, q: nat, priority: nat)
    requires WellFormed(s)
    ensures WellFormed(OnRegisterShardServer(s, nodeID, endpoint))
    ensures WellFormed(OnUnregisterShardServer(s, nodeID))
    ensures OnSetPriority(s, q, nodeID, priority).Ok? ==> WellFormed(OnSetPriority(s, q, nodeID, priority).value)
  {
    hide Consistent, TableNamesUnique, DatabaseNamesUnique;
    var r := OnRegisterShardServer(s, nodeID, endpoint);
    ServersKeep(s, r.shardServers, r.nextNodeID);
    ServersKeep(s, OnUnregisterShardServer(s, nodeID).shardServers, s.nextNodeID);
    if Has(s.shardServers, nodeID) {
      ServersKeep(s, OnSetPriority(s, q, nodeID, priority).value.shardServers, s.nextNodeID);
    }
  }

  // Messages about shard servers.
  lemma ServerStep(s: State, m: Message)
    requires WellFormed(s) && CompleteMessage(s, m).Accepted?
    requires m.SetClusterID? || m.RegisterShardServer? || m.UnregisterShardServer? || m.SetPriority?
    ensures OnMessage(s, m).Ok? && WellFormed(OnMessage(s, m).value)
  {
    hide WellFormed;
    if m.RegisterShardServer? {
      OnServerKeeps(s, m.nodeID, m.endpoint, 0, 0);
    } else if m.UnregisterShardServer? {
      OnServerKeeps(s, m.nodeID, [], 0, 0);
    } else if m.SetPriority? {
      OnServerKeeps(s, m.nodeID, [], m.quorumID, m.priority);
    }
  }

  // Messages about quorums and their members.
  lemma QuorumStep(s: State, m: Message)
    requires WellFormed(s) && CompleteMessage(s, m).Accepted?
    requires m.CreateQuorum? || m.DeleteQuorum? || m.RenameQuorum?
    ensures OnMessage(s, m).Ok? && WellFormed(OnMessage(s, m).value)
  {
    hide WellFormed;
    if m.CreateQuorum? {
      OnCreateQuorumKeeps(s, m.name, m.nodes);
    } else if m.DeleteQuorum? {
      OnDeleteQuorumKeeps(s, m.quorumID);
    } else {
      PutQuorumKeeps(s, m.quorumID, Get(s.quorums, m.quorumID).(name := m.name));
    }
  }

  lemma OnMembershipKeeps(s: State, q: nat, n: nat)
    requires WellFormed(s)
    ensures OnAddNode(s, q, n).Ok? ==> WellFormed(OnAddNode(s, q, n).value)
    ensures OnRemoveNode(s, q, n).Ok? ==> WellFormed(OnRemoveNode(s, q, n).value)
    ensures OnActivateShardServer(s, q, n).Ok? ==> WellFormed(OnActivateShardServer(s, q, n).value)
    ensures OnDeactivateShardServer(s, q, n).Ok? ==> WellFormed(OnDeactivateShardServer(s, q, n).value)
  {
    hide WellFormed, AsMap, IndexOf, Remove, AddSorted;
    if OnAddNode(s, q, n).Ok? { PutQuorumKeeps(s, q, Get(OnAddNode(s, q, n).value.quorums, q)); }
    if OnRemoveNode(s, q, n).Ok? { PutQuorumKeeps(s, q, Get(OnRemoveNode(s, q, n).value.quorums, q)); }
    if OnActivateShardServer(s, q, n).Ok? { PutQuorumKeeps(s, q, Get(OnActivateShardServer(s, q, n).value.quorums, q)); }
    if OnDeactivateShardServer(s, q, n).Ok? { PutQuorumKeeps(s, q, Get(OnDeactivateShardServer(s, q, n).value.quorums, q)); }
  }

  lemma MemberStep(s: State, m: Message)
    requires WellFormed(s) && CompleteMessage(s, m).Accepted?
    requires m.AddShardServerToQuorum? || m.RemoveShardServerFromQuorum? || m.ActivateShardServer? || m.DeactivateShardServer?
    ensures OnMessage(s, m).Ok? <==> Applicable(s, m)
    ensures OnMessage(s, m).Ok? ==> WellFormed(OnMessage(s, m).value)
  {
    hide WellFormed;
    OnMembershipKeeps(s, m.quorumID, m.nodeID);
  }

  // Messages about databases.
  lemma DatabaseStep(s: State, m: Message)
    requires WellFormed(s) && CompleteMessage(s, m).Accepted?
    requires m.CreateDatabase? || m.RenameDatabase? || m.DeleteDatabase? || m.FreezeDatabase? || m.UnfreezeDatabase?
    ensures OnMessage(s, m).Ok? && WellFormed(OnMessage(s, m).value)
  {
    hide WellFormed, AsMap, IndexOf, OnDeleteDatabase, OnSetDatabaseFrozen, OnRenameDatabase;
    match m
    case CreateDatabase(name) => OnCreateDatabaseKeeps(s, name);
    case RenameDatabase(d, name) => OnRenameDatabaseKeeps(s, d, name);
    case DeleteDatabase(d) => OnDeleteDatabaseKeeps(s, d);
    case FreezeDatabase(d) => OnSetDatabaseFrozenKeeps(s, d, true);
    case UnfreezeDatabase(d) => OnSetDatabaseFrozenKeeps(s, d, false);
  }

  // Messages about tables.
  lemma TableStep(s: State, m: Message)
    requires WellFormed(s) && CompleteMessage(s, m).Accepted?
    requires m.RenameTable? || m.DeleteTable? || m.FreezeTable? || m.UnfreezeTable? || m.TruncateTableBegin?
    ensures OnMessage(s, m).Ok? && WellFormed(OnMessage(s, m).value)
  {
    hide WellFormed, AsMap, IndexOf, OnDeleteTable, OnTruncateTableBegin, OnSetFrozen, OnRenameTable, TruncateVerdict;
    match m
    case RenameTable(t, name) => OnRenameTableKeeps(s, t, name);
    case DeleteTable(t) => OnDeleteTableKeeps(s, t);
    case FreezeTable(t) => OnSetFrozenKeeps(s, t, true);
    case UnfreezeTable(t) => OnSetFrozenKeeps(s, t, false);
    case TruncateTableBegin(t) => OnTruncateTableBeginKeeps(s, t);
  }

  lemma NewTableStep(s: State, m: Message)
    requires WellFormed(s) && CompleteMessage(s, m).Accepted? && m.CreateTable?
    ensures OnMessage(s, m).Ok? && WellFormed(OnMessage(s, m).value)
  {
    hide WellFormed, AsMap, IndexOf, OnCreateTable;
    OnCreateTableKeeps(s, m.databaseID, m.quorumID, m.name);
  }

  lemma SetNormalKeeps(s: State, id: nat)
    requires WellFormed(s) && Has(s.shards, id)
    ensures WellFormed(s.(shards := Put(s.shards, id, Get(s.shards, id).(state := SHARD_NORMAL))))
  {
    hide WellFormed;
    PutShardKeeps(s, id, Get(s.shards, id).(state := SHARD_NORMAL));
  }

  // Messages about splits and the end of a truncation.
  lemma SplitStep(s: State, m: Message)
    requires WellFormed(s) && CompleteMessage(s, m).Accepted?
    requires m.TruncateTableComplete? || m.SplitShardBegin? || m.SplitShardComplete?
    ensures OnMessage(s, m).Ok? <==> Applicable(s, m)
    ensures OnMessage(s, m).Ok? ==> WellFormed(OnMessage(s, m).value)
  {
    hide WellFormed, AsMap, IndexOf, OnSplitShardBegin, CompleteSplitShardBegin;
    match m
    case TruncateTableComplete(t) =>
      if Applicable(s, m) { SetNormalKeeps(s, Get(s.tables, t).shards[0]); }
    case SplitShardBegin(id, key) => OnSplitShardBeginKeeps(s, id, key);
    case SplitShardComplete(id) => SetNormalKeeps(s, id);
  }

  // Messages about migrations.
  lemma MoveStep(s: State, m: Message)
    requires WellFormed(s) && (m.ShardMigrationBegin? || m.ShardMigrationComplete?)
    ensures OnMessage(s, m).Ok? <==> Applicable(s, m)
    ensures OnMessage(s, m).Ok? && Reserved(s, m) ==> WellFormed(OnMessage(s, m).value)
  {
    hide WellFormed, AsMap, IndexOf, Remove, AddSorted;
    if m.ShardMigrationComplete? && Has(s.shards, m.srcShardID) {
      ShardParents(s, m.srcShardID);
      if Has(s.quorums, m.quorumID) && Reserved(s, m) {
        OnShardMigrationCompleteKeeps(s, m.quorumID, m.srcShardID, m.dstShardID);
      }
    }
  }

  // ---- when the check itself stops the controller

  lemma {:induction false} TruncateNotAborted(s: State, ids: seq<nat>)
    requires forall id :: id in ids ==> Has(s.shards, id) && Has(s.quorums, Get(s.shards, id).quorumID)
    ensures !TruncateVerdict(s, ids).Aborted?
  {
    if ids != [] {
      assert ids[0] in ids;
      TruncateNotAborted(s, ids[1..]);
    }
  }

  lemma ListedShards(s: State, t: nat)
    requires WellFormed(s) && Has(s.tables, t)
    ensures forall id :: id in Get(s.tables, t).shards ==> Has(s.shards, id)
  {
    hide Tiled, Numbered, TableNamesUnique, DatabaseNamesUnique;
    TableList(StructureOf(s), t);
  }

  // Main result: the lookups that the checks assert succeed in every well-formed state, except that the
  // completion of a split names a shard that may be gone.
  lemma CheckStops(s: State, m: Message)
    requires WellFormed(s)
    ensures CompleteMessage(s, m).Aborted? <==> m.SplitShardComplete? && !Has(s.shards, m.shardID)
  {
    hide WellFormed, AsMap, IndexOf;
    if m.TruncateTableBegin? && Has(s.tables, m.tableID) {
      var ids := Get(s.tables, m.tableID).shards;
      ListedShards(s, m.tableID);
      forall id | id in ids ensures Has(s.quorums, Get(s.shards, id).quorumID) { ShardParents(s, id); }
      TruncateNotAborted(s, ids);
    }
  }

  // The result for every kind of message.  The effect of a completed migration does not depend on
  // its being checked; all other kinds rely on CompleteMessage.
  lemma StepKeeps(s: State, m: Message)
    requires WellFormed(s) && (m.ShardMigrationComplete? || CompleteMessage(s, m).Accepted?)
    ensures OnMessage(s, m).Ok? <==> Applicable(s, m)
    ensures OnMessage(s, m).Ok? && Reserved(s, m) ==> WellFormed(OnMessage(s, m).value)
  {
    hide WellFormed, CompleteMessage, OnMessage, Reserved;
    if m.TruncateTableComplete? || m.SplitShardBegin? || m.SplitShardComplete? {
      SplitStep(s, m);
    } else if m.ShardMigrationBegin? || m.ShardMigrationComplete? {
      MoveStep(s, m);
    } else if m.CreateDatabase? || m.RenameDatabase? || m.DeleteDatabase? || m.FreezeDatabase? || m.UnfreezeDatabase? {
      DatabaseStep(s, m);
    } else if m.RenameTable? || m.DeleteTable? || m.FreezeTable? || m.UnfreezeTable? || m.TruncateTableBegin? {
      TableStep(s, m);
    } else if m.CreateTable? {
      NewTableStep(s, m);
    } else if m.SetClusterID? || m.RegisterShardServer? || m.UnregisterShardServer? || m.SetPriority? {
      ServerStep(s, m);
    } else if m.CreateQuorum? || m.DeleteQuorum? || m.RenameQuorum? {
      QuorumStep(s, m);
    } else {
      MemberStep(s, m);
    }
  }

  // Main result: a message that CompleteMessage accepts in a well-formed state fails no assertion
  // of its handler exactly if it is Applicable, and then leaves a well-formed state.
  lemma AcceptedStep(s: State, m: Message)
    requires WellFormed(s) && CompleteMessage(s, m).Accepted?
    ensures OnMessage(CompleteMessage(s, m).state, m).Ok? <==> Applicable(s, m)
    ensures Applicable(s, m) && Reserved(s, m) ==> WellFormed(OnMessage(CompleteMessage(s, m).state, m).value)
  {
    hide WellFormed;
    CompleteMessageState(s, m);
    StepKeeps(s, m);
    if m.SplitShardBegin? {
      SplitIgnoresFlag(s, m.shardID, m.splitKey);
      SplittingFlag(OnMessage(s, m).value, true);
    }
  }

  lemma SplitIgnoresFlag(s: State, id: nat, key: bytes)
    requires OnSplitShardBegin(s, id, key).Ok? && Has(s.shards, id)
    ensures OnSplitShardBegin(s.(isSplitting := true), id, key) == Ok(OnSplitShardBegin(s, id, key).value.(isSplitting := true))
  {}
}
