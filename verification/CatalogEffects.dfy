// What creating, truncating, freezing and ranking do, seen from outside the step: who serves the
// keys of the tables afterwards, which tables are frozen, which priority is found.

module CatalogEffects {
  import opened Bytes
  import opened KeyedLists
  import opened ConfigMessages
  import opened Schema
  import opened SchemaInvariant
  import opened SchemaSteps
  import opened Routing
  import opened Effects
  import opened PrimaryLeases

  // A table whose list of shards and whose shards are untouched is served as before.
  lemma ServedAsBefore(s: State, s': State, t: nat, key: bytes)
    requires WellFormed(s) && WellFormed(s') && Has(s.tables, t) && Has(s'.tables, t)
    requires Get(s'.tables, t).shards == Get(s.tables, t).shards
    requires forall id :: id in AsMap(s.shards) && AsMap(s.shards)[id].tableID == t ==>
               id in AsMap(s'.shards) && AsMap(s'.shards)[id] == AsMap(s.shards)[id]
    ensures ServingQuorum(s', t, key) == ServingQuorum(s, t, key)
  {
    hide WellFormed, ServingQuorum;
    var h := SomeHolder(s, t, key);
    HolderServes(s', t, key, h);
  }

  // A table with one shard that covers the key space is served by the quorum of that shard.
  lemma ServedWhole(s: State, t: nat, id: nat, key: bytes)
    requires WellFormed(s) && Has(s.tables, t) && Get(s.tables, t).shards == [id] && Has(s.shards, id)
    requires Get(s.shards, id).firstKey == [] && Get(s.shards, id).lastKey == []
    ensures ServingQuorum(s, t, key) == Some(Get(s.shards, id).quorumID)
  {
    hide WellFormed, ServingQuorum;
    assert id in Get(s.tables, t).shards;
    HolderServes(s, t, key, id);
  }

  // ---- creating a table

  lemma CreateMaps(s: State, d: nat, q: nat, name: bytes)
    requires WellFormed(s) && CompleteMessage(s, CreateTable(d, q, name)).Accepted?
    ensures OnCreateTable(s, d, q, name).Ok?
    ensures var s', t, id := OnCreateTable(s, d, q, name).value, s.nextTableID, s.nextShardID;
            AsMap(s'.tables) == AsMap(s.tables)[t := Table(d, name, false, [id])] && t !in AsMap(s.tables)
            && AsMap(s'.shards) == AsMap(s.shards)[id := Shard(q, t, SHARD_NORMAL, 0, [], [], 0, [], false)]
            && id !in AsMap(s.shards)
  {
    OnCreateTableKeeps(s, d, q, name);
    hide Consistent, TableNamesUnique, DatabaseNamesUnique;
    assert Below(AsMap(s.tables), 1, s.nextTableID) && Below(AsMap(s.shards), 1, s.nextShardID);
  }

  // Main result: the quorum that was asked for serves every key of a new table, and no other table
  // is touched.
  lemma CreateTableServes(s: State, d: nat, q: nat, name: bytes, u: nat, key: bytes)
    requires WellFormed(s) && CompleteMessage(s, CreateTable(d, q, name)).Accepted?
    ensures OnCreateTable(s, d, q, name).Ok?
    ensures var s' := OnCreateTable(s, d, q, name).value;
            ServingQuorum(s', s.nextTableID, key) == Some(q)
            && (u != s.nextTableID ==> ServingQuorum(s', u, key) == ServingQuorum(s, u, key))
  {
    hide WellFormed, CompleteMessage, OnCreateTable, FirstInTable;
    OnCreateTableKeeps(s, d, q, name);
    CreateMaps(s, d, q, name);
    var s' := OnCreateTable(s, d, q, name).value;
    ServedWhole(s', s.nextTableID, s.nextShardID, key);
    if u != s.nextTableID && Has(s.tables, u) { ServedAsBefore(s, s', u, key); }
  }

  // ---- truncating a table

  lemma {:induction false} DeletedQuorumIsLast(s: State, t: nat, q: nat, gone: set<nat>)
    requires WellFormedExcept(s, gone) && Has(s.tables, t) && t in gone && Get(s.tables, t).shards != []
    ensures var ids := Get(s.tables, t).shards;
            Has(s.shards, ids[|ids| - 1]) && DeletedQuorum(s, t, q) == Get(s.shards, ids[|ids| - 1]).quorumID
    decreases |s.shards|
  {
    hide WellFormedExcept, DeleteShard, Unique, IndexOf, AsMap;
    var ids := Get(s.tables, t).shards;
    FirstShardOf(s, t, gone);
    DeleteShardKeeps(s, ids[0], gone);
    UniqueExcept(s, gone);
    DeleteShardMaps(s, ids[0]);
    ListNoDup(s, t, gone);
    var s1 := DeleteShard(s, ids[0]).value;
    assert Get(s1.tables, t).shards == ids[1..];
    if |ids| > 1 {
      DeletedQuorumIsLast(s1, t, Get(s.shards, ids[0]).quorumID, gone);
    }
  }

  lemma ListNoDup(s: State, t: nat, gone: set<nat>)
    requires WellFormedExcept(s, gone) && Has(s.tables, t)
    ensures NoDup(Get(s.tables, t).shards)
  {
    hide Tiled, Numbered, TableNamesUnique, DatabaseNamesUnique;
    TableList(StructureOf(s), t);
  }

  lemma AddShardMaps(s: State, t: nat, q: nat, shard: Shard)
    requires Numbered(s) && Has(s.tables, t) && Has(s.quorums, q)
    ensures var s', id := AddShard(s, t, q, shard), s.nextShardID;
            AsMap(s'.tables) == AsMap(s.tables)[t := Get(s.tables, t).(shards := Get(s.tables, t).shards + [id])]
            && AsMap(s'.shards) == AsMap(s.shards)[id := shard] && id !in AsMap(s.shards)
  {}

  lemma NumberedExcept(s: State, gone: set<nat>)
    requires WellFormedExcept(s, gone)
    ensures Numbered(s)
  {}

  lemma FreshShard(s: State)
    requires WellFormed(s)
    ensures s.nextShardID !in AsMap(s.shards)
  {
    assert Below(AsMap(s.shards), 1, s.nextShardID);
  }

  lemma TruncateMaps(s: State, t: nat)
    requires WellFormed(s) && Has(s.tables, t)
    ensures OnTruncateTableBegin(s, t).Ok? && Get(s.tables, t).shards != []
    ensures var s', ids, id := OnTruncateTableBegin(s, t).value, Get(s.tables, t).shards, s.nextShardID;
            Has(s.shards, ids[|ids| - 1]) && id in AsMap(s'.shards) && id !in AsMap(s.shards)
            && AsMap(s'.tables) == AsMap(s.tables)[t := Get(s.tables, t).(shards := [id])]
            && AsMap(s'.shards)[id] == Shard(Get(s.shards, ids[|ids| - 1]).quorumID, t, SHARD_TRUNC_CREATING, 0, [], [], 0, [], false)
            && ErasedShards(AsMap(s.shards), AsMap(s'.shards) - {id}, {t})
  {
    hide WellFormed, WellFormedExcept, DeletedQuorum, DeleteShardsOf, Unique, AsMap, IndexOf, Numbered, AddShard;
    hide ErasedShards, Emptied, StructureOf;
    OnTruncateTableBeginKeeps(s, t);
    FreshShard(s);
    TableNotEmpty(s, t);
    SchemaInvariant.GoneGrows(s, {t});
    DeletedQuorumIsLast(s, t, 0, {t});
    DeleteShardsOfKeeps(s, t, {t});
    DeleteShardsOfErases(s, t, {t});
    var s1, q := DeleteShardsOf(s, t).value, DeletedQuorum(s, t, 0);
    NumberedExcept(s1, {t});
    var shard := Shard(q, t, SHARD_TRUNC_CREATING, 0, [], [], 0, [], false);
    AddShardMaps(s1, t, q, shard);
    PutTwice(AsMap(s.tables), t, Get(s1.tables, t), Get(s.tables, t).(shards := [s.nextShardID]));
    assert OnTruncateTableBegin(s, t).value == AddShard(s1, t, q, shard) && s1.nextShardID == s.nextShardID;
    assert [] + [s.nextShardID] == [s.nextShardID];
    assert AsMap(s1.shards)[s.nextShardID := shard] - {s.nextShardID} == AsMap(s1.shards);
  }

  // Main result: a truncated table has one new and empty shard for all its keys, kept by the quorum
  // that kept the last shard of its list; the old shards are gone and no other table is touched.
  lemma TruncateServes(s: State, t: nat, u: nat, key: bytes)
    requires WellFormed(s) && Has(s.tables, t)
    ensures OnTruncateTableBegin(s, t).Ok? && Get(s.tables, t).shards != []
    ensures var s', ids := OnTruncateTableBegin(s, t).value, Get(s.tables, t).shards;
            Has(s.shards, ids[|ids| - 1])
            && Has(s'.tables, t) && Get(s'.tables, t).shards == [s.nextShardID]
            && ServingQuorum(s', t, key) == Some(Get(s.shards, ids[|ids| - 1]).quorumID)
            && (u != t ==> ServingQuorum(s', u, key) == ServingQuorum(s, u, key))
            && OnlyShard(AsMap(s'.shards), t, s.nextShardID)
  {
    hide WellFormed, OnTruncateTableBegin, FirstInTable, ServingQuorum, OnlyShard, ErasedShards, AsMap, IndexOf;
    OnTruncateTableBeginKeeps(s, t);
    TruncateMaps(s, t);
    var s' := OnTruncateTableBegin(s, t).value;
    ErasedButOne(AsMap(s.shards), AsMap(s'.shards), t, s.nextShardID);
    ServedWhole(s', t, s.nextShardID, key);
    if u != t { UntouchedServed(s, s', t, u, s.nextShardID, Get(s'.tables, t), key); }
  }

  // The table has this shard and no other.
  ghost predicate OnlyShard(ss: map<nat, Shard>, t: nat, id: nat) {
    forall x :: x in ss && ss[x].tableID == t ==> x == id
  }

  lemma ErasedButOne(ss: map<nat, Shard>, ss': map<nat, Shard>, t: nat, id: nat)
    requires ErasedShards(ss, ss' - {id}, {t})
    ensures OnlyShard(ss', t, id)
  {
    var rest := ss' - {id};
    forall x | x in ss' && x != id ensures ss'[x].tableID != t {
      assert x in rest && rest[x] == ss'[x];
    }
  }

  // A step that renews the shards of one table leaves every other table as it was, or missing.
  lemma UntouchedServed(s: State, s': State, t: nat, u: nat, id: nat, o: Table, key: bytes)
    requires WellFormed(s) && WellFormed(s') && u != t && Has(s.tables, t) && id !in AsMap(s.shards)
    requires ErasedShards(AsMap(s.shards), AsMap(s'.shards) - {id}, {t})
    requires AsMap(s'.tables) == AsMap(s.tables)[t := o]
    ensures ServingQuorum(s', u, key) == ServingQuorum(s, u, key)
  {
    hide WellFormed, FirstInTable;
    if Has(s.tables, u) {
      forall x | x in AsMap(s.shards) && AsMap(s.shards)[x].tableID == u
        ensures x in AsMap(s'.shards) && AsMap(s'.shards)[x] == AsMap(s.shards)[x]
      {
        assert x in AsMap(s'.shards) - {id};
      }
      ServedAsBefore(s, s', u, key);
    }
  }

  // ---- freezing

  lemma {:induction false} SetFrozenAllFreezes(s: State, ids: seq<nat>, frozen: bool)
    requires forall t :: t in ids ==> t in AsMap(s.tables)
    ensures SetFrozenAll(s, ids, frozen).Ok?
    ensures var s' := SetFrozenAll(s, ids, frozen).value;
            s' == s.(tables := s'.tables) && AsMap(s'.tables).Keys == AsMap(s.tables).Keys
            && forall t :: t in AsMap(s.tables) ==>
                 AsMap(s'.tables)[t] == if t in ids then AsMap(s.tables)[t].(isFrozen := frozen) else AsMap(s.tables)[t]
    decreases |ids|
  {
    hide AsMap, IndexOf;
    if ids != [] {
      assert ids[0] in ids;
      SetFrozenAllFreezes(OnSetFrozen(s, ids[0], frozen).value, ids[1..], frozen);
    }
  }

  // Freezing a database freezes exactly its tables and changes nothing else.
  lemma FreezeDatabaseFreezes(s: State, d: nat, frozen: bool)
    requires WellFormed(s) && Has(s.databases, d)
    ensures OnSetDatabaseFrozen(s, d, frozen).Ok?
    ensures var s' := OnSetDatabaseFrozen(s, d, frozen).value;
            s' == s.(tables := s'.tables) && AsMap(s'.tables).Keys == AsMap(s.tables).Keys
            && forall t :: t in AsMap(s.tables) ==>
                 var o := AsMap(s.tables)[t];
                 AsMap(s'.tables)[t] == if o.databaseID == d then o.(isFrozen := frozen) else o
  {
    hide WellFormed, AsMap, IndexOf, SetFrozenAll;
    TablesOf(s, d);
    SetFrozenAllFreezes(s, Get(s.databases, d).tables, frozen);
  }

  // ---- priorities

  // The priority that was set is the one found, and the priorities for other quorums stay.
  lemma {:induction false} PriorityIsFound(l: seq<QuorumPriority>, q: nat, priority: nat, other: nat)
    ensures PriorityOf(WithPriority(l, q, priority), other) == if other == q then priority else PriorityOf(l, other)
  {
    if l != [] { PriorityIsFound(l[1..], q, priority, other); }
  }
}
