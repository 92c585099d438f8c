// What log entries do to the data that clients see: which quorum serves a key, and what a deletion
// takes away.

module Effects {
  import opened Bytes
  import opened KeyedLists
  import opened Links
  import opened KeyRanges
  import opened Schema
  import opened SchemaInvariant
  import opened SchemaSteps
  import opened Routing

  // The quorum that serves a key of a table, as a client finds it.
  function ServingQuorum(s: State, t: nat, key: bytes): Option<nat> {
    if !Has(s.tables, t) then None
    else
      var id := FirstInTable(s, Get(s.tables, t).shards, key);
      if id.Some? then Some(Get(s.shards, id.value).quorumID) else None
  }

  // The shard that holds a key decides.
  lemma HolderServes(s: State, t: nat, key: bytes, id: nat)
    requires WellFormed(s) && Has(s.tables, t) && id in Get(s.tables, t).shards && Has(s.shards, id)
    requires InRange(Get(s.shards, id).firstKey, Get(s.shards, id).lastKey, key)
    ensures ServingQuorum(s, t, key) == Some(Get(s.shards, id).quorumID)
  {
    var h := Holder(s, t, key);
    assert Owns(StructureOf(s).rangeOf, id, key);
    hide WellFormed;
    HolderInTable(s, t, key, h);
  }

  // Every key of every table is served by exactly one shard.
  lemma SomeHolder(s: State, t: nat, key: bytes) returns (id: nat)
    requires WellFormed(s) && Has(s.tables, t)
    ensures id in Get(s.tables, t).shards && Has(s.shards, id) && Get(s.shards, id).tableID == t
    ensures InRange(Get(s.shards, id).firstKey, Get(s.shards, id).lastKey, key)
    ensures ServingQuorum(s, t, key) == Some(Get(s.shards, id).quorumID)
  {
    id := Holder(s, t, key);
    hide WellFormed;
    HolderInTable(s, t, key, id);
    HolderServes(s, t, key, id);
  }

  // ---- splitting and migrating

  lemma SplitMaps(s: State, id: nat, key: bytes)
    requires WellFormed(s) && CompleteSplitShardBegin(s, id, key).Accepted?
    ensures OnSplitShardBegin(s, id, key).Ok?
    ensures var s', parent := OnSplitShardBegin(s, id, key).value, Get(s.shards, id);
            var newShard := Shard(parent.quorumID, parent.tableID, SHARD_SPLIT_CREATING, id, key, parent.lastKey, 0, [], false);
            var t := parent.tableID;
            AsMap(s'.shards) == AsMap(s.shards)[id := parent.(lastKey := key)][s.nextShardID := newShard]
            && s.nextShardID !in AsMap(s.shards) && Has(s.tables, t)
            && AsMap(s'.tables) == AsMap(s.tables)[t := Get(s.tables, t).(shards := Get(s.tables, t).shards + [s.nextShardID])]
  {
    ShardParents(s, id);
    hide Consistent, TableNamesUnique, DatabaseNamesUnique;
    assert Below(AsMap(s.shards), 1, s.nextShardID);
  }

  // The holder of a key after a split: the same shard or the new one, in the same quorum.
  lemma SplitHolder(s: State, id: nat, splitKey: bytes, t: nat, key: bytes, h: nat) returns (h': nat)
    requires WellFormed(s) && CompleteSplitShardBegin(s, id, splitKey).Accepted? && Has(s.tables, t)
    requires h in Get(s.tables, t).shards && Has(s.shards, h) && Get(s.shards, h).tableID == t
    requires InRange(Get(s.shards, h).firstKey, Get(s.shards, h).lastKey, key)
    ensures OnSplitShardBegin(s, id, splitKey).Ok?
    ensures var s' := OnSplitShardBegin(s, id, splitKey).value;
            Has(s'.tables, t) && h' in Get(s'.tables, t).shards && Has(s'.shards, h')
            && InRange(Get(s'.shards, h').firstKey, Get(s'.shards, h').lastKey, key)
            && Get(s'.shards, h').quorumID == Get(s.shards, h).quorumID
  {
    SplitMaps(s, id, splitKey);
    if h == id { CutHere(s, id, splitKey, key); }
    hide WellFormed, CompleteSplitShardBegin, OnSplitShardBegin, InRange;
    h' := if h == id && !InRange(Get(s.shards, id).firstKey, splitKey, key) then s.nextShardID else h;
  }

  lemma SplitStaysWellFormed(s: State, id: nat, splitKey: bytes)
    requires WellFormed(s) && CompleteSplitShardBegin(s, id, splitKey).Accepted?
    ensures OnSplitShardBegin(s, id, splitKey).Ok? && WellFormed(OnSplitShardBegin(s, id, splitKey).value)
  {
    OnSplitShardBeginKeeps(s, id, splitKey);
  }

  // Main result: a split does not change which quorum serves any key of any table.
  lemma SplitKeepsServing(s: State, id: nat, splitKey: bytes, t: nat, key: bytes)
    requires WellFormed(s) && CompleteSplitShardBegin(s, id, splitKey).Accepted? && Has(s.tables, t)
    ensures OnSplitShardBegin(s, id, splitKey).Ok?
    ensures ServingQuorum(OnSplitShardBegin(s, id, splitKey).value, t, key) == ServingQuorum(s, t, key)
  {
    hide WellFormed, CompleteSplitShardBegin, OnSplitShardBegin, ServingQuorum;
    SplitStaysWellFormed(s, id, splitKey);
    var h := SomeHolder(s, t, key);
    var h' := SplitHolder(s, id, splitKey, t, key, h);
    HolderServes(OnSplitShardBegin(s, id, splitKey).value, t, key, h');
  }

  lemma CutHere(s: State, id: nat, splitKey: bytes, key: bytes)
    requires CompleteSplitShardBegin(s, id, splitKey).Accepted?
    requires InRange(Get(s.shards, id).firstKey, Get(s.shards, id).lastKey, key)
    ensures var parent := Get(s.shards, id);
            InRange(parent.firstKey, splitKey, key) || InRange(splitKey, parent.lastKey, key)
  {
    var parent := Get(s.shards, id);
    RangeContainsIsInRange(parent.firstKey, parent.lastKey, splitKey);
    CmpEqual(parent.firstKey, splitKey);
    CmpEqual(parent.lastKey, splitKey);
    CutRange(Range(parent.firstKey, parent.lastKey), splitKey, key);
  }

  lemma MigrationMaps(s: State, q: nat, src: nat, dst: nat)
    requires WellFormed(s) && Has(s.shards, src) && Has(s.quorums, q) && !Has(s.shards, dst)
    ensures OnShardMigrationComplete(s, q, src, dst).Ok?
    ensures var s', shard := OnShardMigrationComplete(s, q, src, dst).value, Get(s.shards, src);
            var t := shard.tableID;
            AsMap(s'.shards) == (AsMap(s.shards) - {src})[dst := shard.(quorumID := q)] && Has(s.tables, t)
            && AsMap(s'.tables) == AsMap(s.tables)[t := Get(s.tables, t).(shards := Remove(Get(s.tables, t).shards, src) + [dst])]
  {
    ShardParents(s, src);
    hide Consistent, TableNamesUnique, DatabaseNamesUnique;
  }

  lemma MigrationHolder(s: State, q: nat, src: nat, dst: nat, t: nat, h: nat) returns (h': nat)
    requires WellFormed(s) && Has(s.shards, src) && Has(s.quorums, q) && !Has(s.shards, dst)
    requires Has(s.tables, t) && h in Get(s.tables, t).shards && Has(s.shards, h) && Get(s.shards, h).tableID == t
    ensures OnShardMigrationComplete(s, q, src, dst).Ok?
    ensures var s' := OnShardMigrationComplete(s, q, src, dst).value;
            Has(s'.tables, t) && h' in Get(s'.tables, t).shards && Has(s'.shards, h')
            && Get(s'.shards, h') == if h == src then Get(s.shards, h).(quorumID := q) else Get(s.shards, h)
  {
    hide WellFormed, OnShardMigrationComplete, Remove, NoDup, Unique, AsMap, IndexOf;
    MigrationMaps(s, q, src, dst);
    h' := if h == src then dst else h;
    MovedList(Get(s.tables, t).shards, src, dst, h);
  }

  lemma MovedList(l: seq<nat>, src: nat, dst: nat, h: nat)
    requires h in l
    ensures (if h == src then dst else h) in Remove(l, src) + [dst]
  {}

  // Main result: a completed migration moves exactly the keys of its shard, all of them to its
  // target, and no key of another shard.
  lemma MigrationMovesItsKeys(s: State, q: nat, src: nat, dst: nat, t: nat, key: bytes)
    requires WellFormed(s) && Has(s.shards, src) && Has(s.quorums, q) && !Has(s.shards, dst) && 1 <= dst < s.nextShardID
    requires Has(s.tables, t)
    ensures OnShardMigrationComplete(s, q, src, dst).Ok?
    ensures ServingQuorum(OnShardMigrationComplete(s, q, src, dst).value, t, key) ==
              if Holds(Get(s.shards, src), t, key) then Some(q) else ServingQuorum(s, t, key)
  {
    hide WellFormed, OnShardMigrationComplete, ServingQuorum;
    OnShardMigrationCompleteKeeps(s, q, src, dst);
    var h := SomeHolder(s, t, key);
    var h' := MigrationHolder(s, q, src, dst, t, h);
    HolderServes(OnShardMigrationComplete(s, q, src, dst).value, t, key, h');
    OnlyHolder(s, t, key, src, h);
  }

  lemma OnlyHolder(s: State, t: nat, key: bytes, a: nat, b: nat)
    requires WellFormed(s) && Has(s.tables, t) && Has(s.shards, a) && Has(s.shards, b)
    requires Get(s.shards, b).tableID == t && InRange(Get(s.shards, b).firstKey, Get(s.shards, b).lastKey, key)
    ensures Holds(Get(s.shards, a), t, key) <==> a == b
  {
    var i, j := IndexOf(s.shards, a), IndexOf(s.shards, b);
    var h := Holder(s, t, key);
    HolderAt(s, t, key, h, j);
    if Get(s.shards, a).tableID == t { HolderAt(s, t, key, h, i); }
  }

  // ---- deleting

  // The tables in gone and all their shards are no more; every other table and shard is as before.
  ghost predicate Erased(s: State, s': State, gone: set<nat>) {
    var ts, ts', ss, ss' := AsMap(s.tables), AsMap(s'.tables), AsMap(s.shards), AsMap(s'.shards);
    && (forall u :: u in ts' <==> u in ts && u !in gone) && (forall u :: u in ts' ==> ts'[u] == ts[u])
    && ErasedShards(ss, ss', gone)
  }

  ghost predicate ErasedShards(ss: map<nat, Shard>, ss': map<nat, Shard>, gone: set<nat>) {
    (forall id :: id in ss' <==> id in ss && ss[id].tableID !in gone) && (forall id :: id in ss' ==> ss'[id] == ss[id])
  }

  lemma ErasedTwice(s: State, s': State, s'': State, a: set<nat>, b: set<nat>)
    requires Erased(s, s', a) && Erased(s', s'', b)
    ensures Erased(s, s'', a + b)
  {}

  lemma NoShardsLeft(s: State, t: nat, gone: set<nat>)
    requires WellFormedExcept(s, gone) && Has(s.tables, t) && Get(s.tables, t).shards == []
    ensures ErasedShards(AsMap(s.shards), AsMap(s.shards), {t})
  {
    hide Tiled, Numbered, TableNamesUnique, DatabaseNamesUnique, AsMap, IndexOf;
    var x := StructureOf(s);
    forall id | id in AsMap(s.shards) ensures AsMap(s.shards)[id].tableID != t {
      assert Listed(x.tableOf, x.tableShards, id);
    }
  }

  lemma FirstShardOf(s: State, t: nat, gone: set<nat>)
    requires WellFormedExcept(s, gone) && Has(s.tables, t) && Get(s.tables, t).shards != []
    ensures var id := Get(s.tables, t).shards[0]; Has(s.shards, id) && Get(s.shards, id).tableID == t
  {
    var x, id := StructureOf(s), Get(s.tables, t).shards[0];
    hide Linked, Tiled, Numbered, TableNamesUnique, DatabaseNamesUnique;
    TableList(x, t);
    assert id in x.tableShards[t];
  }

  lemma DeleteShardMaps(s: State, id: nat)
    requires Unique(s.shards) && Has(s.shards, id) && DeleteShard(s, id).Ok?
    ensures var s', t := DeleteShard(s, id).value, Get(s.shards, id).tableID;
            AsMap(s'.shards) == AsMap(s.shards) - {id} && Has(s.tables, t)
            && AsMap(s'.tables) == AsMap(s.tables)[t := Get(s.tables, t).(shards := Remove(Get(s.tables, t).shards, id))]
    ensures |DeleteShard(s, id).value.shards| < |s.shards|
  {}

  lemma PutSame<T>(m: map<nat, T>, k: nat, x: T)
    requires k in m && m[k] == x
    ensures m[k := x] == m
  {}

  lemma {:induction false} DeleteShardsOfErases(s: State, t: nat, gone: set<nat>)
    requires WellFormedExcept(s, gone) && Has(s.tables, t) && t in gone
    ensures DeleteShardsOf(s, t).Ok?
    ensures var s' := DeleteShardsOf(s, t).value;
            ErasedShards(AsMap(s.shards), AsMap(s'.shards), {t})
            && AsMap(s'.tables) == AsMap(s.tables)[t := Get(s.tables, t).(shards := [])]
    decreases |s.shards|
  {
    hide WellFormedExcept, DeleteShard, Unique, IndexOf, AsMap, ErasedShards;
    var ids := Get(s.tables, t).shards;
    if ids == [] {
      NoShardsLeft(s, t, gone);
      PutSame(AsMap(s.tables), t, Get(s.tables, t).(shards := []));
    } else {
      FirstShardOf(s, t, gone);
      DeleteShardKeeps(s, ids[0], gone);
      UniqueExcept(s, gone);
      var s1 := DeleteShard(s, ids[0]).value;
      DeleteShardMaps(s, ids[0]);
      DeleteShardsOfErases(s1, t, gone);
      PutTwice(AsMap(s.tables), t, Get(s1.tables, t), Get(s1.tables, t).(shards := []));
      ErasedBehind(AsMap(s.shards), AsMap(DeleteShardsOf(s1, t).value.shards), ids[0], t);
    }
  }

  lemma UniqueExcept(s: State, gone: set<nat>)
    requires WellFormedExcept(s, gone)
    ensures Unique(s.shards) && Unique(s.tables) && Unique(s.databases)
  {}

  lemma ErasedBehind(ss: map<nat, Shard>, ss': map<nat, Shard>, id: nat, t: nat)
    requires id in ss && ss[id].tableID == t && ErasedShards(ss - {id}, ss', {t})
    ensures ErasedShards(ss, ss', {t})
  {}

  lemma DroppedTable(s: State, s1: State, t: nat)
    requires Has(s.tables, t) && Has(s1.tables, t) && Unique(s1.tables)
    requires ErasedShards(AsMap(s.shards), AsMap(s1.shards), {t})
    requires AsMap(s1.tables) == AsMap(s.tables)[t := Get(s.tables, t).(shards := [])]
    ensures Erased(s, s1.(tables := Drop(s1.tables, t)), {t})
  {}

  lemma EraseTableErases(s: State, t: nat, gone: set<nat>)
    requires WellFormedExcept(s, gone) && Has(s.tables, t) && t in gone
    ensures EraseTable(s, t).Ok? && Erased(s, EraseTable(s, t).value, {t})
  {
    hide WellFormedExcept, DeleteShardsOf, Unique, AsMap, IndexOf, Erased, ErasedShards;
    DeleteShardsOfErases(s, t, gone);
    DeleteShardsOfKeeps(s, t, gone);
    UniqueExcept(DeleteShardsOf(s, t).value, gone);
    DroppedTable(s, DeleteShardsOf(s, t).value, t);
  }

  lemma ErasedNothing(s: State)
    ensures Erased(s, s, {})
  {}

  lemma StillThere(s: State, s1: State, ids: seq<nat>)
    requires ids != [] && NoDup(ids) && (forall t :: t in ids ==> t in AsMap(s.tables)) && Erased(s, s1, {ids[0]})
    ensures forall t :: t in ids[1..] ==> t in AsMap(s1.tables) && t in ids
  {}

  ghost function Elements(ids: seq<nat>): set<nat> { set t | t in ids }

  ghost function TablesIn(s: State, d: nat): set<nat> {
    set t | t in AsMap(s.tables) && AsMap(s.tables)[t].databaseID == d
  }

  lemma FirstAndRest(ids: seq<nat>)
    requires ids != []
    ensures Elements(ids) == {ids[0]} + Elements(ids[1..])
  {}

  lemma {:induction false} EraseTablesErases(s: State, ids: seq<nat>, gone: set<nat>)
    requires WellFormedExcept(s, gone) && NoDup(ids)
    requires forall t :: t in ids ==> t in AsMap(s.tables) && t in gone
    ensures EraseTables(s, ids).Ok? && Erased(s, EraseTables(s, ids).value, Elements(ids))
    decreases |ids|
  {
    hide WellFormedExcept, EraseTable, AsMap, IndexOf, Erased, ErasedShards;
    if ids == [] {
      ErasedNothing(s);
      assert Elements(ids) == {};
    } else {
      EraseTableErases(s, ids[0], gone);
      EraseTableKeeps(s, ids[0], gone);
      var s1 := EraseTable(s, ids[0]).value;
      StillThere(s, s1, ids);
      EraseTablesErases(s1, ids[1..], gone);
      ErasedTwice(s, s1, EraseTables(s1, ids[1..]).value, {ids[0]}, Elements(ids[1..]));
      FirstAndRest(ids);
    }
  }

  lemma SameErased(s: State, s1: State, s2: State, gone: set<nat>)
    requires Erased(s, s1, gone) && s2.tables == s1.tables && s2.shards == s1.shards
    ensures Erased(s, s2, gone)
  {}

  // Main result: deleting a table takes away that table and its shards and nothing else ...
  lemma DeleteTableErases(s: State, t: nat)
    requires WellFormed(s) && Has(s.tables, t)
    ensures OnDeleteTable(s, t).Ok? && Erased(s, OnDeleteTable(s, t).value, {t})
  {
    hide WellFormed, WellFormedExcept, EraseTable, AsMap, IndexOf, Erased, ErasedShards;
    SchemaInvariant.GoneGrows(s, {t});
    OnDeleteTableKeeps(s, t);
    EraseTableErases(s, t, {t});
    SameErased(s, EraseTable(s, t).value, OnDeleteTable(s, t).value, {t});
  }

  lemma TablesOf(s: State, d: nat)
    requires WellFormed(s) && Has(s.databases, d)
    ensures NoDup(Get(s.databases, d).tables)
    ensures forall t :: t in Get(s.databases, d).tables <==> t in AsMap(s.tables) && AsMap(s.tables)[t].databaseID == d
  {
    var x := StructureOf(s);
    hide Tiled, Numbered, TableNamesUnique, DatabaseNamesUnique;
    assert ListSound(x.databaseOf, x.databaseTables[d], d, {});
    forall t | t in x.databaseOf && x.databaseOf[t] == d ensures t in x.databaseTables[d] {
      assert Listed(x.databaseOf, x.databaseTables, t);
    }
  }

  lemma TablesOfIs(s: State, d: nat)
    requires WellFormed(s) && Has(s.databases, d)
    ensures Elements(Get(s.databases, d).tables) == TablesIn(s, d)
  {
    TablesOf(s, d);
    hide WellFormed;
  }

  // ... and deleting a database takes away its tables with their shards, and nothing else.
  lemma DeleteDatabaseErases(s: State, d: nat)
    requires WellFormed(s) && Has(s.databases, d)
    ensures OnDeleteDatabase(s, d).Ok?
    ensures Erased(s, OnDeleteDatabase(s, d).value, TablesIn(s, d))
    ensures AsMap(OnDeleteDatabase(s, d).value.databases) == AsMap(s.databases) - {d}
  {
    hide WellFormed, WellFormedExcept, EraseTables, AsMap, IndexOf, Erased, ErasedShards, NoDup;
    var ids := Get(s.databases, d).tables;
    var gone := TablesIn(s, d);
    TablesOf(s, d);
    SchemaInvariant.GoneGrows(s, gone);
    OnDeleteDatabaseKeeps(s, d);
    UniqueExcept(s, gone);
    TablesOfIs(s, d);
    EraseTablesErases(s, ids, gone);
    EraseTablesKeepsDatabases(s, ids, gone);
    SameErased(s, EraseTables(s, ids).value, OnDeleteDatabase(s, d).value, gone);
  }

  lemma EraseTablesKeepsDatabases(s: State, ids: seq<nat>, gone: set<nat>)
    requires WellFormedExcept(s, gone) && NoDup(ids)
    requires forall t :: t in ids ==> t in AsMap(s.tables) && t in gone
    ensures EraseTables(s, ids).Ok? && EraseTables(s, ids).value.databases == s.databases
  {
    hide Linked, Tiled, Numbered, TableNamesUnique, DatabaseNamesUnique;
    EraseTablesKeeps(s, ids, gone);
  }
}
