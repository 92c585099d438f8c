// The well-formed states of a controller, and the proof that every accepted log entry keeps them.

module SchemaInvariant {
  import opened Bytes
  import opened KeyedLists
  import opened Links
  import opened KeyRanges
  import opened Schema

  // The part of a state that ties shards, tables, quorums and databases together.
  datatype Structure = Structure(
    tableOf: map<nat, nat>,
    quorumOf: map<nat, nat>,
    databaseOf: map<nat, nat>,
    tableShards: map<nat, seq<nat>>,
    quorumShards: map<nat, seq<nat>>,
    databaseTables: map<nat, seq<nat>>,
    rangeOf: map<nat, Range>)

  function TableOf(ss: map<nat, Shard>): map<nat, nat> { map id | id in ss :: ss[id].tableID }
  function QuorumOf(ss: map<nat, Shard>): map<nat, nat> { map id | id in ss :: ss[id].quorumID }
  function RangeOf(ss: map<nat, Shard>): map<nat, Range> { map id | id in ss :: Range(ss[id].firstKey, ss[id].lastKey) }
  function DatabaseOf(ts: map<nat, Table>): map<nat, nat> { map t | t in ts :: ts[t].databaseID }
  function TableShards(ts: map<nat, Table>): map<nat, seq<nat>> { map t | t in ts :: ts[t].shards }
  function QuorumShards(qs: map<nat, Quorum>): map<nat, seq<nat>> { map q | q in qs :: qs[q].shards }
  function DatabaseTables(ds: map<nat, Database>): map<nat, seq<nat>> { map d | d in ds :: ds[d].tables }

  function StructureOf(s: State): Structure {
    var ss, ts := AsMap(s.shards), AsMap(s.tables);
    Structure(TableOf(ss), QuorumOf(ss), DatabaseOf(ts), TableShards(ts),
              QuorumShards(AsMap(s.quorums)), DatabaseTables(AsMap(s.databases)), RangeOf(ss))
  }

  // How the maps follow an update that keeps the fields concerned, another update, and a removal.
  lemma SameShardMaps(ss: map<nat, Shard>, id: nat, o: Shard)
    requires id in ss && o.tableID == ss[id].tableID && o.quorumID == ss[id].quorumID
    ensures TableOf(ss[id := o]) == TableOf(ss) && QuorumOf(ss[id := o]) == QuorumOf(ss)
    ensures o.firstKey == ss[id].firstKey && o.lastKey == ss[id].lastKey ==> RangeOf(ss[id := o]) == RangeOf(ss)
  {}

  lemma SameTableMaps(ts: map<nat, Table>, t: nat, o: Table)
    requires t in ts && o.databaseID == ts[t].databaseID
    ensures DatabaseOf(ts[t := o]) == DatabaseOf(ts)
    ensures o.shards == ts[t].shards ==> TableShards(ts[t := o]) == TableShards(ts)
  {}

  lemma ShardMaps(ss: map<nat, Shard>, id: nat, o: Shard)
    ensures TableOf(ss[id := o]) == TableOf(ss)[id := o.tableID]
    ensures QuorumOf(ss[id := o]) == QuorumOf(ss)[id := o.quorumID]
    ensures RangeOf(ss[id := o]) == RangeOf(ss)[id := Range(o.firstKey, o.lastKey)]
    ensures TableOf(ss - {id}) == TableOf(ss) - {id}
    ensures QuorumOf(ss - {id}) == QuorumOf(ss) - {id}
    ensures RangeOf(ss - {id}) == RangeOf(ss) - {id}
  {}

  lemma TableMaps(ts: map<nat, Table>, t: nat, o: Table)
    ensures DatabaseOf(ts[t := o]) == DatabaseOf(ts)[t := o.databaseID]
    ensures TableShards(ts[t := o]) == TableShards(ts)[t := o.shards]
    ensures DatabaseOf(ts - {t}) == DatabaseOf(ts) - {t}
    ensures TableShards(ts - {t}) == TableShards(ts) - {t}
  {}

  lemma PutTwice<T>(m: map<nat, T>, k: nat, a: T, b: T)
    ensures m[k := a][k := b] == m[k := b]
  {}

  lemma QuorumMap(qs: map<nat, Quorum>, q: nat, o: Quorum)
    ensures QuorumShards(qs[q := o]) == QuorumShards(qs)[q := o.shards]
    ensures QuorumShards(qs - {q}) == QuorumShards(qs) - {q}
  {}

  lemma DatabaseMap(ds: map<nat, Database>, d: nat, o: Database)
    ensures DatabaseTables(ds[d := o]) == DatabaseTables(ds)[d := o.tables]
    ensures DatabaseTables(ds - {d}) == DatabaseTables(ds) - {d}
  {}

  predicate SameKeys(x: Structure) {
    x.tableOf.Keys == x.quorumOf.Keys == x.rangeOf.Keys && x.databaseOf.Keys == x.tableShards.Keys
  }

  // The shards of every table partition the key space, except for tables being deleted.
  ghost predicate Tiled(x: Structure, gone: set<nat>) {
    forall t :: t in x.tableShards && t !in gone ==> Partition(x.rangeOf, x.tableShards[t])
  }

  ghost predicate Consistent(x: Structure, gone: set<nat>) {
    SameKeys(x) &&
    Linked(x.tableOf, x.tableShards, {}) && Linked(x.quorumOf, x.quorumShards, {}) &&
    Linked(x.databaseOf, x.databaseTables, gone) && Tiled(x, gone)
  }

  predicate Below<T>(m: map<nat, T>, lo: nat, next: nat) {
    next >= lo && forall id :: id in m ==> lo <= id < next
  }

  // Numbers are unique and below their counters.
  predicate Numbered(s: State) {
    && Unique(s.quorums) && Below(AsMap(s.quorums), 1, s.nextQuorumID)
    && Unique(s.databases) && Below(AsMap(s.databases), 1, s.nextDatabaseID)
    && Unique(s.tables) && Below(AsMap(s.tables), 1, s.nextTableID)
    && Unique(s.shards) && Below(AsMap(s.shards), 1, s.nextShardID)
    && Unique(s.shardServers) && Below(AsMap(s.shardServers), CONFIG_MIN_SHARD_NODE_ID, s.nextNodeID)
  }

  predicate DatabaseNamesUnique(ds: map<nat, Database>) {
    forall a, b :: a in ds && b in ds && a != b ==> ds[a].name != ds[b].name
  }

  predicate TableNamesUnique(ts: map<nat, Table>) {
    forall a, b :: a in ts && b in ts && a != b ==>
      ts[a].databaseID != ts[b].databaseID || ts[a].name != ts[b].name
  }

  ghost predicate WellFormedExcept(s: State, gone: set<nat>) {
    Numbered(s) && DatabaseNamesUnique(AsMap(s.databases)) && TableNamesUnique(AsMap(s.tables)) &&
    Consistent(StructureOf(s), gone)
  }

  // What holds in every reachable state.
  ghost predicate WellFormed(s: State) { WellFormedExcept(s, {}) }

  lemma EmptyIsWellFormed()
    ensures WellFormed(EmptyState)
  {}

  // ---- steps on the structure

  function WithoutShard(x: Structure, id: nat): Structure
    requires id in x.tableOf && x.tableOf[id] in x.tableShards
    requires id in x.quorumOf && x.quorumOf[id] in x.quorumShards
  {
    var t, q := x.tableOf[id], x.quorumOf[id];
    x.(tableOf := x.tableOf - {id}, quorumOf := x.quorumOf - {id}, rangeOf := x.rangeOf - {id},
       tableShards := x.tableShards[t := Remove(x.tableShards[t], id)],
       quorumShards := x.quorumShards[q := Remove(x.quorumShards[q], id)])
  }

  function WithShard(x: Structure, id: nat, t: nat, q: nat, r: Range): Structure
    requires t in x.tableShards && q in x.quorumShards
  {
    x.(tableOf := x.tableOf[id := t], quorumOf := x.quorumOf[id := q], rangeOf := x.rangeOf[id := r],
       tableShards := x.tableShards[t := x.tableShards[t] + [id]],
       quorumShards := x.quorumShards[q := AddSorted(x.quorumShards[q], id)])
  }

  // Only table t is touched, and it is exempt or again a partition.
  lemma TiledFrame(x: Structure, y: Structure, t: nat, gone: set<nat>, gone': set<nat>)
    requires Linked(x.tableOf, x.tableShards, {}) && Tiled(x, gone)
    requires forall u :: u in y.tableShards && u != t && u !in gone' ==>
               u in x.tableShards && u !in gone && y.tableShards[u] == x.tableShards[u]
    requires forall id :: id in x.tableOf && x.tableOf[id] != t ==>
               id in y.rangeOf && (id in x.rangeOf ==> y.rangeOf[id] == x.rangeOf[id])
    requires t in gone' || t !in y.tableShards || Partition(y.rangeOf, y.tableShards[t])
    ensures Tiled(y, gone')
  {
    forall u | u in y.tableShards && u !in gone' && u != t ensures Partition(y.rangeOf, y.tableShards[u]) {
      assert ListSound(x.tableOf, x.tableShards[u], u, {});
      PartitionFrame(x.rangeOf, y.rangeOf, x.tableShards[u]);
    }
  }

  lemma Parents(x: Structure, id: nat)
    requires Linked(x.tableOf, x.tableShards, {}) && Linked(x.quorumOf, x.quorumShards, {})
    requires id in x.tableOf && id in x.quorumOf
    ensures x.tableOf[id] in x.tableShards && id in x.tableShards[x.tableOf[id]]
    ensures x.quorumOf[id] in x.quorumShards && id in x.quorumShards[x.quorumOf[id]]
  {
    assert Listed(x.tableOf, x.tableShards, id) && Listed(x.quorumOf, x.quorumShards, id);
  }

  lemma TableList(x: Structure, t: nat)
    requires Linked(x.tableOf, x.tableShards, {}) && t in x.tableShards
    ensures NoDup(x.tableShards[t])
    ensures forall id :: id in x.tableShards[t] ==> id in x.tableOf && x.tableOf[id] == t
  {
    assert ListSound(x.tableOf, x.tableShards[t], t, {});
  }

  lemma WithoutShardConsistent(x: Structure, id: nat, gone: set<nat>)
    requires Consistent(x, gone) && id in x.tableOf && x.tableOf[id] in gone
    ensures x.tableOf[id] in x.tableShards && x.quorumOf[id] in x.quorumShards
    ensures Consistent(WithoutShard(x, id), gone)
  {
    hide Linked, Partition;
    Parents(x, id);
    DropChild(x.tableOf, x.tableShards, {}, id);
    DropChild(x.quorumOf, x.quorumShards, {}, id);
    TiledFrame(x, WithoutShard(x, id), x.tableOf[id], gone, gone);
  }

  lemma WithShardLinked(x: Structure, id: nat, t: nat, q: nat, r: Range)
    requires Linked(x.tableOf, x.tableShards, {}) && Linked(x.quorumOf, x.quorumShards, {})
    requires t in x.tableShards && q in x.quorumShards && id !in x.tableOf && id !in x.quorumOf
    ensures var y := WithShard(x, id, t, q, r);
            Linked(y.tableOf, y.tableShards, {}) && Linked(y.quorumOf, y.quorumShards, {})
  {
    assert ListSound(x.tableOf, x.tableShards[t], t, {}) && ListSound(x.quorumOf, x.quorumShards[q], q, {});
    NoDupAppend(x.tableShards[t], id);
    AddChild(x.tableOf, x.tableShards, {}, id, t, x.tableShards[t] + [id]);
    AddChild(x.quorumOf, x.quorumShards, {}, id, q, AddSorted(x.quorumShards[q], id));
  }

  lemma GoneReturns(parent: map<nat, nat>, lists: map<nat, seq<nat>>, t: nat)
    requires Linked(parent, lists, {t}) && t in parent
    ensures Linked(parent, lists, {})
  {
    forall d | d in lists ensures ListSound(parent, lists[d], d, {}) { assert ListSound(parent, lists[d], d, {t}); }
  }

  lemma FirstShardTiled(x: Structure, id: nat, t: nat, q: nat)
    requires Linked(x.tableOf, x.tableShards, {}) && Tiled(x, {t}) && x.tableOf.Keys == x.rangeOf.Keys
    requires t in x.tableShards && x.tableShards[t] == [] && q in x.quorumShards && id !in x.tableOf
    ensures Tiled(WithShard(x, id, t, q, Range([], [])), {})
  {
    hide Linked, Tiled, Partition, AddSorted;
    var y := WithShard(x, id, t, q, Range([], []));
    assert y.tableShards[t] == [id];
    WholePartition(y.rangeOf, id);
    TiledFrame(x, y, t, {t}, {});
  }

  // A table without shards gets its first, which covers the key space.
  lemma FirstShardConsistent(x: Structure, id: nat, t: nat, q: nat)
    requires Consistent(x, {t}) && t in x.tableShards && x.tableShards[t] == []
    requires q in x.quorumShards && id !in x.tableOf
    ensures Consistent(WithShard(x, id, t, q, Range([], [])), {})
  {
    hide Linked, Tiled;
    WithShardLinked(x, id, t, q, Range([], []));
    FirstShardTiled(x, id, t, q);
    GoneReturns(x.databaseOf, x.databaseTables, t);
  }

  function SplitShard(x: Structure, id: nat, new': nat, key: bytes): Structure
    requires id in x.tableOf && x.tableOf[id] in x.tableShards && id in x.rangeOf
    requires id in x.quorumOf && x.quorumOf[id] in x.quorumShards
  {
    WithShard(x.(rangeOf := x.rangeOf[id := Range(x.rangeOf[id].first, key)]),
              new', x.tableOf[id], x.quorumOf[id], Range(key, x.rangeOf[id].last))
  }

  lemma SplitShardTiled(x: Structure, id: nat, new': nat, key: bytes)
    requires Linked(x.tableOf, x.tableShards, {}) && Tiled(x, {}) && x.tableOf.Keys == x.rangeOf.Keys
    requires id in x.tableOf && new' !in x.tableOf && x.tableOf[id] in x.tableShards && id in x.tableShards[x.tableOf[id]]
    requires id in x.quorumOf && x.quorumOf[id] in x.quorumShards
    requires InRange(x.rangeOf[id].first, x.rangeOf[id].last, key)
    requires key != x.rangeOf[id].first && key != x.rangeOf[id].last
    ensures Tiled(SplitShard(x, id, new', key), {})
  {
    hide Linked, Partition;
    var t := x.tableOf[id];
    TableList(x, t);
    SplitPartition(x.rangeOf, x.tableShards[t], id, new', key);
    TiledFrame(x, SplitShard(x, id, new', key), t, {}, {});
  }

  lemma SplitShardConsistent(x: Structure, id: nat, new': nat, key: bytes)
    requires Consistent(x, {}) && id in x.tableOf && new' !in x.tableOf
    requires InRange(x.rangeOf[id].first, x.rangeOf[id].last, key)
    requires key != x.rangeOf[id].first && key != x.rangeOf[id].last
    ensures x.tableOf[id] in x.tableShards && x.quorumOf[id] in x.quorumShards
    ensures Consistent(SplitShard(x, id, new', key), {})
  {
    hide Linked, Tiled;
    Parents(x, id);
    WithShardLinked(x.(rangeOf := x.rangeOf[id := Range(x.rangeOf[id].first, key)]),
                    new', x.tableOf[id], x.quorumOf[id], Range(key, x.rangeOf[id].last));
    SplitShardTiled(x, id, new', key);
  }

  function MoveShard(x: Structure, src: nat, dst: nat, q: nat): Structure
    requires src in x.tableOf && x.tableOf[src] in x.tableShards && src in x.rangeOf
    requires src in x.quorumOf && x.quorumOf[src] in x.quorumShards && q in x.quorumShards
  {
    WithShard(WithoutShard(x, src), dst, x.tableOf[src], q, x.rangeOf[src])
  }

  lemma MoveShardLinked(x: Structure, src: nat, dst: nat, q: nat)
    requires Linked(x.tableOf, x.tableShards, {}) && Linked(x.quorumOf, x.quorumShards, {}) && SameKeys(x)
    requires src in x.tableOf && dst !in x.tableOf && q in x.quorumShards
    ensures x.tableOf[src] in x.tableShards && src in x.tableShards[x.tableOf[src]] && x.quorumOf[src] in x.quorumShards
    ensures var y := MoveShard(x, src, dst, q);
            Linked(y.tableOf, y.tableShards, {}) && Linked(y.quorumOf, y.quorumShards, {})
  {
    Parents(x, src);
    DropChild(x.tableOf, x.tableShards, {}, src);
    DropChild(x.quorumOf, x.quorumShards, {}, src);
    WithShardLinked(WithoutShard(x, src), dst, x.tableOf[src], q, x.rangeOf[src]);
  }

  lemma MoveShardTiled(x: Structure, src: nat, dst: nat, q: nat)
    requires Linked(x.tableOf, x.tableShards, {}) && Tiled(x, {}) && SameKeys(x)
    requires src in x.tableOf && x.tableOf[src] in x.tableShards && src in x.tableShards[x.tableOf[src]]
    requires x.quorumOf[src] in x.quorumShards && dst !in x.tableOf && q in x.quorumShards
    ensures Tiled(MoveShard(x, src, dst, q), {})
  {
    hide Linked, Partition;
    var t := x.tableOf[src];
    TableList(x, t);
    RenamePartition(x.rangeOf, x.tableShards[t], src, dst);
    TiledFrame(x, MoveShard(x, src, dst, q), t, {}, {});
  }

  lemma MoveShardConsistent(x: Structure, src: nat, dst: nat, q: nat)
    requires Consistent(x, {}) && src in x.tableOf && dst !in x.tableOf && q in x.quorumShards
    ensures x.tableOf[src] in x.tableShards && x.quorumOf[src] in x.quorumShards
    ensures Consistent(MoveShard(x, src, dst, q), {})
  {
    hide Linked, Tiled;
    MoveShardLinked(x, src, dst, q);
    MoveShardTiled(x, src, dst, q);
  }

  lemma WithTableConsistent(x: Structure, t: nat, d: nat)
    requires Consistent(x, {}) && t !in x.tableShards && d in x.databaseTables
    ensures Consistent(x.(tableShards := x.tableShards[t := []], databaseOf := x.databaseOf[t := d],
                          databaseTables := x.databaseTables[d := x.databaseTables[d] + [t]]), {t})
  {
    assert ListSound(x.databaseOf, x.databaseTables[d], d, {});
    NoDupAppend(x.databaseTables[d], t);
    AddChild(x.databaseOf, x.databaseTables, {}, t, d, x.databaseTables[d] + [t]);
    AddParent(x.tableOf, x.tableShards, {}, t);
    Links.GoneGrows(x.databaseOf[t := d], x.databaseTables[d := x.databaseTables[d] + [t]], {t});
    TiledFrame(x, x.(tableShards := x.tableShards[t := []]), t, {}, {t});
  }

  lemma WithoutTableConsistent(x: Structure, t: nat, gone: set<nat>)
    requires Consistent(x, gone) && t in gone && t in x.tableShards && x.tableShards[t] == []
    ensures Consistent(x.(tableShards := x.tableShards - {t}, databaseOf := x.databaseOf - {t}), gone)
  {
    OrphanEntry(x.databaseOf, x.databaseTables, gone, t);
    DropParent(x.tableOf, x.tableShards, {}, t);
    TiledFrame(x, x.(tableShards := x.tableShards - {t}), t, gone, gone);
  }

  lemma UnlistTableConsistent(x: Structure, y: Structure, t: nat)
    requires Consistent(x, {}) && t in x.databaseOf && Consistent(y, {t}) && t !in y.databaseOf
    requires y.databaseTables == x.databaseTables
    ensures x.databaseOf[t] in x.databaseTables
    ensures var d := x.databaseOf[t];
            Consistent(y.(databaseTables := y.databaseTables[d := Remove(y.databaseTables[d], t)]), {})
  {
    assert Listed(x.databaseOf, x.databaseTables, t);
    OneList(x.databaseOf, x.databaseTables, {}, t);
    RemoveOrphanEntry(y.databaseOf, y.databaseTables, t, x.databaseOf[t]);
  }

  lemma WithoutDatabaseConsistent(x: Structure, y: Structure, d: nat, gone: set<nat>)
    requires Consistent(x, {}) && d in x.databaseTables && Consistent(y, gone)
    requires y.databaseTables == x.databaseTables
    requires forall t :: t in gone <==> t in x.databaseTables[d]
    requires forall t :: t in y.databaseOf ==> t !in gone
    ensures Consistent(y.(databaseTables := y.databaseTables - {d}), {})
  {
    assert ListSound(x.databaseOf, x.databaseTables[d], d, {});
    forall e, t | e in y.databaseTables && e != d && t in y.databaseTables[e] ensures t !in gone {
      assert ListSound(x.databaseOf, x.databaseTables[e], e, {});
    }
    DropParent(y.databaseOf, y.databaseTables, gone, d);
    assert forall t :: t in y.tableShards ==> t in y.databaseOf;
  }

  // ---- deleting shards, tables and databases

  predicate SameCounters(s: State, s': State) {
    && s'.nextQuorumID == s.nextQuorumID && s'.nextDatabaseID == s.nextDatabaseID
    && s'.nextTableID == s.nextTableID && s'.nextShardID == s.nextShardID && s'.nextNodeID == s.nextNodeID
  }

  lemma DeleteShardNumbered(s: State, id: nat)
    requires Numbered(s) && TableNamesUnique(AsMap(s.tables)) && Has(s.shards, id)
    requires Has(s.tables, Get(s.shards, id).tableID) && Has(s.quorums, Get(s.shards, id).quorumID)
    ensures DeleteShard(s, id).Ok? && Numbered(DeleteShard(s, id).value)
    ensures TableNamesUnique(AsMap(DeleteShard(s, id).value.tables))
  {}

  lemma DeleteShardStructure(s: State, id: nat)
    requires Unique(s.shards) && Has(s.shards, id)
    requires Has(s.tables, Get(s.shards, id).tableID) && Has(s.quorums, Get(s.shards, id).quorumID)
    ensures DeleteShard(s, id).Ok?
    ensures StructureOf(DeleteShard(s, id).value) == WithoutShard(StructureOf(s), id)
  {
    var shard, s', x := Get(s.shards, id), DeleteShard(s, id).value, StructureOf(s);
    assert x.tableOf[id] == shard.tableID && x.quorumOf[id] == shard.quorumID;
    assert x.tableShards[shard.tableID] == Get(s.tables, shard.tableID).shards;
    assert x.quorumShards[shard.quorumID] == Get(s.quorums, shard.quorumID).shards;
    hide Unique, TableOf, QuorumOf, RangeOf, DatabaseOf, TableShards, QuorumShards, DatabaseTables;
    SameTableMaps(AsMap(s.tables), shard.tableID, Get(s'.tables, shard.tableID));
    ShardMaps(AsMap(s.shards), id, shard);
    TableMaps(AsMap(s.tables), shard.tableID, Get(s'.tables, shard.tableID));
    QuorumMap(AsMap(s.quorums), shard.quorumID, Get(s'.quorums, shard.quorumID));
  }

  lemma DeleteShardKeeps(s: State, id: nat, gone: set<nat>)
    requires WellFormedExcept(s, gone) && Has(s.shards, id) && Get(s.shards, id).tableID in gone
    ensures Has(s.tables, Get(s.shards, id).tableID) && Has(s.quorums, Get(s.shards, id).quorumID)
    ensures DeleteShard(s, id).Ok? && WellFormedExcept(DeleteShard(s, id).value, gone)
    ensures var s' := DeleteShard(s, id).value;
            StructureOf(s') == WithoutShard(StructureOf(s), id)
            && s'.databases == s.databases && SameCounters(s, s')
  {
    hide Linked, Tiled, TableNamesUnique, DatabaseNamesUnique, Below, Unique;
    WithoutShardConsistent(StructureOf(s), id, gone);
    DeleteShardStructure(s, id);
    DeleteShardNumbered(s, id);
  }

  // Table t has lost its shards; everything else is as before.
  predicate Emptied(x: Structure, y: Structure, t: nat) {
    && y.databaseTables == x.databaseTables && y.databaseOf == x.databaseOf
    && y.quorumShards.Keys == x.quorumShards.Keys
    && t in y.tableShards && y.tableShards == x.tableShards[t := []]
    && y.tableOf.Keys <= x.tableOf.Keys
  }

  lemma EmptiedStep(x: Structure, y: Structure, id: nat, t: nat)
    requires id in x.tableOf && x.tableOf[id] == t && t in x.tableShards && id in x.quorumOf && x.quorumOf[id] in x.quorumShards
    requires Emptied(WithoutShard(x, id), y, t)
    ensures Emptied(x, y, t)
  {}

  lemma {:induction false} DeleteShardsOfKeeps(s: State, t: nat, gone: set<nat>)
    requires WellFormedExcept(s, gone) && Has(s.tables, t) && t in gone
    ensures DeleteShardsOf(s, t).Ok? && WellFormedExcept(DeleteShardsOf(s, t).value, gone)
    ensures var s' := DeleteShardsOf(s, t).value;
            Emptied(StructureOf(s), StructureOf(s'), t) && s'.databases == s.databases && SameCounters(s, s')
    decreases |s.shards|
  {
    hide Linked, Tiled, Numbered, TableNamesUnique, DatabaseNamesUnique;
    TableList(StructureOf(s), t);
    var ids := Get(s.tables, t).shards;
    if ids != [] {
      assert ids[0] in StructureOf(s).tableShards[t];
      hide Emptied;
      DeleteShardKeeps(s, ids[0], gone);
      var s1 := DeleteShard(s, ids[0]).value;
      DeleteShardsOfKeeps(s1, t, gone);
      EmptiedStep(StructureOf(s), StructureOf(DeleteShardsOf(s1, t).value), ids[0], t);
    }
  }

  lemma DropTableStructure(s: State, t: nat)
    requires Numbered(s) && TableNamesUnique(AsMap(s.tables)) && Has(s.tables, t)
    ensures var s', x := s.(tables := Drop(s.tables, t)), StructureOf(s);
            Numbered(s') && TableNamesUnique(AsMap(s'.tables))
            && StructureOf(s') == x.(tableShards := x.tableShards - {t}, databaseOf := x.databaseOf - {t})
  {
    hide TableOf, QuorumOf, RangeOf, DatabaseOf, TableShards, QuorumShards, DatabaseTables;
    TableMaps(AsMap(s.tables), t, Get(s.tables, t));
  }

  lemma EraseTableKeeps(s: State, t: nat, gone: set<nat>)
    requires WellFormedExcept(s, gone) && Has(s.tables, t) && t in gone
    ensures EraseTable(s, t).Ok? && WellFormedExcept(EraseTable(s, t).value, gone)
    ensures var s' := EraseTable(s, t).value;
            s'.databases == s.databases && SameCounters(s, s')
            && StructureOf(s').databaseOf == StructureOf(s).databaseOf - {t}
  {
    hide Linked, Tiled, Numbered, TableNamesUnique, DatabaseNamesUnique;
    DeleteShardsOfKeeps(s, t, gone);
    var s1 := DeleteShardsOf(s, t).value;
    WithoutTableConsistent(StructureOf(s1), t, gone);
    DropTableStructure(s1, t);
  }

  lemma {:induction false} EraseTablesKeeps(s: State, ids: seq<nat>, gone: set<nat>)
    requires WellFormedExcept(s, gone) && NoDup(ids)
    requires forall t :: t in ids ==> t in StructureOf(s).databaseOf && t in gone
    ensures EraseTables(s, ids).Ok? && WellFormedExcept(EraseTables(s, ids).value, gone)
    ensures var s' := EraseTables(s, ids).value;
            s'.databases == s.databases && SameCounters(s, s')
            && forall t :: t in StructureOf(s').databaseOf ==> t in StructureOf(s).databaseOf && t !in ids
    decreases |ids|
  {
    hide Linked, Tiled, Numbered, TableNamesUnique, DatabaseNamesUnique;
    if ids != [] {
      EraseTableKeeps(s, ids[0], gone);
      EraseTablesKeeps(EraseTable(s, ids[0]).value, ids[1..], gone);
    }
  }

  lemma GoneGrows(s: State, gone: set<nat>)
    requires WellFormed(s)
    ensures WellFormedExcept(s, gone)
  {
    hide Linked, Numbered, TableNamesUnique, DatabaseNamesUnique;
    Links.GoneGrows(StructureOf(s).databaseOf, StructureOf(s).databaseTables, gone);
  }

  lemma PutDatabaseStructure(s: State, d: nat, tables: seq<nat>)
    requires Numbered(s) && DatabaseNamesUnique(AsMap(s.databases)) && Has(s.databases, d)
    ensures var s' := s.(databases := Put(s.databases, d, Get(s.databases, d).(tables := tables)));
            Numbered(s') && DatabaseNamesUnique(AsMap(s'.databases))
            && StructureOf(s') == StructureOf(s).(databaseTables := StructureOf(s).databaseTables[d := tables])
  {}

  lemma OnDeleteTableKeeps(s: State, t: nat)
    requires WellFormed(s) && Has(s.tables, t)
    ensures OnDeleteTable(s, t).Ok? && WellFormed(OnDeleteTable(s, t).value)
  {
    hide Linked, Tiled, Numbered, TableNamesUnique, DatabaseNamesUnique;
    GoneGrows(s, {t});
    EraseTableKeeps(s, t, {t});
    var s1 := EraseTable(s, t).value;
    assert StructureOf(s1).databaseTables == StructureOf(s).databaseTables;
    UnlistTableConsistent(StructureOf(s), StructureOf(s1), t);
    var d := Get(s.tables, t).databaseID;
    PutDatabaseStructure(s1, d, Remove(Get(s1.databases, d).tables, t));
  }

  lemma DropDatabaseStructure(s: State, d: nat)
    requires Numbered(s) && DatabaseNamesUnique(AsMap(s.databases)) && Has(s.databases, d)
    ensures var s' := s.(databases := Drop(s.databases, d));
            Numbered(s') && DatabaseNamesUnique(AsMap(s'.databases))
            && StructureOf(s') == StructureOf(s).(databaseTables := StructureOf(s).databaseTables - {d})
  {}

  lemma DatabaseList(s: State, d: nat)
    requires WellFormed(s) && Has(s.databases, d)
    ensures NoDup(Get(s.databases, d).tables)
    ensures forall t :: t in Get(s.databases, d).tables ==> t in StructureOf(s).databaseOf
  {
    var x := StructureOf(s);
    assert ListSound(x.databaseOf, x.databaseTables[d], d, {});
  }

  lemma OnDeleteDatabaseKeeps(s: State, d: nat)
    requires WellFormed(s) && Has(s.databases, d)
    ensures OnDeleteDatabase(s, d).Ok? && WellFormed(OnDeleteDatabase(s, d).value)
  {
    hide Linked, Tiled, Numbered, TableNamesUnique, DatabaseNamesUnique;
    var ids := Get(s.databases, d).tables;
    var gone := set t | t in ids;
    DatabaseList(s, d);
    GoneGrows(s, gone);
    EraseTablesKeeps(s, ids, gone);
    var s1 := EraseTables(s, ids).value;
    assert StructureOf(s1).databaseTables == StructureOf(s).databaseTables;
    WithoutDatabaseConsistent(StructureOf(s), StructureOf(s1), d, gone);
    DropDatabaseStructure(s1, d);
  }
}
