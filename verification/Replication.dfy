// What the controllers share: the replicated part of a state, and the proof that applying a log
// entry to it depends on nothing else.

module Replication {
  import opened Bytes
  import opened KeyedLists
  import opened ConfigMessages
  import opened Schema
  import opened SchemaInvariant
  import opened SchemaSteps

  function SharedQuorum(q: Quorum): Quorum {
    NewQuorum.(name := q.name, activeNodes := q.activeNodes, inactiveNodes := q.inactiveNodes, shards := q.shards)
  }

  function SharedShard(sh: Shard): Shard { sh.(shardSize := 0, splitKey := [], isSplitable := false) }

  function SharedServer(v: ShardServer): ShardServer {
    NewShardServer(v.endpoint).(quorumPriorities := v.quorumPriorities)
  }

  // The replicated part: every field only the master keeps has the value a constructor gives it.
  function Shared(s: State): State {
    EmptyState.(
      quorums := MapObj(s.quorums, SharedQuorum),
      databases := s.databases,
      tables := s.tables,
      shards := MapObj(s.shards, SharedShard),
      shardServers := MapObj(s.shardServers, SharedServer),
      nextQuorumID := s.nextQuorumID, nextDatabaseID := s.nextDatabaseID, nextTableID := s.nextTableID,
      nextShardID := s.nextShardID, nextNodeID := s.nextNodeID)
  }

  // What it means to agree on it: the same objects in the same places, with the same replicated fields.
  predicate SameReplicated(s: State, t: State) {
    && s.databases == t.databases && s.tables == t.tables
    && |s.quorums| == |t.quorums| && |s.shards| == |t.shards| && |s.shardServers| == |t.shardServers|
    && (forall i :: 0 <= i < |s.quorums| ==>
          var p, q := s.quorums[i], t.quorums[i];
          p.id == q.id && p.obj.name == q.obj.name && p.obj.activeNodes == q.obj.activeNodes
          && p.obj.inactiveNodes == q.obj.inactiveNodes && p.obj.shards == q.obj.shards)
    && (forall i :: 0 <= i < |s.shards| ==>
          var p, q := s.shards[i], t.shards[i];
          p.id == q.id && p.obj.quorumID == q.obj.quorumID && p.obj.tableID == q.obj.tableID && p.obj.state == q.obj.state
          && p.obj.parentShardID == q.obj.parentShardID && p.obj.firstKey == q.obj.firstKey && p.obj.lastKey == q.obj.lastKey)
    && (forall i :: 0 <= i < |s.shardServers| ==>
          var p, q := s.shardServers[i], t.shardServers[i];
          p.id == q.id && p.obj.endpoint == q.obj.endpoint && p.obj.quorumPriorities == q.obj.quorumPriorities)
    && s.nextQuorumID == t.nextQuorumID && s.nextDatabaseID == t.nextDatabaseID && s.nextTableID == t.nextTableID
    && s.nextShardID == t.nextShardID && s.nextNodeID == t.nextNodeID
  }

  lemma SameImages<T, U>(l: seq<Keyed<T>>, m: seq<Keyed<T>>, f: T -> U)
    ensures MapObj(l, f) == MapObj(m, f) <==> |l| == |m| && forall i :: 0 <= i < |l| ==> l[i].id == m[i].id && f(l[i].obj) == f(m[i].obj)
  {
    if MapObj(l, f) == MapObj(m, f) {
      forall i | 0 <= i < |l| ensures l[i].id == m[i].id && f(l[i].obj) == f(m[i].obj) {
        assert MapObj(l, f)[i] == Keyed(l[i].id, f(l[i].obj)) && MapObj(m, f)[i] == Keyed(m[i].id, f(m[i].obj));
      }
    }
  }

  lemma AgreeMeans(s: State, t: State)
    ensures Shared(s) == Shared(t) <==> SameReplicated(s, t)
  {
    hide MapObj;
    SameImages(s.quorums, t.quorums, SharedQuorum);
    SameImages(s.shards, t.shards, SharedShard);
    SameImages(s.shardServers, t.shardServers, SharedServer);
  }

  // ---- reading the shared part

  lemma SharedLookups(s: State, id: nat)
    ensures var r := Shared(s);
            && (Has(r.quorums, id) <==> Has(s.quorums, id))
            && (Has(s.quorums, id) ==> Get(r.quorums, id) == SharedQuorum(Get(s.quorums, id)))
            && (Has(r.shards, id) <==> Has(s.shards, id))
            && (Has(s.shards, id) ==> Get(r.shards, id) == SharedShard(Get(s.shards, id)))
            && (Has(r.shardServers, id) <==> Has(s.shardServers, id))
            && (Has(s.shardServers, id) ==> Get(r.shardServers, id) == SharedServer(Get(s.shardServers, id)))
  {
    MapObjIndex(s.quorums, SharedQuorum, id);
    MapObjIndex(s.shards, SharedShard, id);
    MapObjIndex(s.shardServers, SharedServer, id);
  }

  lemma {:induction false} SharedQuorumNamed(l: seq<Keyed<Quorum>>, name: bytes)
    ensures QuorumNamed(MapObj(l, SharedQuorum), name) == QuorumNamed(l, name)
  {
    if l != [] {
      SharedQuorumNamed(l[1..], name);
      assert MapObj(l, SharedQuorum)[1..] == MapObj(l[1..], SharedQuorum);
    }
  }

  lemma PutSharedQuorum(s: State, id: nat, q: Quorum)
    requires Has(s.quorums, id)
    ensures Has(Shared(s).quorums, id)
    ensures Shared(PutQuorum(s, id, q)) == PutQuorum(Shared(s), id, SharedQuorum(q))
  {
    MapObjCommutes(s.quorums, SharedQuorum, id, id, q);
  }

  // ---- one lemma for each handler that touches a list with fields of the master

  lemma ServerHandlers(s: State, id: nat, endpoint: bytes, q: nat, priority: nat)
    ensures Shared(OnRegisterShardServer(s, id, endpoint)) == OnRegisterShardServer(Shared(s), id, endpoint)
    ensures Shared(OnUnregisterShardServer(s, id)) == OnUnregisterShardServer(Shared(s), id)
    ensures OnSetPriority(s, q, id, priority).Ok? <==> OnSetPriority(Shared(s), q, id, priority).Ok?
    ensures OnSetPriority(s, q, id, priority).Ok? ==>
              Shared(OnSetPriority(s, q, id, priority).value) == OnSetPriority(Shared(s), q, id, priority).value
  {
    var l, next := s.shardServers, s.nextNodeID;
    MapObjCommutes(l, SharedServer, next, next, NewShardServer(endpoint));
    MapObjCommutes(l, SharedServer, id, id, NewShardServer(endpoint));
    if Has(l, id) {
      MapObjCommutes(l, SharedServer, id, id, Get(l, id).(endpoint := endpoint));
      MapObjCommutes(l, SharedServer, id, id,
                     Get(l, id).(quorumPriorities := WithPriority(Get(l, id).quorumPriorities, q, priority)));
    }
  }

  lemma QuorumHandlers(s: State, id: nat, name: bytes, nodes: seq<nat>)
    ensures Shared(OnCreateQuorum(s, name, nodes)) == OnCreateQuorum(Shared(s), name, nodes)
    ensures OnRenameQuorum(s, id, name).Ok? <==> OnRenameQuorum(Shared(s), id, name).Ok?
    ensures OnRenameQuorum(s, id, name).Ok? ==>
              Shared(OnRenameQuorum(s, id, name).value) == OnRenameQuorum(Shared(s), id, name).value
    ensures OnDeleteQuorum(s, id).Ok? <==> OnDeleteQuorum(Shared(s), id).Ok?
    ensures OnDeleteQuorum(s, id).Ok? ==> Shared(OnDeleteQuorum(s, id).value) == OnDeleteQuorum(Shared(s), id).value
  {
    var n := OnCreateQuorum(s, name, nodes).quorums[|s.quorums|].obj;
    MapObjCommutes(s.quorums, SharedQuorum, s.nextQuorumID, 0, n);
    SharedQuorumNamed(s.quorums, name);
    MapObjCommutes(s.quorums, SharedQuorum, id, 0, NewQuorum);
    if Has(s.quorums, id) { PutSharedQuorum(s, id, Get(s.quorums, id).(name := name)); }
  }

  lemma MemberHandlers(s: State, id: nat, n: nat)
    ensures OnAddNode(s, id, n).Ok? <==> OnAddNode(Shared(s), id, n).Ok?
    ensures OnAddNode(s, id, n).Ok? ==> Shared(OnAddNode(s, id, n).value) == OnAddNode(Shared(s), id, n).value
    ensures OnRemoveNode(s, id, n).Ok? <==> OnRemoveNode(Shared(s), id, n).Ok?
    ensures OnRemoveNode(s, id, n).Ok? ==> Shared(OnRemoveNode(s, id, n).value) == OnRemoveNode(Shared(s), id, n).value
  {
    SharedLookups(s, id);
    if Has(s.quorums, id) {
      var q := Get(s.quorums, id);
      PutSharedQuorum(s, id, q.(inactiveNodes := AddSorted(q.inactiveNodes, n)));
      PutSharedQuorum(s, id, q.(inactiveNodes := Remove(q.inactiveNodes, n)));
      PutSharedQuorum(s, id, q.(activeNodes := Remove(q.activeNodes, n)));
    }
  }

  lemma ActivationHandlers(s: State, id: nat, n: nat)
    ensures OnDeactivateShardServer(s, id, n).Ok? <==> OnDeactivateShardServer(Shared(s), id, n).Ok?
    ensures OnDeactivateShardServer(s, id, n).Ok? ==>
              Shared(OnDeactivateShardServer(s, id, n).value) == OnDeactivateShardServer(Shared(s), id, n).value
    ensures OnActivateShardServer(s, id, n).Ok? ==> OnActivateShardServer(Shared(s), id, n).Ok?
    ensures OnActivateShardServer(s, id, n).Ok? ==>
              Shared(OnActivateShardServer(s, id, n).value) == OnActivateShardServer(Shared(s), id, n).value
  {
    SharedLookups(s, id);
    if Has(s.quorums, id) {
      var q := Get(s.quorums, id);
      PutSharedQuorum(s, id, q.(activeNodes := Remove(q.activeNodes, n), inactiveNodes := AddSorted(q.inactiveNodes, n)));
      var q1 := q.(inactiveNodes := Remove(q.inactiveNodes, n), activeNodes := AddSorted(q.activeNodes, n));
      PutSharedQuorum(s, id, q1);
      PutSharedQuorum(s, id, q1.ClearActivation());
    }
  }

  lemma DeleteShardShared(s: State, id: nat)
    requires Has(s.shards, id)
    ensures Has(Shared(s).shards, id)
    ensures DeleteShard(s, id).Ok? <==> DeleteShard(Shared(s), id).Ok?
    ensures DeleteShard(s, id).Ok? ==> Shared(DeleteShard(s, id).value) == DeleteShard(Shared(s), id).value
  {
    var shard := Get(s.shards, id);
    SharedLookups(s, id);
    SharedLookups(s, shard.quorumID);
    MapObjCommutes(s.shards, SharedShard, id, 0, shard);
    if Has(s.quorums, shard.quorumID) {
      var q := Get(s.quorums, shard.quorumID);
      MapObjCommutes(s.quorums, SharedQuorum, shard.quorumID, 0, q.(shards := Remove(q.shards, id)));
    }
  }

  lemma {:induction false} DeleteShardsOfShared(s: State, t: nat)
    requires Has(s.tables, t)
    ensures DeleteShardsOf(s, t).Ok? <==> DeleteShardsOf(Shared(s), t).Ok?
    ensures DeleteShardsOf(s, t).Ok? ==> Shared(DeleteShardsOf(s, t).value) == DeleteShardsOf(Shared(s), t).value
    decreases |s.shards|
  {
    var ids := Get(s.tables, t).shards;
    if ids != [] {
      SharedLookups(s, ids[0]);
      if Has(s.shards, ids[0]) {
        DeleteShardShared(s, ids[0]);
        if DeleteShard(s, ids[0]).Ok? { DeleteShardsOfShared(DeleteShard(s, ids[0]).value, t); }
      }
    }
  }

  lemma EraseTableShared(s: State, t: nat)
    requires Has(s.tables, t)
    ensures EraseTable(s, t).Ok? <==> EraseTable(Shared(s), t).Ok?
    ensures EraseTable(s, t).Ok? ==> Shared(EraseTable(s, t).value) == EraseTable(Shared(s), t).value
  {
    DeleteShardsOfShared(s, t);
  }

  lemma {:induction false} EraseTablesShared(s: State, ids: seq<nat>)
    ensures EraseTables(s, ids).Ok? <==> EraseTables(Shared(s), ids).Ok?
    ensures EraseTables(s, ids).Ok? ==> Shared(EraseTables(s, ids).value) == EraseTables(Shared(s), ids).value
    decreases |ids|
  {
    if ids != [] && Has(s.tables, ids[0]) {
      EraseTableShared(s, ids[0]);
      if EraseTable(s, ids[0]).Ok? { EraseTablesShared(EraseTable(s, ids[0]).value, ids[1..]); }
    }
  }

  lemma {:induction false} SetFrozenAllShared(s: State, ids: seq<nat>, b: bool)
    ensures SetFrozenAll(s, ids, b).Ok? <==> SetFrozenAll(Shared(s), ids, b).Ok?
    ensures SetFrozenAll(s, ids, b).Ok? ==> Shared(SetFrozenAll(s, ids, b).value) == SetFrozenAll(Shared(s), ids, b).value
    decreases |ids|
  {
    if ids != [] && Has(s.tables, ids[0]) { SetFrozenAllShared(OnSetFrozen(s, ids[0], b).value, ids[1..], b); }
  }

  lemma CreateTableShared(s: State, d: nat, q: nat, name: bytes)
    ensures OnCreateTable(s, d, q, name).Ok? <==> OnCreateTable(Shared(s), d, q, name).Ok?
    ensures OnCreateTable(s, d, q, name).Ok? ==>
              Shared(OnCreateTable(s, d, q, name).value) == OnCreateTable(Shared(s), d, q, name).value
  {
    hide AsMap, IndexOf, TableNamed, AddSorted;
    SharedLookups(s, q);
    if OnCreateTable(s, d, q, name).Ok? {
      var s' := OnCreateTable(s, d, q, name).value;
      MapObjCommutes(s.shards, SharedShard, s.nextShardID, 0, s'.shards[|s.shards|].obj);
      MapObjCommutes(s.quorums, SharedQuorum, q, 0, Get(s'.quorums, q));
    }
  }

  lemma {:induction false} DeletedQuorumShared(s: State, t: nat, q: nat)
    requires Has(s.tables, t)
    ensures DeletedQuorum(Shared(s), t, q) == DeletedQuorum(s, t, q)
    decreases |s.shards|
  {
    var ids := Get(s.tables, t).shards;
    if ids != [] && Has(s.shards, ids[0]) {
      DeleteShardShared(s, ids[0]);
      SharedLookups(s, ids[0]);
      hide DeleteShard, Shared;
      if DeleteShard(s, ids[0]).Ok? {
        DeletedQuorumShared(DeleteShard(s, ids[0]).value, t, Get(s.shards, ids[0]).quorumID);
      }
    }
  }

  lemma AddShardShared(s: State, t: nat, q: nat, shard: Shard)
    requires Has(s.tables, t) && Has(s.quorums, q) && shard == SharedShard(shard)
    ensures Has(Shared(s).quorums, q)
    ensures Shared(AddShard(s, t, q, shard)) == AddShard(Shared(s), t, q, shard)
  {
    SharedLookups(s, q);
    MapObjCommutes(s.shards, SharedShard, s.nextShardID, 0, shard);
    MapObjCommutes(s.quorums, SharedQuorum, q, 0, Get(AddShard(s, t, q, shard).quorums, q));
  }

  lemma TruncateBeginShared(s: State, t: nat)
    ensures OnTruncateTableBegin(s, t).Ok? <==> OnTruncateTableBegin(Shared(s), t).Ok?
    ensures OnTruncateTableBegin(s, t).Ok? ==>
              Shared(OnTruncateTableBegin(s, t).value) == OnTruncateTableBegin(Shared(s), t).value
  {
    if Has(s.tables, t) && Has(s.databases, Get(s.tables, t).databaseID) {
      var q := DeletedQuorum(s, t, 0);
      DeletedQuorumShared(s, t, 0);
      DeleteShardsOfShared(s, t);
      if DeleteShardsOf(s, t).Ok? {
        var s1 := DeleteShardsOf(s, t).value;
        SharedLookups(s1, q);
        if Has(s1.quorums, q) {
          AddShardShared(s1, t, q, Shard(q, t, SHARD_TRUNC_CREATING, 0, [], [], 0, [], false));
        }
      }
    }
  }

  lemma PutShardShared(s: State, id: nat, o: Shard)
    requires Has(s.shards, id)
    ensures Has(Shared(s).shards, id)
    ensures Shared(s.(shards := Put(s.shards, id, o))) == Shared(s).(shards := Put(Shared(s).shards, id, SharedShard(o)))
  {
    MapObjCommutes(s.shards, SharedShard, id, 0, o);
  }

  lemma CompletionsShared(s: State, id: nat)
    ensures OnTruncateTableComplete(s, id).Ok? <==> OnTruncateTableComplete(Shared(s), id).Ok?
    ensures OnTruncateTableComplete(s, id).Ok? ==>
              Shared(OnTruncateTableComplete(s, id).value) == OnTruncateTableComplete(Shared(s), id).value
    ensures OnSplitShardComplete(s, id).Ok? <==> OnSplitShardComplete(Shared(s), id).Ok?
    ensures OnSplitShardComplete(s, id).Ok? ==>
              Shared(OnSplitShardComplete(s, id).value) == OnSplitShardComplete(Shared(s), id).value
  {
    SharedLookups(s, id);
    if Has(s.shards, id) { PutShardShared(s, id, Get(s.shards, id).(state := SHARD_NORMAL)); }
    if Has(s.tables, id) && Get(s.tables, id).shards != [] {
      var first := Get(s.tables, id).shards[0];
      SharedLookups(s, first);
      if Has(s.shards, first) { PutShardShared(s, first, Get(s.shards, first).(state := SHARD_NORMAL)); }
    }
  }

  lemma SplitBeginShared(s: State, id: nat, key: bytes)
    ensures OnSplitShardBegin(s, id, key).Ok? <==> OnSplitShardBegin(Shared(s), id, key).Ok?
    ensures OnSplitShardBegin(s, id, key).Ok? ==>
              Shared(OnSplitShardBegin(s, id, key).value) == OnSplitShardBegin(Shared(s), id, key).value
  {
    SharedLookups(s, id);
    if Has(s.shards, id) {
      var parent := Get(s.shards, id);
      SharedLookups(s, parent.quorumID);
      if OnSplitShardBegin(s, id, key).Ok? {
        var s1 := s.(shards := Put(s.shards, id, parent.(lastKey := key)));
        PutShardShared(s, id, parent.(lastKey := key));
        AddShardShared(s1, parent.tableID, parent.quorumID,
                       Shard(parent.quorumID, parent.tableID, SHARD_SPLIT_CREATING, id, key, parent.lastKey, 0, [], false));
      }
    }
  }

  lemma MigrationCompleteShared(s: State, q: nat, src: nat, dst: nat)
    ensures OnShardMigrationComplete(s, q, src, dst).Ok? <==> OnShardMigrationComplete(Shared(s), q, src, dst).Ok?
    ensures OnShardMigrationComplete(s, q, src, dst).Ok? ==>
              Shared(OnShardMigrationComplete(s, q, src, dst).value) == OnShardMigrationComplete(Shared(s), q, src, dst).value
  {
    SharedLookups(s, src);
    if Has(s.shards, src) {
      var shard := Get(s.shards, src);
      SharedLookups(s, shard.quorumID);
      if Has(s.quorums, shard.quorumID) && Has(s.tables, shard.tableID) {
        var p := Get(s.quorums, shard.quorumID);
        var p' := p.(shards := Remove(p.shards, src));
        MapObjCommutes(s.quorums, SharedQuorum, shard.quorumID, 0, p');
        var qs1 := Put(s.quorums, shard.quorumID, p');
        MapObjCommutes(qs1, SharedQuorum, q, 0, p');
        if Has(qs1, q) {
          MapObjCommutes(qs1, SharedQuorum, q, 0, Get(qs1, q).(shards := AddSorted(Get(qs1, q).shards, dst)));
        }
        MapObjCommutes(s.shards, SharedShard, src, dst, shard.(quorumID := q));
      }
    }
  }

  // ---- all messages

  predicate ClusterMessage(m: Message) {
    m.SetClusterID? || m.RegisterShardServer? || m.UnregisterShardServer? || m.CreateQuorum? || m.RenameQuorum?
    || m.DeleteQuorum? || m.AddShardServerToQuorum? || m.RemoveShardServerFromQuorum? || m.ActivateShardServer?
    || m.DeactivateShardServer? || m.SetPriority?
  }

  lemma ClusterMessageShared(s: State, m: Message)
    requires ClusterMessage(m)
    ensures OnMessage(s, m).Ok? ==> OnMessage(Shared(s), m) == Ok(Shared(OnMessage(s, m).value))
    ensures OnMessage(Shared(s), m).Ok? && (m.ActivateShardServer? ==> Applicable(s, m)) ==> OnMessage(s, m).Ok?
  {
    match m
    case SetClusterID(_) =>
    case RegisterShardServer(nodeID, endpoint) => ServerHandlers(s, nodeID, endpoint, 0, 0);
    case UnregisterShardServer(nodeID) => ServerHandlers(s, nodeID, [], 0, 0);
    case CreateQuorum(name, nodes) => QuorumHandlers(s, 0, name, nodes);
    case RenameQuorum(q, name) => QuorumHandlers(s, q, name, []);
    case DeleteQuorum(q) => QuorumHandlers(s, q, [], []);
    case AddShardServerToQuorum(q, n) => MemberHandlers(s, q, n);
    case RemoveShardServerFromQuorum(q, n) => MemberHandlers(s, q, n);
    case ActivateShardServer(q, n, _) => ActivationHandlers(s, q, n); SharedLookups(s, q);
    case DeactivateShardServer(q, n, _) => ActivationHandlers(s, q, n);
    case SetPriority(q, n, priority) => ServerHandlers(s, n, [], q, priority);
  }

  predicate CatalogMessage(m: Message) {
    m.CreateDatabase? || m.RenameDatabase? || m.DeleteDatabase? || m.CreateTable? || m.RenameTable? || m.DeleteTable?
    || m.FreezeTable? || m.UnfreezeTable? || m.FreezeDatabase? || m.UnfreezeDatabase?
  }

  lemma NameHandlers(s: State, id: nat, name: bytes, b: bool)
    ensures OnCreateDatabase(s, name).Ok? <==> OnCreateDatabase(Shared(s), name).Ok?
    ensures OnCreateDatabase(s, name).Ok? ==> Shared(OnCreateDatabase(s, name).value) == OnCreateDatabase(Shared(s), name).value
    ensures OnRenameDatabase(s, id, name).Ok? <==> OnRenameDatabase(Shared(s), id, name).Ok?
    ensures OnRenameDatabase(s, id, name).Ok? ==>
              Shared(OnRenameDatabase(s, id, name).value) == OnRenameDatabase(Shared(s), id, name).value
    ensures OnRenameTable(s, id, name).Ok? <==> OnRenameTable(Shared(s), id, name).Ok?
    ensures OnRenameTable(s, id, name).Ok? ==> Shared(OnRenameTable(s, id, name).value) == OnRenameTable(Shared(s), id, name).value
    ensures OnSetFrozen(s, id, b).Ok? <==> OnSetFrozen(Shared(s), id, b).Ok?
    ensures OnSetFrozen(s, id, b).Ok? ==> Shared(OnSetFrozen(s, id, b).value) == OnSetFrozen(Shared(s), id, b).value
  {}

  lemma DeleteDatabaseShared(s: State, id: nat)
    ensures OnDeleteDatabase(s, id).Ok? <==> OnDeleteDatabase(Shared(s), id).Ok?
    ensures OnDeleteDatabase(s, id).Ok? ==> Shared(OnDeleteDatabase(s, id).value) == OnDeleteDatabase(Shared(s), id).value
  {
    hide EraseTables;
    if Has(s.databases, id) { EraseTablesShared(s, Get(s.databases, id).tables); }
  }

  lemma DeleteTableShared(s: State, id: nat)
    ensures OnDeleteTable(s, id).Ok? <==> OnDeleteTable(Shared(s), id).Ok?
    ensures OnDeleteTable(s, id).Ok? ==> Shared(OnDeleteTable(s, id).value) == OnDeleteTable(Shared(s), id).value
  {
    hide EraseTable;
    if Has(s.tables, id) { EraseTableShared(s, id); }
  }

  lemma CatalogMessageShared(s: State, m: Message)
    requires CatalogMessage(m)
    ensures OnMessage(s, m).Ok? <==> OnMessage(Shared(s), m).Ok?
    ensures OnMessage(s, m).Ok? ==> OnMessage(Shared(s), m) == Ok(Shared(OnMessage(s, m).value))
  {
    hide Shared, OnCreateDatabase, OnRenameDatabase, OnRenameTable, OnSetFrozen, OnDeleteDatabase, OnDeleteTable, OnCreateTable,
      OnSetDatabaseFrozen;
    match m
    case CreateDatabase(name) => NameHandlers(s, 0, name, true);
    case RenameDatabase(d, name) => NameHandlers(s, d, name, true);
    case DeleteDatabase(d) => DeleteDatabaseShared(s, d);
    case CreateTable(d, q, name) => CreateTableShared(s, d, q, name);
    case RenameTable(t, name) => NameHandlers(s, t, name, true);
    case DeleteTable(t) => DeleteTableShared(s, t);
    case FreezeTable(t) => NameHandlers(s, t, [], true);
    case UnfreezeTable(t) => NameHandlers(s, t, [], false);
    case FreezeDatabase(d) => SetDatabaseFrozenShared(s, d, true);
    case UnfreezeDatabase(d) => SetDatabaseFrozenShared(s, d, false);
  }

  lemma SetDatabaseFrozenShared(s: State, d: nat, b: bool)
    ensures OnSetDatabaseFrozen(s, d, b).Ok? <==> OnSetDatabaseFrozen(Shared(s), d, b).Ok?
    ensures OnSetDatabaseFrozen(s, d, b).Ok? ==>
              Shared(OnSetDatabaseFrozen(s, d, b).value) == OnSetDatabaseFrozen(Shared(s), d, b).value
  {
    if Has(s.databases, d) { SetFrozenAllShared(s, Get(s.databases, d).tables, b); }
  }

  lemma ShardMessageShared(s: State, m: Message)
    requires !ClusterMessage(m) && !CatalogMessage(m)
    ensures OnMessage(s, m).Ok? <==> OnMessage(Shared(s), m).Ok?
    ensures OnMessage(s, m).Ok? ==> OnMessage(Shared(s), m) == Ok(Shared(OnMessage(s, m).value))
  {
    match m
    case TruncateTableBegin(t) => TruncateBeginShared(s, t);
    case TruncateTableComplete(t) => CompletionsShared(s, t);
    case SplitShardBegin(id, key) => SplitBeginShared(s, id, key);
    case SplitShardComplete(id) => CompletionsShared(s, id);
    case ShardMigrationBegin(_, _) =>
    case ShardMigrationComplete(q, src, dst) => MigrationCompleteShared(s, q, src, dst);
  }

  // Main result: an entry has the same effect on the replicated part whatever the other fields
  // hold.  Only the assertion about the activating node, which followers do not have, can stop
  // the master and not a follower.
  lemma OnMessageShared(s: State, m: Message)
    ensures OnMessage(s, m).Ok? ==> OnMessage(Shared(s), m) == Ok(Shared(OnMessage(s, m).value))
    ensures OnMessage(Shared(s), m).Ok? && (m.ActivateShardServer? ==> Applicable(s, m)) ==> OnMessage(s, m).Ok?
  {
    if ClusterMessage(m) { ClusterMessageShared(s, m); }
    else if CatalogMessage(m) { CatalogMessageShared(s, m); }
    else { ShardMessageShared(s, m); }
  }

  // ---- acceptance and well-formedness seen from the replicated part

  lemma SharedQuorumMap(qs: seq<Keyed<Quorum>>)
    ensures QuorumShards(AsMap(MapObj(qs, SharedQuorum))) == QuorumShards(AsMap(qs))
  {
    MapObjMap(qs, SharedQuorum);
  }

  lemma SharedShardMaps(ss: seq<Keyed<Shard>>)
    ensures TableOf(AsMap(MapObj(ss, SharedShard))) == TableOf(AsMap(ss))
    ensures QuorumOf(AsMap(MapObj(ss, SharedShard))) == QuorumOf(AsMap(ss))
    ensures RangeOf(AsMap(MapObj(ss, SharedShard))) == RangeOf(AsMap(ss))
  {
    hide AsMap, MapObj;
    MapObjMap(ss, SharedShard);
  }

  lemma StructureShared(s: State)
    ensures StructureOf(Shared(s)) == StructureOf(s)
  {
    SharedQuorumMap(s.quorums);
    SharedShardMaps(s.shards);
    hide QuorumShards, TableOf, QuorumOf, RangeOf, DatabaseOf, TableShards, DatabaseTables;
  }

  lemma NumberedShared(s: State)
    ensures Numbered(Shared(s)) <==> Numbered(s)
  {
    MapObjMap(s.quorums, SharedQuorum);
    MapObjMap(s.shards, SharedShard);
    MapObjMap(s.shardServers, SharedServer);
    hide Unique;
    var r := Shared(s);
    assert AsMap(r.quorums).Keys == AsMap(s.quorums).Keys;
    assert AsMap(r.shards).Keys == AsMap(s.shards).Keys;
    assert AsMap(r.shardServers).Keys == AsMap(s.shardServers).Keys;
  }

  lemma WellFormedShared(s: State)
    ensures WellFormed(Shared(s)) <==> WellFormed(s)
  {
    hide Consistent, Numbered;
    StructureShared(s);
    NumberedShared(s);
  }
}
