// What each kind of log entry does, stated on the states before and after it and not on its handler:
// which one object changes, in which fields, and that nothing else does.

module EntryEffects {
  import opened Bytes
  import opened KeyedLists
  import opened ConfigMessages
  import opened Schema
  import opened SchemaInvariant
  import opened PrimaryLeases
  import opened Effects
  import opened CatalogEffects
  import opened Membership

  // The same list but for the object of one number.
  predicate Elsewhere<T(==)>(l: seq<Keyed<T>>, l': seq<Keyed<T>>, id: nat) {
    |l'| == |l| && forall i :: 0 <= i < |l| ==> l'[i].id == l[i].id && (l[i].id != id ==> l'[i] == l[i])
  }

  // One object of the list, replaced.
  predicate Replaced<T(==)>(l: seq<Keyed<T>>, l': seq<Keyed<T>>, id: nat, o: T) {
    Has(l, id) && Has(l', id) && Elsewhere(l, l', id) && Get(l', id) == o
  }

  lemma PutReplaces<T>(l: seq<Keyed<T>>, id: nat, o: T)
    requires Has(l, id)
    ensures Replaced(l, Put(l, id, o), id, o)
  {}

  // ---- members of a quorum

  lemma {:induction false} AddedCopies(l: seq<nat>, x: nat)
    ensures multiset(AddSorted(l, x)) == multiset(l) + multiset{x}
  {
    if l != [] && x >= l[0] {
      AddedCopies(l[1..], x);
      assert l == [l[0]] + l[1..];
    }
  }

  lemma {:induction false} RemovedCopies(l: seq<nat>, x: nat)
    ensures multiset(Remove(l, x)) == multiset(l) - multiset{x}
  {
    if l != [] {
      assert l == [l[0]] + l[1..];
      if l[0] != x { RemovedCopies(l[1..], x); }
    }
  }

  // A quorum after a change of its lists of nodes and of nothing else.
  predicate Relisted(s: State, s': State, id: nat) {
    Has(s.quorums, id) && Has(s'.quorums, id) && s' == s.(quorums := s'.quorums) &&
    var q, q' := Get(s.quorums, id), Get(s'.quorums, id);
    Replaced(s.quorums, s'.quorums, id, q.(activeNodes := q'.activeNodes, inactiveNodes := q'.inactiveNodes))
  }

  lemma DispatchedMembers(s: State, id: nat, n: nat, force: bool)
    ensures OnMessage(s, AddShardServerToQuorum(id, n)) == OnAddNode(s, id, n)
    ensures OnMessage(s, RemoveShardServerFromQuorum(id, n)) == OnRemoveNode(s, id, n)
    ensures OnMessage(s, ActivateShardServer(id, n, force)) == OnActivateShardServer(s, id, n)
    ensures OnMessage(s, DeactivateShardServer(id, n, force)) == OnDeactivateShardServer(s, id, n)
  {
    hide OnAddNode, OnRemoveNode, OnActivateShardServer, OnDeactivateShardServer;
  }

  lemma AddEntry(s: State, id: nat, n: nat)
    requires OnMessage(s, AddShardServerToQuorum(id, n)).Ok?
    ensures var s' := OnMessage(s, AddShardServerToQuorum(id, n)).value;
            Relisted(s, s', id) &&
            var q, q' := Get(s.quorums, id), Get(s'.quorums, id);
            n !in q.activeNodes && n !in q.inactiveNodes
            && q'.activeNodes == q.activeNodes && multiset(q'.inactiveNodes) == multiset(q.inactiveNodes) + multiset{n}
  {
    hide OnMessage, AsMap, IndexOf, Remove, AddSorted;
    DispatchedMembers(s, id, n, false);
    var q := Get(s.quorums, id);
    AddedCopies(q.inactiveNodes, n);
    PutReplaces(s.quorums, id, q.(inactiveNodes := AddSorted(q.inactiveNodes, n)));
  }

  lemma RemoveEntry(s: State, id: nat, n: nat)
    requires OnMessage(s, RemoveShardServerFromQuorum(id, n)).Ok?
    ensures var s' := OnMessage(s, RemoveShardServerFromQuorum(id, n)).value;
            Relisted(s, s', id) &&
            var q, q' := Get(s.quorums, id), Get(s'.quorums, id);
            if n in q.activeNodes then
              multiset(q'.activeNodes) == multiset(q.activeNodes) - multiset{n} && q'.inactiveNodes == q.inactiveNodes
            else
              n in q.inactiveNodes && q'.activeNodes == q.activeNodes
              && multiset(q'.inactiveNodes) == multiset(q.inactiveNodes) - multiset{n}
  {
    hide OnMessage, AsMap, IndexOf, Remove, AddSorted;
    DispatchedMembers(s, id, n, false);
    var q := Get(s.quorums, id);
    RemovedCopies(q.activeNodes, n);
    RemovedCopies(q.inactiveNodes, n);
    PutReplaces(s.quorums, id, q.(activeNodes := Remove(q.activeNodes, n)));
    PutReplaces(s.quorums, id, q.(inactiveNodes := Remove(q.inactiveNodes, n)));
  }

  // The end of an activation also takes its marks away; it has none if it was forced.
  lemma ActivateEntry(s: State, id: nat, n: nat, force: bool)
    requires OnMessage(s, ActivateShardServer(id, n, force)).Ok?
    ensures var s' := OnMessage(s, ActivateShardServer(id, n, force)).value;
            Has(s.quorums, id) && Has(s'.quorums, id) && s' == s.(quorums := s'.quorums) &&
            var q, q' := Get(s.quorums, id), Get(s'.quorums, id);
            && Elsewhere(s.quorums, s'.quorums, id) && n in q.inactiveNodes
            && multiset(q'.activeNodes) == multiset(q.activeNodes) + multiset{n}
            && multiset(q'.inactiveNodes) == multiset(q.inactiveNodes) - multiset{n}
            && var q1 := q.(activeNodes := q'.activeNodes, inactiveNodes := q'.inactiveNodes);
               q' == if q.isActivatingNode then
                       q1.(isActivatingNode := false, isWatchingPaxosID := false, isReplicatingActivation := false,
                           activatingNodeID := 0, activationPaxosID := 0, activationExpireTime := 0)
                     else q1
  {
    hide OnMessage, AsMap, IndexOf, Remove, AddSorted;
    DispatchedMembers(s, id, n, force);
    var q := Get(s.quorums, id);
    AddedCopies(q.activeNodes, n);
    RemovedCopies(q.inactiveNodes, n);
    var q1 := q.(inactiveNodes := Remove(q.inactiveNodes, n), activeNodes := AddSorted(q.activeNodes, n));
    PutReplaces(s.quorums, id, q1);
    PutReplaces(s.quorums, id, q1.ClearActivation());
  }

  lemma DeactivateEntry(s: State, id: nat, n: nat, force: bool)
    requires OnMessage(s, DeactivateShardServer(id, n, force)).Ok?
    ensures var s' := OnMessage(s, DeactivateShardServer(id, n, force)).value;
            Relisted(s, s', id) &&
            var q, q' := Get(s.quorums, id), Get(s'.quorums, id);
            && n in q.activeNodes && multiset(q'.activeNodes) == multiset(q.activeNodes) - multiset{n}
            && multiset(q'.inactiveNodes) == multiset(q.inactiveNodes) + multiset{n}
  {
    hide OnMessage, AsMap, IndexOf, Remove, AddSorted;
    DispatchedMembers(s, id, n, force);
    var q := Get(s.quorums, id);
    RemovedCopies(q.activeNodes, n);
    AddedCopies(q.inactiveNodes, n);
    PutReplaces(s.quorums, id, q.(activeNodes := Remove(q.activeNodes, n), inactiveNodes := AddSorted(q.inactiveNodes, n)));
  }

  lemma {:induction false} OnceListed(l: seq<nat>, x: nat)
    requires NoDup(l)
    ensures multiset(l)[x] == if x in l then 1 else 0
  {
    if l != [] {
      OnceListed(l[1..], x);
      assert l == [l[0]] + l[1..];
    }
  }

  // Where members are sound, the node is afterwards in exactly the list that the entry names, or in
  // none, and every other node is where it was.
  lemma NodePlaced(s: State, m: Message, x: nat)
    requires m.AddShardServerToQuorum? || m.RemoveShardServerFromQuorum? || m.ActivateShardServer? || m.DeactivateShardServer?
    requires MembersSound(s) && OnMessage(s, m).Ok?
    ensures var s' := OnMessage(s, m).value;
            Has(s.quorums, m.quorumID) && Has(s'.quorums, m.quorumID) && Elsewhere(s.quorums, s'.quorums, m.quorumID) &&
            var q, q' := Get(s.quorums, m.quorumID), Get(s'.quorums, m.quorumID);
            && (x in q'.activeNodes <==> if x == m.nodeID then m.ActivateShardServer? else x in q.activeNodes)
            && (x in q'.inactiveNodes <==>
                  if x == m.nodeID then m.AddShardServerToQuorum? || m.DeactivateShardServer? else x in q.inactiveNodes)
  {
    hide OnMessage, AsMap, IndexOf, NoDup, Sorted, MembersSound, Elsewhere;
    if m.AddShardServerToQuorum? { AddEntry(s, m.quorumID, m.nodeID); }
    if m.RemoveShardServerFromQuorum? { RemoveEntry(s, m.quorumID, m.nodeID); }
    if m.ActivateShardServer? { ActivateEntry(s, m.quorumID, m.nodeID, m.force); }
    if m.DeactivateShardServer? { DeactivateEntry(s, m.quorumID, m.nodeID, m.force); }
    var s' := OnMessage(s, m).value;
    var q, q' := Get(s.quorums, m.quorumID), Get(s'.quorums, m.quorumID);
    SoundQuorum(s, m.quorumID);
    OnceListed(q.activeNodes, m.nodeID);
    OnceListed(q.inactiveNodes, m.nodeID);
    Counted(q.activeNodes, q'.activeNodes, x);
    Counted(q.inactiveNodes, q'.inactiveNodes, x);
  }

  lemma SoundQuorum(s: State, id: nat)
    requires MembersSound(s) && Has(s.quorums, id)
    ensures var q := Get(s.quorums, id);
            NoDup(q.activeNodes) && NoDup(q.inactiveNodes) && forall n :: n in q.activeNodes ==> n !in q.inactiveNodes
  {}

  lemma Counted(l: seq<nat>, l': seq<nat>, x: nat)
    ensures (x in l <==> multiset(l)[x] > 0) && (x in l' <==> multiset(l')[x] > 0)
  {}

  // ---- quorums

  // A new quorum has the nodes of the message as its active nodes, each as often as it was named.
  lemma {:induction false} AllAdded(l: seq<nat>, xs: seq<nat>)
    ensures multiset(AddAll(l, xs)) == multiset(l) + multiset(xs)
    decreases |xs|
  {
    if xs != [] {
      AddedCopies(l, xs[0]);
      AllAdded(AddSorted(l, xs[0]), xs[1..]);
      assert xs == [xs[0]] + xs[1..];
    }
  }

  lemma CreateQuorumEntry(s: State, name: bytes, nodes: seq<nat>)
    requires !Has(s.quorums, s.nextQuorumID)
    ensures OnMessage(s, CreateQuorum(name, nodes)).Ok?
    ensures var s', id := OnMessage(s, CreateQuorum(name, nodes)).value, s.nextQuorumID;
            s' == s.(quorums := s'.quorums, nextQuorumID := id + 1) && Has(s'.quorums, id) &&
            var q := Get(s'.quorums, id);
            && AsMap(s'.quorums) == AsMap(s.quorums)[id := q]
            && q.name == (if name != [] then name else DefaultQuorumName(id))
            && multiset(q.activeNodes) == multiset(nodes)
            && q == Quorum(q.name, q.activeNodes, [], [], false, false, false, 0, 0, 0, 0, false, 0, 0)
  {
    AllAdded([], nodes);
  }

  lemma DeleteQuorumEntry(s: State, id: nat)
    requires Unique(s.quorums) && OnMessage(s, DeleteQuorum(id)).Ok?
    ensures var s' := OnMessage(s, DeleteQuorum(id)).value;
            s' == s.(quorums := s'.quorums) && Has(s.quorums, id) && AsMap(s'.quorums) == AsMap(s.quorums) - {id}
  {}

  // After a rename the object is found under its new name.
  lemma RenameQuorumEntry(s: State, id: nat, name: bytes)
    requires OnMessage(s, RenameQuorum(id, name)).Ok?
    ensures var s' := OnMessage(s, RenameQuorum(id, name)).value;
            && s' == s.(quorums := s'.quorums) && Has(s.quorums, id)
            && Replaced(s.quorums, s'.quorums, id, Get(s.quorums, id).(name := name))
            && var i := QuorumNamed(s'.quorums, name); i < |s'.quorums| && s'.quorums[i].id == id
  {
    hide AsMap;
    var q := Get(s.quorums, id).(name := name);
    PutReplaces(s.quorums, id, q);
    var l, l' := s.quorums, Put(s.quorums, id, q);
    assert l'[IndexOf(l, id)].obj.name == name;
    assert forall j :: 0 <= j < |l| ==> l[j].obj.name != name && (l'[j] == l[j] || l'[j].id == id);
  }

  // ---- shard servers

  // A node that is known gets a new endpoint, any other becomes a new server.
  lemma RegisterEntry(s: State, n: nat, endpoint: bytes)
    requires !Has(s.shardServers, s.nextNodeID)
    ensures OnMessage(s, RegisterShardServer(n, endpoint)).Ok?
    ensures var s' := OnMessage(s, RegisterShardServer(n, endpoint)).value;
            if Has(s.shardServers, n) then
              s' == s.(shardServers := s'.shardServers)
              && Replaced(s.shardServers, s'.shardServers, n, Get(s.shardServers, n).(endpoint := endpoint))
            else
              s' == s.(shardServers := s'.shardServers, nextNodeID := s.nextNodeID + 1)
              && AsMap(s'.shardServers) == AsMap(s.shardServers)[s.nextNodeID := ShardServer(endpoint, [], 0, 0, [], 0, 0, false)]
  {
    hide AsMap;
    if Has(s.shardServers, n) { PutReplaces(s.shardServers, n, Get(s.shardServers, n).(endpoint := endpoint)); }
  }

  lemma UnregisterEntry(s: State, n: nat)
    requires Unique(s.shardServers)
    ensures OnMessage(s, UnregisterShardServer(n)).Ok?
    ensures var s' := OnMessage(s, UnregisterShardServer(n)).value;
            s' == s.(shardServers := s'.shardServers) && AsMap(s'.shardServers) == AsMap(s.shardServers) - {n}
  {}

  // The priority set is the one that the server now has for the quorum; all its others stay.
  lemma SetPriorityEntry(s: State, id: nat, n: nat, priority: nat, other: nat)
    requires OnMessage(s, SetPriority(id, n, priority)).Ok?
    ensures var s' := OnMessage(s, SetPriority(id, n, priority)).value;
            s' == s.(shardServers := s'.shardServers) && Has(s.shardServers, n) && Has(s'.shardServers, n) &&
            var v, v' := Get(s.shardServers, n), Get(s'.shardServers, n);
            && Replaced(s.shardServers, s'.shardServers, n, v.(quorumPriorities := v'.quorumPriorities))
            && PriorityOf(v'.quorumPriorities, other) == if other == id then priority else PriorityOf(v.quorumPriorities, other)
  {
    hide AsMap;
    var v := Get(s.shardServers, n);
    PriorityIsFound(v.quorumPriorities, id, priority, other);
    PutReplaces(s.shardServers, n, v.(quorumPriorities := WithPriority(v.quorumPriorities, id, priority)));
  }

  // ---- databases and tables

  lemma CreateDatabaseEntry(s: State, name: bytes)
    requires !Has(s.databases, s.nextDatabaseID) && OnMessage(s, CreateDatabase(name)).Ok?
    ensures var s', id := OnMessage(s, CreateDatabase(name)).value, s.nextDatabaseID;
            s' == s.(databases := s'.databases, nextDatabaseID := id + 1)
            && AsMap(s'.databases) == AsMap(s.databases)[id := Database(name, [])]
  {}

  lemma DispatchedNames(s: State, id: nat, name: bytes)
    ensures OnMessage(s, RenameDatabase(id, name)) == OnRenameDatabase(s, id, name)
    ensures OnMessage(s, RenameTable(id, name)) == OnRenameTable(s, id, name)
    ensures OnMessage(s, FreezeTable(id)) == OnSetFrozen(s, id, true)
    ensures OnMessage(s, UnfreezeTable(id)) == OnSetFrozen(s, id, false)
  {
    hide OnRenameDatabase, OnRenameTable, OnSetFrozen;
  }

  lemma RenameDatabaseEntry(s: State, id: nat, name: bytes)
    requires Unique(s.databases) && OnMessage(s, RenameDatabase(id, name)).Ok?
    requires DatabaseNamesUnique(AsMap(s.databases))
    ensures var s' := OnMessage(s, RenameDatabase(id, name)).value;
            && s' == s.(databases := s'.databases) && Has(s.databases, id)
            && Replaced(s.databases, s'.databases, id, Get(s.databases, id).(name := name))
            && var i := DatabaseNamed(s'.databases, name); i < |s'.databases| && s'.databases[i].id == id
  {
    hide OnMessage;
    DispatchedNames(s, id, name);
    var o := Get(s.databases, id).(name := name);
    PutReplaces(s.databases, id, o);
    var l, l' := s.databases, Put(s.databases, id, o);
    OnlyDatabase(l, id, name);
    assert l'[IndexOf(l, id)].obj.name == name;
    assert forall j :: 0 <= j < |l| ==> l'[j] == l[j] || l'[j].id == id;
  }

  // The name that a database may take is no other's.
  lemma OnlyDatabase(l: seq<Keyed<Database>>, id: nat, name: bytes)
    requires Unique(l) && DatabaseNamesUnique(AsMap(l))
    requires DatabaseNamed(l, name) < |l| ==> l[DatabaseNamed(l, name)].id == id
    ensures forall j :: 0 <= j < |l| && l[j].obj.name == name ==> l[j].id == id
  {
    var k := DatabaseNamed(l, name);
    forall j | 0 <= j < |l| && l[j].obj.name == name ensures l[j].id == id {
      InMap(l, j);
      InMap(l, k);
    }
  }

  lemma OnlyTable(l: seq<Keyed<Table>>, id: nat, d: nat, name: bytes)
    requires Unique(l) && TableNamesUnique(AsMap(l))
    requires TableNamed(l, d, name) < |l| ==> l[TableNamed(l, d, name)].id == id
    ensures forall j :: 0 <= j < |l| && l[j].obj.databaseID == d && l[j].obj.name == name ==> l[j].id == id
  {
    var k := TableNamed(l, d, name);
    forall j | 0 <= j < |l| && l[j].obj.databaseID == d && l[j].obj.name == name ensures l[j].id == id {
      InMap(l, j);
      InMap(l, k);
    }
  }

  lemma RenameTableEntry(s: State, id: nat, name: bytes)
    requires Unique(s.tables) && OnMessage(s, RenameTable(id, name)).Ok?
    requires TableNamesUnique(AsMap(s.tables))
    ensures var s' := OnMessage(s, RenameTable(id, name)).value;
            && s' == s.(tables := s'.tables) && Has(s.tables, id)
            && Replaced(s.tables, s'.tables, id, Get(s.tables, id).(name := name))
            && var i := TableNamed(s'.tables, Get(s.tables, id).databaseID, name); i < |s'.tables| && s'.tables[i].id == id
  {
    hide OnMessage;
    DispatchedNames(s, id, name);
    var o := Get(s.tables, id).(name := name);
    PutReplaces(s.tables, id, o);
    var l, l', d := s.tables, Put(s.tables, id, o), o.databaseID;
    OnlyTable(l, id, d, name);
    assert l'[IndexOf(l, id)].obj == o;
    assert forall j :: 0 <= j < |l| ==> l'[j] == l[j] || l'[j].id == id;
  }

  lemma FreezeTableEntry(s: State, id: nat)
    requires Has(s.tables, id)
    ensures OnMessage(s, FreezeTable(id)).Ok? && OnMessage(s, UnfreezeTable(id)).Ok?
    ensures var s' := OnMessage(s, FreezeTable(id)).value;
            s' == s.(tables := s'.tables) && Replaced(s.tables, s'.tables, id, Get(s.tables, id).(isFrozen := true))
    ensures var s' := OnMessage(s, UnfreezeTable(id)).value;
            s' == s.(tables := s'.tables) && Replaced(s.tables, s'.tables, id, Get(s.tables, id).(isFrozen := false))
  {
    hide OnMessage, AsMap;
    DispatchedNames(s, id, []);
    PutReplaces(s.tables, id, Get(s.tables, id).(isFrozen := true));
    PutReplaces(s.tables, id, Get(s.tables, id).(isFrozen := false));
  }

  // Exactly the tables of the database get the flag.
  lemma FreezeDatabaseEntry(s: State, d: nat, frozen: bool)
    requires WellFormed(s) && Has(s.databases, d)
    ensures var m := if frozen then FreezeDatabase(d) else UnfreezeDatabase(d);
            OnMessage(s, m).Ok? &&
            var s' := OnMessage(s, m).value;
            s' == s.(tables := s'.tables) && AsMap(s'.tables).Keys == AsMap(s.tables).Keys
            && forall t :: t in AsMap(s.tables) ==>
                 var o := AsMap(s.tables)[t];
                 AsMap(s'.tables)[t] == if o.databaseID == d then o.(isFrozen := frozen) else o
  {
    hide WellFormed, OnMessage, OnSetDatabaseFrozen, AsMap;
    DispatchedTables(s, d, 0, []);
    FreezeDatabaseFreezes(s, d, frozen);
  }

  // Which handler an entry about tables and shards goes to.
  lemma DispatchedTables(s: State, a: nat, b: nat, name: bytes)
    ensures OnMessage(s, CreateTable(a, b, name)) == OnCreateTable(s, a, b, name)
    ensures OnMessage(s, DeleteTable(a)) == OnDeleteTable(s, a) && OnMessage(s, DeleteDatabase(a)) == OnDeleteDatabase(s, a)
    ensures OnMessage(s, FreezeDatabase(a)) == OnSetDatabaseFrozen(s, a, true)
    ensures OnMessage(s, UnfreezeDatabase(a)) == OnSetDatabaseFrozen(s, a, false)
  {
    hide OnCreateTable, OnDeleteTable, OnDeleteDatabase, OnSetDatabaseFrozen;
  }

  lemma DispatchedShards(s: State, a: nat, b: nat, c: nat, key: bytes)
    ensures OnMessage(s, TruncateTableBegin(a)) == OnTruncateTableBegin(s, a)
    ensures OnMessage(s, SplitShardBegin(a, key)) == OnSplitShardBegin(s, a, key)
    ensures OnMessage(s, ShardMigrationComplete(a, b, c)) == OnShardMigrationComplete(s, a, b, c)
  {
    hide OnTruncateTableBegin, OnSplitShardBegin, OnShardMigrationComplete;
  }

  // A new table has one shard, of all keys, which its quorum keeps.
  lemma CreateTableEntry(s: State, d: nat, q: nat, name: bytes)
    requires WellFormed(s) && CompleteMessage(s, CreateTable(d, q, name)).Accepted?
    ensures OnMessage(s, CreateTable(d, q, name)).Ok?
    ensures var s', t, id := OnMessage(s, CreateTable(d, q, name)).value, s.nextTableID, s.nextShardID;
            && s'.nextTableID == t + 1 && s'.nextShardID == id + 1 && t !in AsMap(s.tables) && id !in AsMap(s.shards)
            && AsMap(s'.tables) == AsMap(s.tables)[t := Table(d, name, false, [id])]
            && AsMap(s'.shards) == AsMap(s.shards)[id := Shard(q, t, SHARD_NORMAL, 0, [], [], 0, [], false)]
  {
    hide WellFormed, CompleteMessage, OnMessage, AsMap, TableNamed;
    DispatchedTables(s, d, q, name);
    CreateMaps(s, d, q, name);
  }

  // A deleted table takes its shards with it and nothing else; so does a database with its tables.
  lemma DeleteEntries(s: State, id: nat)
    requires WellFormed(s)
    ensures Has(s.tables, id) ==>
              OnMessage(s, DeleteTable(id)).Ok? && Erased(s, OnMessage(s, DeleteTable(id)).value, {id})
    ensures Has(s.databases, id) ==>
              OnMessage(s, DeleteDatabase(id)).Ok? && Erased(s, OnMessage(s, DeleteDatabase(id)).value, TablesIn(s, id))
              && AsMap(OnMessage(s, DeleteDatabase(id)).value.databases) == AsMap(s.databases) - {id}
  {
    hide WellFormed, OnMessage, OnDeleteTable, OnDeleteDatabase, Erased, AsMap, TablesIn;
    DispatchedTables(s, id, 0, []);
    if Has(s.tables, id) { DeleteTableErases(s, id); }
    if Has(s.databases, id) { DeleteDatabaseErases(s, id); }
  }

  // ---- shards

  // All shards of the table go, and a new one takes their place.
  lemma TruncateBeginEntry(s: State, t: nat)
    requires WellFormed(s) && Has(s.tables, t)
    ensures OnMessage(s, TruncateTableBegin(t)).Ok? && Get(s.tables, t).shards != []
    ensures var s', ids, id := OnMessage(s, TruncateTableBegin(t)).value, Get(s.tables, t).shards, s.nextShardID;
            Has(s.shards, ids[|ids| - 1]) && id in AsMap(s'.shards) && id !in AsMap(s.shards)
            && AsMap(s'.tables) == AsMap(s.tables)[t := Get(s.tables, t).(shards := [id])]
            && AsMap(s'.shards)[id] == Shard(Get(s.shards, ids[|ids| - 1]).quorumID, t, SHARD_TRUNC_CREATING, 0, [], [], 0, [], false)
            && ErasedShards(AsMap(s.shards), AsMap(s'.shards) - {id}, {t})
  {
    hide WellFormed, OnMessage, OnTruncateTableBegin, ErasedShards, AsMap;
    DispatchedShards(s, t, 0, 0, []);
    TruncateMaps(s, t);
  }

  // The end of a truncation or of a split settles the shard and changes nothing else.
  lemma TruncateEndEntry(s: State, t: nat)
    requires OnMessage(s, TruncateTableComplete(t)).Ok?
    ensures var s' := OnMessage(s, TruncateTableComplete(t)).value;
            s' == s.(shards := s'.shards) && Has(s.tables, t) && Get(s.tables, t).shards != [] &&
            var x := Get(s.tables, t).shards[0];
            Has(s.shards, x) && Get(s.shards, x).state == SHARD_TRUNC_CREATING
            && Replaced(s.shards, s'.shards, x, Get(s.shards, x).(state := SHARD_NORMAL))
  {
    hide AsMap, IndexOf;
    var x := Get(s.tables, t).shards[0];
    PutReplaces(s.shards, x, Get(s.shards, x).(state := SHARD_NORMAL));
  }

  lemma SplitEndEntry(s: State, id: nat)
    requires OnMessage(s, SplitShardComplete(id)).Ok?
    ensures var s' := OnMessage(s, SplitShardComplete(id)).value;
            s' == s.(shards := s'.shards) && Has(s.shards, id)
            && Replaced(s.shards, s'.shards, id, Get(s.shards, id).(state := SHARD_NORMAL))
  {
    hide AsMap, IndexOf;
    PutReplaces(s.shards, id, Get(s.shards, id).(state := SHARD_NORMAL));
  }

  // A split cuts the range of the shard at the key; the new shard gets the upper part.
  lemma SplitBeginEntry(s: State, id: nat, key: bytes)
    requires WellFormed(s) && CompleteSplitShardBegin(s, id, key).Accepted?
    ensures OnMessage(s, SplitShardBegin(id, key)).Ok?
    ensures var s', parent, new' := OnMessage(s, SplitShardBegin(id, key)).value, Get(s.shards, id), s.nextShardID;
            var t := parent.tableID;
            && s'.nextShardID == new' + 1 && new' !in AsMap(s.shards) && Has(s.tables, t)
            && AsMap(s'.shards) == AsMap(s.shards)[id := parent.(lastKey := key)]
                 [new' := Shard(parent.quorumID, t, SHARD_SPLIT_CREATING, id, key, parent.lastKey, 0, [], false)]
            && AsMap(s'.tables) == AsMap(s.tables)[t := Get(s.tables, t).(shards := Get(s.tables, t).shards + [new'])]
  {
    hide WellFormed, OnMessage, CompleteSplitShardBegin, AsMap;
    DispatchedShards(s, id, 0, 0, key);
    SplitMaps(s, id, key);
  }

  // A migrated shard has a new number and a new quorum and keeps its table and its range.
  lemma MigrationEndEntry(s: State, q: nat, src: nat, dst: nat)
    requires WellFormed(s) && Has(s.shards, src) && Has(s.quorums, q) && !Has(s.shards, dst)
    ensures OnMessage(s, ShardMigrationComplete(q, src, dst)).Ok?
    ensures var s', shard := OnMessage(s, ShardMigrationComplete(q, src, dst)).value, Get(s.shards, src);
            var t := shard.tableID;
            && AsMap(s'.shards) == (AsMap(s.shards) - {src})[dst := shard.(quorumID := q)] && Has(s.tables, t)
            && AsMap(s'.tables) == AsMap(s.tables)[t := Get(s.tables, t).(shards := Remove(Get(s.tables, t).shards, src) + [dst])]
  {
    hide WellFormed, OnMessage, OnShardMigrationComplete, AsMap, Remove;
    DispatchedShards(s, q, src, dst, []);
    MigrationMaps(s, q, src, dst);
  }

  // ---- what entries about tables and shards leave alone

  // The noted migration is given up exactly if its source is deleted.
  predicate MigrationAfter(s: State, s': State) {
    var gone := s.isMigrating && Has(s.shards, s.migrateSrcShardID) && !Has(s'.shards, s.migrateSrcShardID);
    s'.isMigrating == (s.isMigrating && !gone)
    && s'.migrateQuorumID == (if gone then 0 else s.migrateQuorumID)
    && s'.migrateSrcShardID == (if gone then 0 else s.migrateSrcShardID)
    && s'.migrateDstShardID == (if gone then 0 else s.migrateDstShardID)
  }

  predicate QuorumsKept(qs: map<nat, Quorum>, qs': map<nat, Quorum>) {
    qs'.Keys == qs.Keys && forall q :: q in qs ==> qs'[q] == qs[q].(shards := qs'[q].shards)
  }

  // Quorums keep everything but their shards and databases everything but their tables.
  predicate KeepParents(s: State, s': State) {
    && QuorumsKept(AsMap(s.quorums), AsMap(s'.quorums))
    && (forall d :: d in AsMap(s'.databases) ==>
          d in AsMap(s.databases) && AsMap(s'.databases)[d] == AsMap(s.databases)[d].(tables := AsMap(s'.databases)[d].tables))
  }

  // Besides tables, shards, their lists and counters, and the noted migration, nothing changes.
  predicate KeepRest(s: State, s': State) {
    s' == s.(quorums := s'.quorums, databases := s'.databases, tables := s'.tables, shards := s'.shards,
             nextTableID := s'.nextTableID, nextShardID := s'.nextShardID, isMigrating := s'.isMigrating,
             migrateQuorumID := s'.migrateQuorumID, migrateSrcShardID := s'.migrateSrcShardID, migrateDstShardID := s'.migrateDstShardID)
  }

  predicate Deleted(s: State, s': State) {
    KeepRest(s, s') && KeepParents(s, s') && MigrationAfter(s, s') && s'.databases == s.databases
    && s'.nextTableID == s.nextTableID && s'.nextShardID == s.nextShardID
    && (Unique(s.shards) ==> Unique(s'.shards)) && AsMap(s'.shards).Keys <= AsMap(s.shards).Keys
  }

  lemma DeletedNothing(s: State)
    ensures Deleted(s, s)
  {}

  lemma DeletedTwice(s: State, s': State, s'': State)
    requires Deleted(s, s') && Deleted(s', s'')
    ensures Deleted(s, s'')
  {
    hide Unique, AsMap, IndexOf;
  }

  lemma DeleteShardParents(s: State, id: nat)
    requires Has(s.shards, id) && DeleteShard(s, id).Ok?
    ensures KeepRest(s, DeleteShard(s, id).value) && KeepParents(s, DeleteShard(s, id).value)
  {
    hide Unique, Remove, IndexOf;
  }

  lemma DeleteShardRest(s: State, id: nat)
    requires Unique(s.shards) && Has(s.shards, id) && DeleteShard(s, id).Ok?
    ensures Deleted(s, DeleteShard(s, id).value)
  {
    hide KeepRest, KeepParents, Unique, Remove, Put, IndexOf;
    DeleteShardParents(s, id);
  }

  lemma OneShardLess(s: State, id: nat, t: nat)
    requires Has(s.shards, id) && DeleteShard(s, id).Ok? && Has(s.tables, t)
    ensures |DeleteShard(s, id).value.shards| < |s.shards| && Has(DeleteShard(s, id).value.tables, t)
  {}

  lemma {:induction false} DeleteShardsOfRest(s: State, t: nat)
    requires Unique(s.shards) && Has(s.tables, t) && DeleteShardsOf(s, t).Ok?
    ensures Deleted(s, DeleteShardsOf(s, t).value)
    decreases |s.shards|
  {
    hide DeleteShard, Deleted;
    var ids := Get(s.tables, t).shards;
    DeletedNothing(s);
    if ids != [] {
      DeleteShardRest(s, ids[0]);
      OneShardLess(s, ids[0], t);
      var s1 := DeleteShard(s, ids[0]).value;
      StillUnique(s, s1);
      DeleteShardsOfRest(s1, t);
      DeletedTwice(s, s1, DeleteShardsOf(s, t).value);
    }
  }

  lemma StillUnique(s: State, s': State)
    requires Unique(s.shards) && Deleted(s, s')
    ensures Unique(s'.shards)
  {}

  lemma EraseTableRest(s: State, t: nat)
    requires Unique(s.shards) && Has(s.tables, t) && EraseTable(s, t).Ok?
    ensures Deleted(s, EraseTable(s, t).value)
  {
    hide Unique, DeleteShardsOf, AsMap, IndexOf;
    DeleteShardsOfRest(s, t);
  }

  lemma {:induction false} EraseTablesRest(s: State, ids: seq<nat>)
    requires Unique(s.shards) && EraseTables(s, ids).Ok?
    ensures Deleted(s, EraseTables(s, ids).value)
    decreases |ids|
  {
    hide EraseTable, Deleted, AsMap, IndexOf;
    DeletedNothing(s);
    if ids != [] {
      EraseTableRest(s, ids[0]);
      var s1 := EraseTable(s, ids[0]).value;
      StillUnique(s, s1);
      EraseTablesRest(s1, ids[1..]);
      DeletedTwice(s, s1, EraseTables(s, ids).value);
    }
  }

  // Deleting tables changes nothing but what belongs to them.
  lemma DeleteEntryRest(s: State, m: Message)
    requires Unique(s.shards) && Unique(s.databases) && OnMessage(s, m).Ok? && (m.DeleteTable? || m.DeleteDatabase?)
    ensures var s' := OnMessage(s, m).value; KeepRest(s, s') && KeepParents(s, s') && MigrationAfter(s, s')
  {
    hide Unique, EraseTable, EraseTables, Remove, IndexOf;
    if m.DeleteTable? {
      EraseTableRest(s, m.tableID);
    } else {
      EraseTablesRest(s, Get(s.databases, m.databaseID).tables);
    }
  }

  lemma AddShardRest(s: State, t: nat, q: nat, shard: Shard)
    requires Has(s.tables, t) && Has(s.quorums, q)
    ensures KeepRest(s, AddShard(s, t, q, shard)) && KeepParents(s, AddShard(s, t, q, shard))
    ensures SameMigration(s, AddShard(s, t, q, shard))
  {
    hide IndexOf, AddSorted;
  }

  predicate SameMigration(s: State, s': State) {
    s'.isMigrating == s.isMigrating && s'.migrateQuorumID == s.migrateQuorumID
    && s'.migrateSrcShardID == s.migrateSrcShardID && s'.migrateDstShardID == s.migrateDstShardID
  }

  // All of this.
  predicate RestSame(s: State, s': State) { KeepRest(s, s') && KeepParents(s, s') && SameMigration(s, s') }

  lemma SameQuorumsKept(qs: map<nat, Quorum>)
    ensures QuorumsKept(qs, qs)
  {}

  lemma PutShardsRest(qs: map<nat, Quorum>, qs1: map<nat, Quorum>, q: nat, shards: seq<nat>)
    requires (qs1 == qs || QuorumsKept(qs, qs1)) && q in qs1
    ensures QuorumsKept(qs, qs1[q := qs1[q].(shards := shards)])
  {}

  lemma CreateTableRest(s: State, d: nat, q: nat, name: bytes)
    requires OnCreateTable(s, d, q, name).Ok?
    ensures RestSame(s, OnCreateTable(s, d, q, name).value)
  {
    hide IndexOf, AddSorted, TableNamed, Unique, QuorumsKept, AsMap;
    PutShardsRest(AsMap(s.quorums), AsMap(s.quorums), q, AddSorted(Get(s.quorums, q).shards, s.nextShardID));
  }

  lemma SplitBeginRest(s: State, id: nat, key: bytes)
    requires Has(s.shards, id) && OnSplitShardBegin(s, id, key).Ok?
    ensures RestSame(s, OnSplitShardBegin(s, id, key).value)
  {
    hide IndexOf, AddShard;
    var p := Get(s.shards, id);
    AddShardRest(s.(shards := Put(s.shards, id, p.(lastKey := key))), p.tableID, p.quorumID,
                 Shard(p.quorumID, p.tableID, SHARD_SPLIT_CREATING, id, key, p.lastKey, 0, [], false));
  }

  lemma MigrationEndRest(s: State, q: nat, src: nat, dst: nat)
    requires OnShardMigrationComplete(s, q, src, dst).Ok?
    ensures RestSame(s, OnShardMigrationComplete(s, q, src, dst).value)
  {
    hide IndexOf, AddSorted, Remove, Unique, QuorumsKept, AsMap;
    if Has(s.shards, src) {
      var p := Get(s.shards, src).quorumID;
      var rest := Remove(Get(s.quorums, p).shards, src);
      var l1 := Put(s.quorums, p, Get(s.quorums, p).(shards := rest));
      PutShardsRest(AsMap(s.quorums), AsMap(s.quorums), p, rest);
      PutShardsRest(AsMap(s.quorums), AsMap(l1), q, AddSorted(Get(l1, q).shards, dst));
    } else {
      SameQuorumsKept(AsMap(s.quorums));
    }
  }

  // Neither does adding or moving a shard, or making a table.
  lemma AddEntryRest(s: State, m: Message)
    requires OnMessage(s, m).Ok? && (m.CreateTable? || (m.SplitShardBegin? && Has(s.shards, m.shardID)) || m.ShardMigrationComplete?)
    ensures RestSame(s, OnMessage(s, m).value)
  {
    hide OnMessage, OnCreateTable, OnSplitShardBegin, OnShardMigrationComplete, RestSame, AsMap, IndexOf;
    if m.CreateTable? {
      DispatchedTables(s, m.databaseID, m.quorumID, m.name);
      CreateTableRest(s, m.databaseID, m.quorumID, m.name);
    } else if m.SplitShardBegin? {
      DispatchedShards(s, m.shardID, 0, 0, m.splitKey);
      SplitBeginRest(s, m.shardID, m.splitKey);
    } else {
      DispatchedShards(s, m.quorumID, m.srcShardID, m.dstShardID, []);
      MigrationEndRest(s, m.quorumID, m.srcShardID, m.dstShardID);
    }
  }

  // A truncation gives up a migration of a shard that it deletes.
  lemma TruncateEntryRest(s: State, t: nat)
    requires Unique(s.shards) && !Has(s.shards, s.nextShardID) && OnMessage(s, TruncateTableBegin(t)).Ok?
    ensures var s' := OnMessage(s, TruncateTableBegin(t)).value; KeepRest(s, s') && KeepParents(s, s') && MigrationAfter(s, s')
  {
    hide KeepRest, KeepParents, MigrationAfter, SameMigration, Deleted, Unique, DeleteShardsOf, DeletedQuorum, AddShard, AsMap, IndexOf;
    DeleteShardsOfRest(s, t);
    var s1, q := DeleteShardsOf(s, t).value, DeletedQuorum(s, t, 0);
    var shard := Shard(q, t, SHARD_TRUNC_CREATING, 0, [], [], 0, [], false);
    AddShardRest(s1, t, q, shard);
    NextIsFree(s, s1);
    AddedShard(s1, t, q, shard);
    ThenAdded(s, s1, AddShard(s1, t, q, shard));
  }

  lemma NextIsFree(s: State, s': State)
    requires Deleted(s, s') && !Has(s.shards, s.nextShardID)
    ensures !Has(s'.shards, s'.nextShardID)
  {}

  lemma ThenAdded(s: State, s1: State, s2: State)
    requires Deleted(s, s1) && KeepRest(s1, s2) && KeepParents(s1, s2) && SameMigration(s1, s2)
    requires !Has(s.shards, s.nextShardID) && AsMap(s2.shards).Keys == AsMap(s1.shards).Keys + {s1.nextShardID}
    ensures KeepRest(s, s2) && KeepParents(s, s2) && MigrationAfter(s, s2)
  {
    hide AsMap, IndexOf, Unique;
  }

  lemma AddedShard(s: State, t: nat, q: nat, shard: Shard)
    requires Has(s.tables, t) && Has(s.quorums, q) && !Has(s.shards, s.nextShardID)
    ensures AsMap(AddShard(s, t, q, shard).shards).Keys == AsMap(s.shards).Keys + {s.nextShardID}
  {}

  // Entries that change nothing by themselves.
  lemma NoEffect(s: State, clusterID: nat, q: nat, id: nat)
    ensures OnMessage(s, SetClusterID(clusterID)) == Ok(s) && OnMessage(s, ShardMigrationBegin(q, id)) == Ok(s)
    ensures !Has(s.shards, id) ==> forall dst :: OnMessage(s, ShardMigrationComplete(q, id, dst)) == Ok(s)
  {}
}
