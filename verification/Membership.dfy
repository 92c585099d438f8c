// The active and inactive nodes of a quorum over the replicated log.

module Membership {
  import opened Bytes
  import opened KeyedLists
  import opened ConfigMessages
  import opened Schema
  import opened SchemaInvariant
  import opened Controllers
  import opened Runs

  predicate Members(active: seq<nat>, inactive: seq<nat>) {
    Sorted(active) && Sorted(inactive) && NoDup(active) && NoDup(inactive) &&
    forall n :: n in active ==> n !in inactive
  }

  // Both lists of every quorum are sorted and free of duplicates, and they share no node.
  predicate MembersSound(s: State) {
    forall q :: q in AsMap(s.quorums) ==> Members(AsMap(s.quorums)[q].activeNodes, AsMap(s.quorums)[q].inactiveNodes)
  }

  // ---- lists

  lemma {:induction false} AddSortedNoDup(l: seq<nat>, x: nat)
    ensures NoDup(AddSorted(l, x)) <==> NoDup(l) && x !in l
  {
    if l != [] {
      if x < l[0] {
        assert ([x] + l)[1..] == l;
        assert NoDup([x] + l) <==> x !in l && NoDup(l);
      } else {
        AddSortedNoDup(l[1..], x);
        var r := AddSorted(l, x);
        assert r == [l[0]] + AddSorted(l[1..], x) && r[1..] == AddSorted(l[1..], x);
      }
    }
  }

  lemma {:induction false} AddAllNoDup(l: seq<nat>, xs: seq<nat>)
    requires Sorted(l)
    ensures Sorted(AddAll(l, xs))
    ensures NoDup(AddAll(l, xs)) <==> NoDup(l) && NoDup(xs) && forall x :: x in xs ==> x !in l
    decreases |xs|
  {
    if xs != [] {
      AddSortedSorted(l, xs[0]);
      AddSortedNoDup(l, xs[0]);
      AddAllNoDup(AddSorted(l, xs[0]), xs[1..]);
      assert forall x :: x in xs <==> x == xs[0] || x in xs[1..];
    }
  }

  // A node that moves from one list to the other leaves the union as it was.
  lemma MoveKeepsUnion(from: seq<nat>, to: seq<nat>, n: nat)
    requires Members(from, to) && n in from
    ensures Members(Remove(from, n), AddSorted(to, n)) && Members(AddSorted(to, n), Remove(from, n))
    ensures forall x :: x in Remove(from, n) || x in AddSorted(to, n) <==> x in from || x in to
  {
    AddSortedSorted(to, n);
    RemoveSorted(from, n);
  }

  lemma Flip(a: seq<nat>, b: seq<nat>)
    ensures Members(a, b) <==> Members(b, a)
  {}

  // ---- steps

  // A quorum is created sound exactly if its list of nodes has no duplicates.
  lemma CreateQuorumMembers(s: State, name: bytes, nodes: seq<nat>)
    requires MembersSound(s) && !Has(s.quorums, s.nextQuorumID)
    ensures MembersSound(OnCreateQuorum(s, name, nodes)) <==> NoDup(nodes)
  {
    AddAllNoDup([], nodes);
    var s' := OnCreateQuorum(s, name, nodes);
    assert s.nextQuorumID in AsMap(s'.quorums);
  }

  lemma PutMembers(s: State, id: nat, q: Quorum)
    requires MembersSound(s) && Has(s.quorums, id) && Members(q.activeNodes, q.inactiveNodes)
    ensures MembersSound(PutQuorum(s, id, q))
  {}

  lemma ActivateMembers(s: State, id: nat, n: nat)
    requires MembersSound(s) && OnActivateShardServer(s, id, n).Ok?
    ensures MembersSound(OnActivateShardServer(s, id, n).value)
    ensures var q, q' := Get(s.quorums, id), AsMap(OnActivateShardServer(s, id, n).value.quorums)[id];
            forall x :: q'.IsMember(x) <==> q.IsMember(x)
  {
    var q := Get(s.quorums, id);
    hide Sorted, NoDup, Remove, AddSorted;
    Flip(q.activeNodes, q.inactiveNodes);
    MoveKeepsUnion(q.inactiveNodes, q.activeNodes, n);
    hide MembersSound, Members;
    var q' := q.(inactiveNodes := Remove(q.inactiveNodes, n), activeNodes := AddSorted(q.activeNodes, n));
    PutMembers(s, id, q');
    PutMembers(s, id, q'.ClearActivation());
  }

  lemma DeactivateMembers(s: State, id: nat, n: nat)
    requires MembersSound(s) && OnDeactivateShardServer(s, id, n).Ok?
    ensures MembersSound(OnDeactivateShardServer(s, id, n).value)
    ensures var q, q' := Get(s.quorums, id), AsMap(OnDeactivateShardServer(s, id, n).value.quorums)[id];
            forall x :: q'.IsMember(x) <==> q.IsMember(x)
  {
    var q := Get(s.quorums, id);
    hide Sorted, NoDup, Remove, AddSorted;
    MoveKeepsUnion(q.activeNodes, q.inactiveNodes, n);
    hide MembersSound, Members;
    PutMembers(s, id, q.(activeNodes := Remove(q.activeNodes, n), inactiveNodes := AddSorted(q.inactiveNodes, n)));
  }

  lemma AddOrRemoveNode(active: seq<nat>, inactive: seq<nat>, n: nat)
    requires Members(active, inactive)
    ensures n !in active && n !in inactive ==> Members(active, AddSorted(inactive, n))
    ensures Members(Remove(active, n), inactive) && Members(active, Remove(inactive, n))
  {
    AddSortedSorted(inactive, n);
    RemoveSorted(active, n);
    RemoveSorted(inactive, n);
  }

  lemma AddOrRemoveMembers(s: State, id: nat, n: nat)
    requires MembersSound(s)
    ensures OnAddNode(s, id, n).Ok? ==> MembersSound(OnAddNode(s, id, n).value)
    ensures OnRemoveNode(s, id, n).Ok? ==> MembersSound(OnRemoveNode(s, id, n).value)
  {
    if Has(s.quorums, id) {
      var q := Get(s.quorums, id);
      hide Sorted, NoDup, Remove, AddSorted;
      AddOrRemoveNode(q.activeNodes, q.inactiveNodes, n);
      hide MembersSound, Members;
      if !q.IsMember(n) { PutMembers(s, id, q.(inactiveNodes := AddSorted(q.inactiveNodes, n))); }
      PutMembers(s, id, q.(activeNodes := Remove(q.activeNodes, n)));
      PutMembers(s, id, q.(inactiveNodes := Remove(q.inactiveNodes, n)));
    }
  }

  predicate ChangesMembers(m: Message) {
    m.CreateQuorum? || m.AddShardServerToQuorum? || m.RemoveShardServerFromQuorum? || m.ActivateShardServer?
    || m.DeactivateShardServer?
  }

  lemma DeletionKeepsMembers(s: State, m: Message)
    requires m.DeleteDatabase? || m.DeleteTable? || m.FreezeDatabase? || m.UnfreezeDatabase? || m.TruncateTableBegin?
    requires OnMessage(s, m).Ok?
    ensures MembersKept(s, OnMessage(s, m).value)
  {
    hide EraseTable, EraseTables, SetFrozenAll, DeleteShardsOf, DeletedQuorum, AsMap, IndexOf, Remove, AddSorted;
    if m.DeleteTable? {
      EraseTableDeletes(s, m.tableID);
    } else if m.DeleteDatabase? {
      EraseTablesDeletes(s, Get(s.databases, m.databaseID).tables);
    } else if m.TruncateTableBegin? {
      DeleteShardsOfDeletes(s, m.tableID);
    } else {
      SetFrozenAllDeletes(s, Get(s.databases, m.databaseID).tables, m.FreezeDatabase?);
    }
  }

  lemma DropKeepsMembers(s: State, id: nat)
    requires Unique(s.quorums) && Has(s.quorums, id)
    ensures MembersKept(s, s.(quorums := Drop(s.quorums, id)))
  {}

  lemma KeptSame(s: State, t: State, t': State)
    requires MembersKept(s, t) && t'.quorums == t.quorums
    ensures MembersKept(s, t')
  {}

  lemma ShardListKeepsMembers(s: State, m: Message)
    requires m.CreateTable? || m.SplitShardBegin? || m.RenameQuorum?
    requires OnMessage(s, m).Ok?
    ensures MembersKept(s, OnMessage(s, m).value)
  {
    hide MembersKept, AddSorted, QuorumNamed, TableNamed;
    if m.RenameQuorum? {
      PutNameKeepsMembers(s, m.quorumID, m.name);
    } else if m.CreateTable? {
      var more := AddSorted(Get(s.quorums, m.quorumID).shards, s.nextShardID);
      PutShardsKeepsMembers(s, m.quorumID, more);
      KeptSame(s, PutQuorum(s, m.quorumID, Get(s.quorums, m.quorumID).(shards := more)), OnMessage(s, m).value);
    } else if Has(s.shards, m.shardID) {
      var q := Get(s.shards, m.shardID).quorumID;
      var more := AddSorted(Get(s.quorums, q).shards, s.nextShardID);
      PutShardsKeepsMembers(s, q, more);
      KeptSame(s, PutQuorum(s, q, Get(s.quorums, q).(shards := more)), OnMessage(s, m).value);
    } else {
      NothingKept(s, OnMessage(s, m).value);
    }
  }

  lemma NothingKept(s: State, s': State)
    requires s'.quorums == s.quorums
    ensures MembersKept(s, s')
  {}

  lemma PutNameKeepsMembers(s: State, id: nat, name: bytes)
    requires Has(s.quorums, id)
    ensures MembersKept(s, PutQuorum(s, id, Get(s.quorums, id).(name := name)))
  {}

  lemma PutShardsKeepsMembers(s: State, id: nat, shards: seq<nat>)
    requires Has(s.quorums, id)
    ensures MembersKept(s, PutQuorum(s, id, Get(s.quorums, id).(shards := shards)))
  {}

  lemma KeptComposes(s: State, s': State, s'': State)
    requires MembersKept(s, s') && MembersKept(s', s'')
    ensures MembersKept(s, s'')
  {}

  lemma MigrationKeepsMembers(s: State, q: nat, src: nat, dst: nat)
    requires OnShardMigrationComplete(s, q, src, dst).Ok?
    ensures MembersKept(s, OnShardMigrationComplete(s, q, src, dst).value)
  {
    if Has(s.shards, src) {
      var p := Get(s.shards, src).quorumID;
      var rest := Remove(Get(s.quorums, p).shards, src);
      var s1 := PutQuorum(s, p, Get(s.quorums, p).(shards := rest));
      var more := AddSorted(Get(s1.quorums, q).shards, dst);
      var s2 := PutQuorum(s1, q, Get(s1.quorums, q).(shards := more));
      PutShardsKeepsMembers(s, p, rest);
      PutShardsKeepsMembers(s1, q, more);
      KeptComposes(s, s1, s2);
      assert s2.quorums == OnShardMigrationComplete(s, q, src, dst).value.quorums;
    }
  }

  lemma SameQuorums(s: State, m: Message)
    requires m.SetClusterID? || m.RegisterShardServer? || m.UnregisterShardServer? || m.SetPriority? || m.CreateDatabase?
             || m.RenameDatabase? || m.RenameTable? || m.FreezeTable? || m.UnfreezeTable? || m.TruncateTableComplete?
             || m.SplitShardComplete? || m.ShardMigrationBegin?
    requires OnMessage(s, m).Ok?
    ensures OnMessage(s, m).value.quorums == s.quorums
  {}

  // The entries that are not about members leave those of every quorum alone.
  lemma OthersKeepMembers(s: State, m: Message)
    requires Unique(s.quorums) && OnMessage(s, m).Ok? && !ChangesMembers(m)
    ensures MembersKept(s, OnMessage(s, m).value)
  {
    if m.DeleteDatabase? || m.DeleteTable? || m.FreezeDatabase? || m.UnfreezeDatabase? || m.TruncateTableBegin? {
      DeletionKeepsMembers(s, m);
    } else if m.DeleteQuorum? {
      DropKeepsMembers(s, m.quorumID);
    } else if m.CreateTable? || m.SplitShardBegin? || m.RenameQuorum? {
      ShardListKeepsMembers(s, m);
    } else if m.ShardMigrationComplete? {
      MigrationKeepsMembers(s, m.quorumID, m.srcShardID, m.dstShardID);
    } else {
      hide OnMessage;
      SameQuorums(s, m);
    }
  }

  // Main result: the members of every quorum stay sound as long as quorums are created with lists
  // free of duplicates; that condition cannot be dropped.
  lemma MembersStep(s: State, m: Message)
    requires Unique(s.quorums) && !Has(s.quorums, s.nextQuorumID) && MembersSound(s) && OnMessage(s, m).Ok?
    ensures MembersSound(OnMessage(s, m).value) <==> (m.CreateQuorum? ==> NoDup(m.nodes))
  {
    hide MembersSound;
    if m.CreateQuorum? {
      CreateQuorumMembers(s, m.name, m.nodes);
    } else if m.AddShardServerToQuorum? || m.RemoveShardServerFromQuorum? {
      AddOrRemoveMembers(s, m.quorumID, m.nodeID);
    } else if m.ActivateShardServer? {
      ActivateMembers(s, m.quorumID, m.nodeID);
    } else if m.DeactivateShardServer? {
      DeactivateMembers(s, m.quorumID, m.nodeID);
    } else {
      OthersKeepMembers(s, m);
      KeptIsSound(s, OnMessage(s, m).value);
    }
  }

  lemma KeptIsSound(s: State, s': State)
    requires MembersSound(s) && MembersKept(s, s')
    ensures MembersSound(s')
  {
    hide Members;
  }

  // ---- all lists of a quorum stay in order, duplicates or not

  lemma PutSorted(s: State, id: nat, q: Quorum)
    requires ListsSorted(s) && Has(s.quorums, id) && QuorumSorted(q)
    ensures ListsSorted(PutQuorum(s, id, q))
  {
    hide QuorumSorted;
  }

  lemma SortedQuorum(s: State, id: nat)
    requires ListsSorted(s) && Has(s.quorums, id)
    ensures QuorumSorted(Get(s.quorums, id))
  {}

  lemma SortedOperations(l: seq<nat>, x: nat)
    requires Sorted(l)
    ensures Sorted(AddSorted(l, x)) && Sorted(Remove(l, x))
  {
    AddSortedSorted(l, x);
    RemoveSorted(l, x);
  }

  // The quorum after an operation on one of its lists is in order.
  lemma QuorumOperations(q: Quorum, x: nat)
    requires QuorumSorted(q)
    ensures QuorumSorted(q.(shards := AddSorted(q.shards, x))) && QuorumSorted(q.(shards := Remove(q.shards, x)))
    ensures QuorumSorted(q.(inactiveNodes := AddSorted(q.inactiveNodes, x)))
    ensures QuorumSorted(q.(activeNodes := Remove(q.activeNodes, x))) && QuorumSorted(q.(inactiveNodes := Remove(q.inactiveNodes, x)))
    ensures QuorumSorted(q.(inactiveNodes := Remove(q.inactiveNodes, x), activeNodes := AddSorted(q.activeNodes, x)))
    ensures QuorumSorted(q.(activeNodes := Remove(q.activeNodes, x), inactiveNodes := AddSorted(q.inactiveNodes, x)))
  {
    SortedOperations(q.shards, x);
    SortedOperations(q.activeNodes, x);
    SortedOperations(q.inactiveNodes, x);
  }

  lemma MembersMessageSorted(s: State, m: Message)
    requires ListsSorted(s) && OnMessage(s, m).Ok?
    requires m.AddShardServerToQuorum? || m.RemoveShardServerFromQuorum? || m.ActivateShardServer? || m.DeactivateShardServer?
    ensures ListsSorted(OnMessage(s, m).value)
  {
    var q := Get(s.quorums, m.quorumID);
    SortedQuorum(s, m.quorumID);
    QuorumOperations(q, m.nodeID);
    hide ListsSorted, Sorted, AddSorted, Remove;
    if m.AddShardServerToQuorum? {
      PutSorted(s, m.quorumID, q.(inactiveNodes := AddSorted(q.inactiveNodes, m.nodeID)));
    } else if m.RemoveShardServerFromQuorum? {
      PutSorted(s, m.quorumID, q.(activeNodes := Remove(q.activeNodes, m.nodeID)));
      PutSorted(s, m.quorumID, q.(inactiveNodes := Remove(q.inactiveNodes, m.nodeID)));
    } else if m.ActivateShardServer? {
      var q' := q.(inactiveNodes := Remove(q.inactiveNodes, m.nodeID), activeNodes := AddSorted(q.activeNodes, m.nodeID));
      PutSorted(s, m.quorumID, q');
      PutSorted(s, m.quorumID, q'.ClearActivation());
    } else {
      PutSorted(s, m.quorumID, q.(activeNodes := Remove(q.activeNodes, m.nodeID), inactiveNodes := AddSorted(q.inactiveNodes, m.nodeID)));
    }
  }

  lemma NewQuorumSorted(s: State, name: bytes, nodes: seq<nat>)
    requires ListsSorted(s) && !Has(s.quorums, s.nextQuorumID)
    ensures ListsSorted(OnCreateQuorum(s, name, nodes))
  {
    AddAllSets([], nodes);
  }

  lemma AddShardSorted(s: State, t: nat, q: nat, shard: Shard)
    requires ListsSorted(s) && Has(s.tables, t) && Has(s.quorums, q)
    ensures ListsSorted(AddShard(s, t, q, shard))
  {
    SortedQuorum(s, q);
    QuorumOperations(Get(s.quorums, q), s.nextShardID);
    hide ListsSorted, Sorted, AddSorted, Remove;
    var s' := PutQuorum(s, q, Get(s.quorums, q).(shards := AddSorted(Get(s.quorums, q).shards, s.nextShardID)));
    PutSorted(s, q, Get(s.quorums, q).(shards := AddSorted(Get(s.quorums, q).shards, s.nextShardID)));
    SameQuorumsSorted(s', AddShard(s, t, q, shard));
  }

  lemma SameQuorumsSorted(s: State, s': State)
    requires s'.quorums == s.quorums
    ensures ListsSorted(s) <==> ListsSorted(s')
  {}

  lemma ShardListMessageSorted(s: State, m: Message)
    requires ListsSorted(s) && OnMessage(s, m).Ok?
    requires m.CreateTable? || m.SplitShardBegin? || m.TruncateTableBegin?
    ensures ListsSorted(OnMessage(s, m).value)
  {
    if m.CreateTable? {
      SortedQuorum(s, m.quorumID);
      var q := Get(s.quorums, m.quorumID);
      QuorumOperations(q, s.nextShardID);
      hide ListsSorted, Sorted, AddSorted, TableNamed;
      PutSorted(s, m.quorumID, q.(shards := AddSorted(q.shards, s.nextShardID)));
      SameQuorumsSorted(PutQuorum(s, m.quorumID, q.(shards := AddSorted(q.shards, s.nextShardID))), OnMessage(s, m).value);
    } else if m.TruncateTableBegin? {
      DeleteShardsOfDeletes(s, m.tableID);
      hide ListsSorted, AddShard, DeleteShardsOf, DeletedQuorum;
      var q := DeletedQuorum(s, m.tableID, 0);
      AddShardSorted(DeleteShardsOf(s, m.tableID).value, m.tableID, q, Shard(q, m.tableID, SHARD_TRUNC_CREATING, 0, [], [], 0, [], false));
    } else if Has(s.shards, m.shardID) {
      hide ListsSorted, AddShard;
      var parent := Get(s.shards, m.shardID);
      var s1 := s.(shards := Put(s.shards, m.shardID, parent.(lastKey := m.splitKey)));
      SameQuorumsSorted(s, s1);
      AddShardSorted(s1, parent.tableID, parent.quorumID,
        Shard(parent.quorumID, parent.tableID, SHARD_SPLIT_CREATING, m.shardID, m.splitKey, parent.lastKey, 0, [], false));
    }
  }

  lemma MigrationSorted(s: State, q: nat, src: nat, dst: nat)
    requires ListsSorted(s) && OnShardMigrationComplete(s, q, src, dst).Ok?
    ensures ListsSorted(OnShardMigrationComplete(s, q, src, dst).value)
  {
    if Has(s.shards, src) {
      var p := Get(s.shards, src).quorumID;
      SortedQuorum(s, p);
      QuorumOperations(Get(s.quorums, p), src);
      var from := Get(s.quorums, p).(shards := Remove(Get(s.quorums, p).shards, src));
      var s1 := PutQuorum(s, p, from);
      PutSorted(s, p, from);
      SortedQuorum(s1, q);
      QuorumOperations(Get(s1.quorums, q), dst);
      var to := Get(s1.quorums, q).(shards := AddSorted(Get(s1.quorums, q).shards, dst));
      PutSorted(s1, q, to);
      SameQuorumsSorted(PutQuorum(s1, q, to), OnShardMigrationComplete(s, q, src, dst).value);
    }
  }

  lemma RenameOrDeleteSorted(s: State, m: Message)
    requires ListsSorted(s) && Unique(s.quorums) && OnMessage(s, m).Ok? && (m.RenameQuorum? || m.DeleteQuorum?)
    ensures ListsSorted(OnMessage(s, m).value)
  {
    SortedQuorum(s, m.quorumID);
    hide QuorumNamed, Sorted;
    if m.RenameQuorum? { PutSorted(s, m.quorumID, Get(s.quorums, m.quorumID).(name := m.name)); }
  }

  lemma DeletionSorted(s: State, m: Message)
    requires ListsSorted(s) && OnMessage(s, m).Ok?
    requires m.DeleteDatabase? || m.DeleteTable? || m.FreezeDatabase? || m.UnfreezeDatabase?
    ensures ListsSorted(OnMessage(s, m).value)
  {
    hide EraseTable, EraseTables, SetFrozenAll, ListsSorted;
    if m.DeleteTable? {
      EraseTableDeletes(s, m.tableID);
      SameQuorumsSorted(EraseTable(s, m.tableID).value, OnMessage(s, m).value);
    } else if m.DeleteDatabase? {
      EraseTablesDeletes(s, Get(s.databases, m.databaseID).tables);
      SameQuorumsSorted(EraseTables(s, Get(s.databases, m.databaseID).tables).value, OnMessage(s, m).value);
    } else {
      SetFrozenAllDeletes(s, Get(s.databases, m.databaseID).tables, m.FreezeDatabase?);
    }
  }

  // Every message keeps the lists in order.
  lemma SortedStep(s: State, m: Message)
    requires ListsSorted(s) && Unique(s.quorums) && !Has(s.quorums, s.nextQuorumID) && OnMessage(s, m).Ok?
    ensures ListsSorted(OnMessage(s, m).value)
  {
    hide ListsSorted, OnMessage;
    if m.CreateQuorum? {
      NewQuorumSortedMessage(s, m);
    } else if m.AddShardServerToQuorum? || m.RemoveShardServerFromQuorum? || m.ActivateShardServer? || m.DeactivateShardServer? {
      MembersMessageSorted(s, m);
    } else if m.CreateTable? || m.SplitShardBegin? || m.TruncateTableBegin? {
      ShardListMessageSorted(s, m);
    } else if m.ShardMigrationComplete? {
      MigrationMessageSorted(s, m);
    } else if m.RenameQuorum? || m.DeleteQuorum? {
      RenameOrDeleteSorted(s, m);
    } else if m.DeleteDatabase? || m.DeleteTable? || m.FreezeDatabase? || m.UnfreezeDatabase? {
      DeletionSorted(s, m);
    } else {
      SameQuorums(s, m);
      SameQuorumsSorted(s, OnMessage(s, m).value);
    }
  }

  lemma NewQuorumSortedMessage(s: State, m: Message)
    requires ListsSorted(s) && !Has(s.quorums, s.nextQuorumID) && m.CreateQuorum?
    ensures ListsSorted(OnMessage(s, m).value)
  {
    hide ListsSorted, OnCreateQuorum;
    NewQuorumSorted(s, m.name, m.nodes);
  }

  lemma MigrationMessageSorted(s: State, m: Message)
    requires ListsSorted(s) && m.ShardMigrationComplete? && OnMessage(s, m).Ok?
    ensures ListsSorted(OnMessage(s, m).value)
  {
    hide ListsSorted, OnShardMigrationComplete;
    MigrationSorted(s, m.quorumID, m.srcShardID, m.dstShardID);
  }

  // ---- over runs

  lemma NumberFree(s: State)
    requires WellFormed(s)
    ensures Unique(s.quorums) && !Has(s.quorums, s.nextQuorumID)
  {}

  lemma SharedStepQuorums(s: State, m: Message)
    requires m.ShardMigrationBegin?
    ensures OnAppendShared(s, m).Ok? && OnAppendShared(s, m).value.quorums == s.quorums
  {}

  // Main result: every reachable state has its lists in order, and the members of all quorums are
  // sound if every quorum was created with a list free of duplicates.
  lemma {:induction false} ReachableMembers(log: seq<Message>, states: seq<State>, histories: seq<History>, i: nat)
    requires Run(log, states, histories) && i <= |log|
    ensures ListsSorted(states[i])
    ensures (forall j :: 0 <= j < i && log[j].CreateQuorum? ==> NoDup(log[j].nodes)) ==> MembersSound(states[i])
  {
    hide Step, WellFormed, HistoryInv;
    if i > 0 {
      hide ListsSorted, MembersSound, OnAppendShared;
      var s, m := states[i - 1], log[i - 1];
      ReachableMembers(log, states, histories, i - 1);
      ReachableWellFormed(log, states, histories, i - 1);
      assert Step(s, histories[i - 1], m, states[i], histories[i]);
      StepApplies(s, histories[i - 1], m, states[i], histories[i]);
      NumberFree(s);
      if m.ShardMigrationBegin? {
        SharedStepQuorums(s, m);
        SameQuorumsSorted(s, states[i]);
        SameMembersSound(s, states[i]);
      } else {
        SortedStep(s, m);
        if MembersSound(s) { MembersStep(s, m); }
      }
    }
  }

  lemma StepApplies(s: State, h: History, m: Message, s': State, h': History)
    requires Step(s, h, m, s', h')
    ensures OnAppendShared(s, m) == Ok(s')
    ensures !m.ShardMigrationBegin? ==> OnMessage(s, m) == Ok(s')
  {}

  lemma SameMembersSound(s: State, s': State)
    requires s'.quorums == s.quorums
    ensures MembersSound(s) <==> MembersSound(s')
  {}
}
