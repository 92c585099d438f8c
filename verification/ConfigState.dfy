// The controller's state as the object that the code updates in place: every method of
// src/Application/ConfigState/ConfigState.cpp that checks or applies a log entry, proved to
// compute the function of the same name in Schema.

module ConfigStates {
  import opened Bytes
  import opened KeyedLists
  import opened ConfigMessages
  import opened Schema
  import S = Schema
  import opened Lookups

  class ConfigState {
    var hasMaster: bool
    var masterID: nat
    var paxosID: nat
    var isSplitting: bool
    var isMigrating: bool
    var migrateSrcShardID: nat
    var migrateDstShardID: nat
    var migrateQuorumID: nat
    var quorums: seq<Keyed<Quorum>>
    var databases: seq<Keyed<Database>>
    var tables: seq<Keyed<Table>>
    var shards: seq<Keyed<Shard>>
    var shardServers: seq<Keyed<ShardServer>>
    var nextQuorumID: nat
    var nextDatabaseID: nat
    var nextTableID: nat
    var nextShardID: nat
    var nextNodeID: nat

    ghost function View(): State
      reads this
    {
      State(hasMaster, masterID, paxosID, isSplitting, isMigrating, migrateSrcShardID, migrateDstShardID, migrateQuorumID,
            quorums, databases, tables, shards, shardServers,
            nextQuorumID, nextDatabaseID, nextTableID, nextShardID, nextNodeID)
    }

    constructor ()
      ensures View() == EmptyState
    {
      new;
      Init();
    }

    method Init()
      modifies this
      ensures View() == EmptyState
    {
      SetNextIDs(1, 1, 1, 1, CONFIG_MIN_SHARD_NODE_ID);
      ClearFlags();
      OnAbortShardMigration();
      DeleteLists();
    }

    method SetNextIDs(quorumID: nat, databaseID: nat, tableID: nat, shardID: nat, nodeID: nat)
      modifies this`nextQuorumID, this`nextDatabaseID, this`nextTableID, this`nextShardID, this`nextNodeID
      ensures View() == old(View()).(nextQuorumID := quorumID, nextDatabaseID := databaseID, nextTableID := tableID,
                                     nextShardID := shardID, nextNodeID := nodeID)
    {
      nextQuorumID, nextDatabaseID, nextTableID, nextShardID, nextNodeID := quorumID, databaseID, tableID, shardID, nodeID;
    }

    method ClearFlags()
      modifies this`hasMaster, this`masterID, this`paxosID, this`isSplitting
      ensures !hasMaster && masterID == 0 && paxosID == 0 && !isSplitting
    {
      hasMaster, masterID, paxosID, isSplitting := false, 0, 0, false;
    }

    method DeleteLists()
      modifies this`quorums, this`databases, this`tables, this`shards, this`shardServers
      ensures quorums == [] && databases == [] && tables == [] && shards == [] && shardServers == []
    {
      quorums, databases, tables, shards, shardServers := [], [], [], [], [];
    }

    // ---- checks

    method CompleteUnregisterShardServer(m: Message) returns (accepted: bool)
      requires m.UnregisterShardServer?
      ensures S.CompleteMessage(View(), m) == if accepted then Accepted(View()) else Rejected
    {
      var v := Find(shardServers, m.nodeID);
      if v == |shardServers| { return false; }
      for k := 0 to |quorums|
        invariant forall j :: 0 <= j < k ==> !quorums[j].obj.IsMember(m.nodeID)
      {
        if quorums[k].obj.IsMember(m.nodeID) { return false; }
      }
      return true;
    }

    method CompleteCreateQuorum(m: Message) returns (accepted: bool)
      requires m.CreateQuorum?
      ensures S.CompleteMessage(View(), m) == if accepted then Accepted(View()) else Rejected
    {
      if !GoodName(m.name) { return false; }
      for k := 0 to |m.nodes|
        invariant forall j :: 0 <= j < k ==> Has(shardServers, m.nodes[j])
      {
        var v := Find(shardServers, m.nodes[k]);
        if v == |shardServers| { return false; }
      }
      var q := FindQuorum(quorums, m.name);
      return q == |quorums|;
    }

    method CompleteRenameQuorum(m: Message) returns (accepted: bool)
      requires m.RenameQuorum?
      ensures S.CompleteMessage(View(), m) == if accepted then Accepted(View()) else Rejected
    {
      if |m.name| > DATABASE_NAME_SIZE { return false; }
      var q := Find(quorums, m.quorumID);
      if q == |quorums| { return false; }
      q := FindQuorum(quorums, m.name);
      if q < |quorums| { return false; }
      return IsAsciiPrintable(m.name);
    }

    // The remaining checks on the members of one quorum.
    method CompleteOnQuorum(m: Message) returns (accepted: bool)
      requires m.DeleteQuorum? || m.AddShardServerToQuorum? || m.RemoveShardServerFromQuorum? || m.ActivateShardServer?
               || m.DeactivateShardServer? || m.SetPriority? || m.ShardMigrationBegin?
      ensures S.CompleteMessage(View(), m) == if accepted then Accepted(View()) else Rejected
    {
      hide AsMap, IndexOf;
      var i := Find(quorums, m.quorumID);
      if i == |quorums| { return false; }
      var q := quorums[i].obj;
      if m.DeleteQuorum? {
        return |q.shards| == 0;
      } else if m.AddShardServerToQuorum? {
        return !q.IsMember(m.nodeID);
      } else if m.RemoveShardServerFromQuorum? {
        if !q.IsActiveMember(m.nodeID) && !q.IsInactiveMember(m.nodeID) { return false; }
        if q.IsInactiveMember(m.nodeID) { return true; }
        return |q.activeNodes| > 1;
      } else if m.ActivateShardServer? {
        return q.IsInactiveMember(m.nodeID);
      } else if m.DeactivateShardServer? {
        if !q.IsActiveMember(m.nodeID) { return false; }
        return m.force || |q.activeNodes| != 1;
      } else if m.SetPriority? {
        var v := Find(shardServers, m.nodeID);
        if v == |shardServers| { return false; }
        return q.IsActiveMember(m.nodeID) || q.IsInactiveMember(m.nodeID);
      } else {
        return !(q.isActivatingNode || |q.inactiveNodes| > 0);
      }
    }

    method CompleteOnDatabase(m: Message) returns (accepted: bool)
      requires m.CreateDatabase? || m.RenameDatabase? || m.DeleteDatabase? || m.FreezeDatabase? || m.UnfreezeDatabase?
      ensures S.CompleteMessage(View(), m) == if accepted then Accepted(View()) else Rejected
    {
      if m.CreateDatabase? {
        if !GoodName(m.name) { return false; }
        var d := FindDatabase(databases, m.name);
        return d == |databases|;
      } else if m.RenameDatabase? {
        if |m.name| > DATABASE_NAME_SIZE { return false; }
        var d := Find(databases, m.databaseID);
        if d == |databases| { return false; }
        d := FindDatabase(databases, m.name);
        if d < |databases| && databases[d].id != m.databaseID { return false; }
        return IsAsciiPrintable(m.name);
      } else {
        var d := Find(databases, m.databaseID);
        return d < |databases|;
      }
    }

    method CompleteOnTable(m: Message) returns (accepted: bool)
      requires m.CreateTable? || m.RenameTable? || m.DeleteTable? || m.FreezeTable? || m.UnfreezeTable?
      ensures S.CompleteMessage(View(), m) == if accepted then Accepted(View()) else Rejected
    {
      if m.CreateTable? {
        if |m.name| > DATABASE_NAME_SIZE { return false; }
        var q := Find(quorums, m.quorumID);
        if q == |quorums| { return false; }
        var d := Find(databases, m.databaseID);
        if d == |databases| { return false; }
        var t := FindTable(tables, m.databaseID, m.name);
        if t < |tables| { return false; }
        return IsAsciiPrintable(m.name);
      } else if m.RenameTable? {
        if |m.name| > DATABASE_NAME_SIZE { return false; }
        var t := Find(tables, m.tableID);
        if t == |tables| { return false; }
        t := FindTable(tables, tables[t].obj.databaseID, m.name);
        if t < |tables| && tables[t].id != m.tableID { return false; }
        return IsAsciiPrintable(m.name);
      } else {
        var t := Find(tables, m.tableID);
        return t < |tables|;
      }
    }

    method CompleteTruncateTableBegin(m: Message) returns (ok: bool, accepted: bool)
      requires m.TruncateTableBegin?
      ensures S.CompleteMessage(View(), m) == if !ok then Aborted else if accepted then Accepted(View()) else Rejected
    {
      var t := Find(tables, m.tableID);
      if t == |tables| { return true, false; }
      var ids := tables[t].obj.shards;
      for k := 0 to |ids|
        invariant TruncateVerdict(View(), ids) == TruncateVerdict(View(), ids[k..])
      {
        var i := Find(shards, ids[k]);
        if i == |shards| { return false, false; }
        var q := Find(quorums, shards[i].obj.quorumID);
        if q == |quorums| { return false, false; }
        if quorums[q].obj.isActivatingNode || |quorums[q].obj.inactiveNodes| > 0 { return true, false; }
        assert ids[k..][1..] == ids[k + 1..];
      }
      return true, true;
    }

    // Accepting a split marks the state.
    method CompleteSplitShardBegin(shardID: nat, splitKey: bytes) returns (accepted: bool)
      modifies this
      ensures S.CompleteSplitShardBegin(old(View()), shardID, splitKey) == if accepted then Accepted(View()) else Rejected
      ensures !accepted ==> View() == old(View())
    {
      var i := Find(shards, shardID);
      if i == |shards| { return false; }
      var shard := shards[i].obj;
      var q := Find(quorums, shard.quorumID);
      if q == |quorums| { return false; }
      if quorums[q].obj.isActivatingNode || |quorums[q].obj.inactiveNodes| > 0 { return false; }
      if !RangeContains(shard.firstKey, shard.lastKey, splitKey) { return false; }
      if Cmp(shard.firstKey, splitKey) == 0 { return false; }
      if Cmp(shard.lastKey, splitKey) == 0 { return false; }
      if isSplitting { return false; }
      isSplitting := true;
      return true;
    }

    method CompleteOnShard(m: Message) returns (ok: bool, accepted: bool)
      requires m.SplitShardComplete? || m.ShardMigrationComplete?
      ensures S.CompleteMessage(View(), m) == if !ok then Aborted else if accepted then Accepted(View()) else Rejected
    {
      if m.SplitShardComplete? {
        var i := Find(shards, m.shardID);
        if i == |shards| { return false, false; }
        return true, shards[i].obj.state == SHARD_SPLIT_CREATING;
      } else {
        if !isMigrating { return true, false; }
        if migrateQuorumID != m.quorumID { return true, false; }
        return true, migrateSrcShardID == m.srcShardID;
      }
    }

    lemma AlwaysAccepted(m: Message)
      ensures m.SetClusterID? || m.RegisterShardServer? || m.TruncateTableComplete? ==> S.CompleteMessage(View(), m) == Accepted(View())
    {}

    lemma SplitCheck(shardID: nat, splitKey: bytes)
      ensures S.CompleteMessage(View(), SplitShardBegin(shardID, splitKey)) == S.CompleteSplitShardBegin(View(), shardID, splitKey)
    {}

    method CompleteMessage(m: Message) returns (ok: bool, accepted: bool)
      modifies this
      ensures S.CompleteMessage(old(View()), m) == if !ok then Aborted else if accepted then Accepted(View()) else Rejected
      ensures !accepted ==> View() == old(View())
    {
      AlwaysAccepted(m);
      hide S.CompleteMessage;
      ok, accepted := true, true;
      match m
      case SetClusterID(_) =>
      case RegisterShardServer(_, _) =>
      case TruncateTableComplete(_) =>
      case UnregisterShardServer(_) => accepted := CompleteUnregisterShardServer(m);
      case CreateQuorum(_, _) => accepted := CompleteCreateQuorum(m);
      case RenameQuorum(_, _) => accepted := CompleteRenameQuorum(m);
      case DeleteQuorum(_) => accepted := CompleteOnQuorum(m);
      case AddShardServerToQuorum(_, _) => accepted := CompleteOnQuorum(m);
      case RemoveShardServerFromQuorum(_, _) => accepted := CompleteOnQuorum(m);
      case ActivateShardServer(_, _, _) => accepted := CompleteOnQuorum(m);
      case DeactivateShardServer(_, _, _) => accepted := CompleteOnQuorum(m);
      case SetPriority(_, _, _) => accepted := CompleteOnQuorum(m);
      case ShardMigrationBegin(_, _) => accepted := CompleteOnQuorum(m);
      case CreateDatabase(_) => accepted := CompleteOnDatabase(m);
      case RenameDatabase(_, _) => accepted := CompleteOnDatabase(m);
      case DeleteDatabase(_) => accepted := CompleteOnDatabase(m);
      case FreezeDatabase(_) => accepted := CompleteOnDatabase(m);
      case UnfreezeDatabase(_) => accepted := CompleteOnDatabase(m);
      case CreateTable(_, _, _) => accepted := CompleteOnTable(m);
      case RenameTable(_, _) => accepted := CompleteOnTable(m);
      case DeleteTable(_) => accepted := CompleteOnTable(m);
      case FreezeTable(_) => accepted := CompleteOnTable(m);
      case UnfreezeTable(_) => accepted := CompleteOnTable(m);
      case TruncateTableBegin(_) => ok, accepted := CompleteTruncateTableBegin(m);
      case SplitShardBegin(shardID, splitKey) =>
        SplitCheck(shardID, splitKey);
        accepted := CompleteSplitShardBegin(shardID, splitKey);
      case SplitShardComplete(_) => ok, accepted := CompleteOnShard(m);
      case ShardMigrationComplete(_, _, _) => ok, accepted := CompleteOnShard(m);
    }

    // ---- effects; ok is false where an assertion fails or a null pointer is followed

    method OnAbortShardMigration()
      modifies this`isMigrating, this`migrateQuorumID, this`migrateSrcShardID, this`migrateDstShardID
      ensures View() == S.AbortShardMigration(old(View()))
    {
      isMigrating, migrateQuorumID, migrateSrcShardID, migrateDstShardID := false, 0, 0, 0;
    }

    method OnRegisterShardServer(nodeID: nat, endpoint: bytes) returns (newID: nat)
      modifies this
      ensures View() == S.OnRegisterShardServer(old(View()), nodeID, endpoint)
      ensures newID == if Has(old(shardServers), nodeID) then nodeID else old(nextNodeID)
    {
      newID := nodeID;
      var i := Find(shardServers, nodeID);
      if i == |shardServers| {
        newID, nextNodeID := nextNodeID, nextNodeID + 1;
        shardServers := shardServers + [Keyed(newID, NewShardServer(endpoint))];
      } else {
        shardServers := shardServers[i := Keyed(nodeID, shardServers[i].obj.(endpoint := endpoint))];
      }
    }

    method OnUnregisterShardServer(nodeID: nat)
      modifies this
      ensures View() == S.OnUnregisterShardServer(old(View()), nodeID)
    {
      var i := Find(shardServers, nodeID);
      if i < |shardServers| {
        shardServers := shardServers[..i] + shardServers[i + 1..];
      }
    }

    method OnCreateQuorum(name: bytes, nodes: seq<nat>) returns (newID: nat)
      modifies this
      ensures View() == S.OnCreateQuorum(old(View()), name, nodes) && newID == old(nextQuorumID)
    {
      newID, nextQuorumID := nextQuorumID, nextQuorumID + 1;
      var quorum := NewQuorum;
      if |name| > 0 {
        quorum := quorum.(name := name);
      } else {
        quorum := quorum.(name := DefaultQuorumName(newID));
      }
      var active: seq<nat> := [];
      for k := 0 to |nodes|
        invariant AddAll([], nodes) == AddAll(active, nodes[k..])
      {
        assert nodes[k..][1..] == nodes[k + 1..];
        active := AddSorted(active, nodes[k]);
      }
      quorums := quorums + [Keyed(newID, quorum.(activeNodes := active))];
    }

    method OnRenameQuorum(quorumID: nat, name: bytes) returns (ok: bool)
      modifies this
      ensures S.OnRenameQuorum(old(View()), quorumID, name) == if ok then Ok(View()) else Stopped
    {
      var i := FindQuorum(quorums, name);
      if i < |quorums| { return false; }
      i := Find(quorums, quorumID);
      if i == |quorums| { return false; }
      quorums := quorums[i := Keyed(quorumID, quorums[i].obj.(name := name))];
      return true;
    }

    method OnDeleteQuorum(quorumID: nat) returns (ok: bool)
      modifies this
      ensures S.OnDeleteQuorum(old(View()), quorumID) == if ok then Ok(View()) else Stopped
    {
      var i := Find(quorums, quorumID);
      if i == |quorums| { return false; }
      quorums := quorums[..i] + quorums[i + 1..];
      return true;
    }

    method OnAddNode(quorumID: nat, nodeID: nat) returns (ok: bool)
      modifies this
      ensures S.OnAddNode(old(View()), quorumID, nodeID) == if ok then Ok(View()) else Stopped
    {
      var i := Find(quorums, quorumID);
      if i == |quorums| { return false; }
      var q := quorums[i].obj;
      if q.IsMember(nodeID) { return false; }
      quorums := quorums[i := Keyed(quorumID, q.(inactiveNodes := AddSorted(q.inactiveNodes, nodeID)))];
      return true;
    }

    method OnRemoveNode(quorumID: nat, nodeID: nat) returns (ok: bool)
      modifies this
      ensures S.OnRemoveNode(old(View()), quorumID, nodeID) == if ok then Ok(View()) else Stopped
    {
      var i := Find(quorums, quorumID);
      if i == |quorums| { return false; }
      var q := quorums[i].obj;
      if q.IsActiveMember(nodeID) {
        quorums := quorums[i := Keyed(quorumID, q.(activeNodes := Remove(q.activeNodes, nodeID)))];
        return true;
      }
      if q.IsInactiveMember(nodeID) {
        quorums := quorums[i := Keyed(quorumID, q.(inactiveNodes := Remove(q.inactiveNodes, nodeID)))];
        return true;
      }
      return false;
    }

    method OnActivateShardServer(quorumID: nat, nodeID: nat) returns (ok: bool)
      modifies this
      ensures S.OnActivateShardServer(old(View()), quorumID, nodeID) == if ok then Ok(View()) else Stopped
    {
      var i := Find(quorums, quorumID);
      if i == |quorums| { return false; }
      var q := quorums[i].obj;
      if !q.IsInactiveMember(nodeID) { return false; }
      q := q.(inactiveNodes := Remove(q.inactiveNodes, nodeID));
      q := q.(activeNodes := AddSorted(q.activeNodes, nodeID));
      if q.isActivatingNode {
        var v := Find(shardServers, q.activatingNodeID);
        if v == |shardServers| { return false; }
        q := q.ClearActivation();
      }
      quorums := quorums[i := Keyed(quorumID, q)];
      return true;
    }

    method OnDeactivateShardServer(quorumID: nat, nodeID: nat) returns (ok: bool)
      modifies this
      ensures S.OnDeactivateShardServer(old(View()), quorumID, nodeID) == if ok then Ok(View()) else Stopped
    {
      var i := Find(quorums, quorumID);
      if i == |quorums| { return false; }
      var q := quorums[i].obj;
      if !q.IsActiveMember(nodeID) { return false; }
      q := q.(activeNodes := Remove(q.activeNodes, nodeID));
      q := q.(inactiveNodes := AddSorted(q.inactiveNodes, nodeID));
      quorums := quorums[i := Keyed(quorumID, q)];
      return true;
    }

    method OnSetPriority(quorumID: nat, nodeID: nat, priority: nat) returns (ok: bool)
      modifies this
      ensures S.OnSetPriority(old(View()), quorumID, nodeID, priority) == if ok then Ok(View()) else Stopped
    {
      hide AsMap, Unique, IndexOf, WithPriority;
      var i := Find(shardServers, nodeID);
      if i == |shardServers| { return false; }
      var v := shardServers[i].obj;
      var l := SetIn(v.quorumPriorities, quorumID, priority);
      shardServers := shardServers[i := Keyed(nodeID, v.(quorumPriorities := l))];
      return true;
    }

    method OnCreateDatabase(name: bytes) returns (ok: bool, newID: nat)
      modifies this
      ensures S.OnCreateDatabase(old(View()), name) == if ok then Ok(View()) else Stopped
      ensures ok ==> newID == old(nextDatabaseID)
    {
      var i := FindDatabase(databases, name);
      if i < |databases| { return false, 0; }
      newID, nextDatabaseID := nextDatabaseID, nextDatabaseID + 1;
      databases := databases + [Keyed(newID, Database(name, []))];
      ok := true;
    }

    method OnRenameDatabase(databaseID: nat, name: bytes) returns (ok: bool)
      modifies this
      ensures S.OnRenameDatabase(old(View()), databaseID, name) == if ok then Ok(View()) else Stopped
    {
      var i := FindDatabase(databases, name);
      if i < |databases| && databases[i].id != databaseID { return false; }
      i := Find(databases, databaseID);
      if i == |databases| { return false; }
      databases := databases[i := Keyed(databaseID, databases[i].obj.(name := name))];
      return true;
    }

    method RemoveFromQuorum(quorumID: nat, shardID: nat) returns (ok: bool)
      modifies this`quorums
      ensures ok == Has(old(quorums), quorumID)
      ensures ok ==> var q := Get(old(quorums), quorumID);
                     quorums == Put(old(quorums), quorumID, q.(shards := Remove(q.shards, shardID)))
      ensures View() == old(View()).(quorums := quorums)
    {
      var i := Find(quorums, quorumID);
      if i == |quorums| { return false; }
      quorums := quorums[i := Keyed(quorumID, quorums[i].obj.(shards := Remove(quorums[i].obj.shards, shardID)))];
      return true;
    }

    method RemoveFromTable(tableID: nat, shardID: nat) returns (ok: bool)
      modifies this`tables
      ensures ok == Has(old(tables), tableID)
      ensures ok ==> var t := Get(old(tables), tableID);
                     tables == Put(old(tables), tableID, t.(shards := Remove(t.shards, shardID)))
      ensures View() == old(View()).(tables := tables)
    {
      var i := Find(tables, tableID);
      if i == |tables| { return false; }
      tables := tables[i := Keyed(tableID, tables[i].obj.(shards := Remove(tables[i].obj.shards, shardID)))];
      return true;
    }

    method AddToQuorum(quorumID: nat, shardID: nat) returns (ok: bool)
      modifies this`quorums
      ensures ok == Has(old(quorums), quorumID)
      ensures ok ==> var q := Get(old(quorums), quorumID);
                     quorums == Put(old(quorums), quorumID, q.(shards := AddSorted(q.shards, shardID)))
      ensures View() == old(View()).(quorums := quorums)
    {
      var i := Find(quorums, quorumID);
      if i == |quorums| { return false; }
      quorums := quorums[i := Keyed(quorumID, quorums[i].obj.(shards := AddSorted(quorums[i].obj.shards, shardID)))];
      return true;
    }

    method AddToTable(tableID: nat, shardID: nat) returns (ok: bool)
      modifies this`tables
      ensures ok == Has(old(tables), tableID)
      ensures ok ==> var t := Get(old(tables), tableID);
                     tables == Put(old(tables), tableID, t.(shards := t.shards + [shardID]))
      ensures View() == old(View()).(tables := tables)
    {
      var i := Find(tables, tableID);
      if i == |tables| { return false; }
      tables := tables[i := Keyed(tableID, tables[i].obj.(shards := tables[i].obj.shards + [shardID]))];
      return true;
    }

    method DeleteShard(shardID: nat) returns (ok: bool)
      requires Has(shards, shardID)
      modifies this
      ensures ok == S.DeleteShard(old(View()), shardID).Ok?
      ensures ok ==> View() == S.DeleteShard(old(View()), shardID).value
    {
      hide AsMap, Unique, NoDup, AddSorted, Remove, Sorted, IndexOf;
      var i := Find(shards, shardID);
      var shard := shards[i].obj;
      if isMigrating && migrateSrcShardID == shardID { OnAbortShardMigration(); }
      ok := RemoveFromQuorum(shard.quorumID, shardID);
      if !ok { return; }
      ok := RemoveFromTable(shard.tableID, shardID);
      if !ok { return; }
      SetShards(shards[..i] + shards[i + 1..]);
    }

    method SetShards(l: seq<Keyed<Shard>>)
      modifies this`shards
      ensures shards == l && View() == old(View()).(shards := l)
    {
      shards := l;
    }

    // The loop over the first shard of a table until the table has none.
    method DeleteShardsOf(tableID: nat) returns (ok: bool, quorumID: nat)
      requires Has(tables, tableID)
      modifies this
      ensures S.DeleteShardsOf(old(View()), tableID) == if ok then Ok(View()) else Stopped
      ensures ok ==> quorumID == DeletedQuorum(old(View()), tableID, 0)
    {
      quorumID := 0;
      var t := Find(tables, tableID);
      while |tables[t].obj.shards| > 0
        invariant Has(tables, tableID) && t == IndexOf(tables, tableID)
        invariant S.DeleteShardsOf(View(), tableID) == S.DeleteShardsOf(old(View()), tableID)
        invariant DeletedQuorum(View(), tableID, quorumID) == DeletedQuorum(old(View()), tableID, 0)
        decreases |shards|
      {
        var shardID := tables[t].obj.shards[0];
        var i := Find(shards, shardID);
        if i == |shards| { return false, quorumID; }
        quorumID := shards[i].obj.quorumID;
        ok := DeleteShard(shardID);
        if !ok { return; }
        t := Find(tables, tableID);
      }
      ok := true;
    }

    method DeleteTable(tableID: nat) returns (ok: bool)
      requires Has(tables, tableID)
      modifies this
      ensures EraseTable(old(View()), tableID) == if ok then Ok(View()) else Stopped
    {
      var quorumID;
      ok, quorumID := DeleteShardsOf(tableID);
      if !ok { return; }
      var t := Find(tables, tableID);
      tables := tables[..t] + tables[t + 1..];
    }

    method OnDeleteDatabase(databaseID: nat) returns (ok: bool)
      modifies this
      ensures S.OnDeleteDatabase(old(View()), databaseID) == if ok then Ok(View()) else Stopped
    {
      var d := Find(databases, databaseID);
      if d == |databases| { return false; }
      var ids := databases[d].obj.tables;
      for k := 0 to |ids|
        invariant EraseTables(View(), ids[k..]) == EraseTables(old(View()), ids)
      {
        var t := Find(tables, ids[k]);
        if t == |tables| { return false; }
        assert ids[k..][1..] == ids[k + 1..];
        ok := DeleteTable(ids[k]);
        if !ok { return; }
      }
      d := Find(databases, databaseID);
      if d == |databases| { return false; }
      databases := databases[..d] + databases[d + 1..];
      ok := true;
    }

    method OnCreateTable(databaseID: nat, quorumID: nat, name: bytes) returns (ok: bool, tableID: nat, shardID: nat)
      modifies this
      ensures S.OnCreateTable(old(View()), databaseID, quorumID, name) == if ok then Ok(View()) else Stopped
      ensures ok ==> tableID == old(nextTableID) && shardID == old(nextShardID)
    {
      tableID, shardID := nextTableID, nextShardID;
      ok := false;
      var q := Find(quorums, quorumID);
      if q == |quorums| { return; }
      var d := Find(databases, databaseID);
      if d == |databases| { return; }
      var t := Find(tables, nextTableID);
      if t < |tables| { return; }
      t := FindTable(tables, databaseID, name);
      if t < |tables| { return; }
      hide S.AddTable;
      AddTable(databaseID, quorumID, name);
      ok := true;
    }

    // The part behind the assertions.
    method AddTable(databaseID: nat, quorumID: nat, name: bytes)
      requires Has(quorums, quorumID) && Has(databases, databaseID)
      modifies this
      ensures View() == S.AddTable(old(View()), databaseID, quorumID, name)
    {
      hide AsMap, Unique, Append, Put, Get, Has;
      var tableID, shardID := AppendTable(databaseID, quorumID, name);
      AddToDatabase(databaseID, tableID);
      var ok := AddToQuorum(quorumID, shardID);
    }

    method AppendTable(databaseID: nat, quorumID: nat, name: bytes) returns (tableID: nat, shardID: nat)
      modifies this`shards, this`tables, this`nextShardID, this`nextTableID
      ensures tableID == old(nextTableID) && shardID == old(nextShardID)
      ensures nextTableID == tableID + 1 && nextShardID == shardID + 1
      ensures shards == Append(old(shards), shardID, Shard(quorumID, tableID, SHARD_NORMAL, 0, [], [], 0, [], false))
      ensures tables == Append(old(tables), tableID, Table(databaseID, name, false, [shardID]))
    {
      hide AsMap, Unique;
      shardID, nextShardID := nextShardID, nextShardID + 1;
      shards := shards + [Keyed(shardID, Shard(quorumID, nextTableID, SHARD_NORMAL, 0, [], [], 0, [], false))];
      tableID, nextTableID := nextTableID, nextTableID + 1;
      tables := tables + [Keyed(tableID, Table(databaseID, name, false, [shardID]))];
    }

    method AddToDatabase(databaseID: nat, tableID: nat)
      requires Has(databases, databaseID)
      modifies this`databases
      ensures var d := Get(old(databases), databaseID);
              databases == Put(old(databases), databaseID, d.(tables := d.tables + [tableID]))
    {
      var d := Find(databases, databaseID);
      databases := databases[d := Keyed(databaseID, databases[d].obj.(tables := databases[d].obj.tables + [tableID]))];
    }

    method OnRenameTable(tableID: nat, name: bytes) returns (ok: bool)
      modifies this
      ensures S.OnRenameTable(old(View()), tableID, name) == if ok then Ok(View()) else Stopped
    {
      var t := Find(tables, tableID);
      if t == |tables| { return false; }
      t := FindTable(tables, tables[t].obj.databaseID, name);
      if t < |tables| && tables[t].id != tableID { return false; }
      t := Find(tables, tableID);
      tables := tables[t := Keyed(tableID, tables[t].obj.(name := name))];
      return true;
    }

    method OnDeleteTable(tableID: nat) returns (ok: bool)
      modifies this
      ensures S.OnDeleteTable(old(View()), tableID) == if ok then Ok(View()) else Stopped
    {
      var t := Find(tables, tableID);
      if t == |tables| { return false; }
      var databaseID := tables[t].obj.databaseID;
      var d := Find(databases, databaseID);
      if d == |databases| { return false; }
      ok := DeleteTable(tableID);
      if !ok { return; }
      d := Find(databases, databaseID);
      if d == |databases| { return false; }
      databases := databases[d := Keyed(databaseID, databases[d].obj.(tables := Remove(databases[d].obj.tables, tableID)))];
    }

    method SetFrozen(tableID: nat, frozen: bool) returns (ok: bool)
      modifies this
      ensures OnSetFrozen(old(View()), tableID, frozen) == if ok then Ok(View()) else Stopped
    {
      var t := Find(tables, tableID);
      if t == |tables| { return false; }
      tables := tables[t := Keyed(tableID, tables[t].obj.(isFrozen := frozen))];
      return true;
    }

    method SetDatabaseFrozen(databaseID: nat, frozen: bool) returns (ok: bool)
      modifies this
      ensures OnSetDatabaseFrozen(old(View()), databaseID, frozen) == if ok then Ok(View()) else Stopped
    {
      var d := Find(databases, databaseID);
      if d == |databases| { return false; }
      var ids := databases[d].obj.tables;
      for k := 0 to |ids|
        invariant SetFrozenAll(View(), ids[k..], frozen) == SetFrozenAll(old(View()), ids, frozen)
      {
        assert ids[k..][1..] == ids[k + 1..];
        ok := SetFrozen(ids[k], frozen);
        if !ok { return; }
      }
      return true;
    }

    method NewShard(shard: Shard) returns (shardID: nat)
      modifies this`shards, this`nextShardID
      ensures shardID == old(nextShardID)
      ensures View() == old(View()).(shards := old(shards) + [Keyed(shardID, shard)], nextShardID := shardID + 1)
    {
      shardID := nextShardID;
      shards, nextShardID := shards + [Keyed(shardID, shard)], shardID + 1;
    }

    method AddShard(tableID: nat, quorumID: nat, shard: Shard) returns (ok: bool)
      modifies this
      ensures ok == (Has(old(tables), tableID) && Has(old(quorums), quorumID))
      ensures ok ==> View() == S.AddShard(old(View()), tableID, quorumID, shard)
    {
      hide AsMap, Unique, NoDup, AddSorted, IndexOf;
      var shardID := NewShard(shard);
      ok := AddToQuorum(quorumID, shardID);
      if !ok { return; }
      ok := AddToTable(tableID, shardID);
    }

    method OnTruncateTableBegin(tableID: nat) returns (ok: bool)
      modifies this
      ensures S.OnTruncateTableBegin(old(View()), tableID) == if ok then Ok(View()) else Stopped
    {
      hide AsMap, Unique, NoDup, AddSorted, Remove, Sorted, IndexOf;
      var t := Find(tables, tableID);
      if t == |tables| { return false; }
      var d := Find(databases, tables[t].obj.databaseID);
      if d == |databases| { return false; }
      var quorumID;
      ok, quorumID := DeleteShardsOf(tableID);
      if !ok { return; }
      ok := AddShard(tableID, quorumID, Shard(quorumID, tableID, SHARD_TRUNC_CREATING, 0, [], [], 0, [], false));
    }

    method OnTruncateTableComplete(tableID: nat) returns (ok: bool)
      modifies this
      ensures S.OnTruncateTableComplete(old(View()), tableID) == if ok then Ok(View()) else Stopped
    {
      var t := Find(tables, tableID);
      if t == |tables| { return false; }
      if |tables[t].obj.shards| == 0 { return false; }
      var i := Find(shards, tables[t].obj.shards[0]);
      if i == |shards| || shards[i].obj.state != SHARD_TRUNC_CREATING { return false; }
      shards := shards[i := Keyed(shards[i].id, shards[i].obj.(state := SHARD_NORMAL))];
      return true;
    }

    method OnSplitShardBegin(shardID: nat, splitKey: bytes) returns (ok: bool, newID: nat)
      modifies this
      ensures S.OnSplitShardBegin(old(View()), shardID, splitKey) == if ok then Ok(View()) else Stopped
      ensures ok && Has(old(shards), shardID) ==> newID == old(nextShardID)
    {
      hide AsMap, Unique, NoDup, AddSorted, Remove, Sorted, IndexOf;
      newID := nextShardID;
      var i := Find(shards, shardID);
      if i == |shards| {
        isSplitting := false;
        return true, newID;
      }
      var parent := shards[i].obj;
      shards := shards[i := Keyed(shardID, parent.(lastKey := splitKey))];
      ok := AddShard(parent.tableID, parent.quorumID,
        Shard(parent.quorumID, parent.tableID, SHARD_SPLIT_CREATING, shardID, splitKey, parent.lastKey, 0, [], false));
    }

    method OnSplitShardComplete(shardID: nat) returns (ok: bool)
      modifies this
      ensures S.OnSplitShardComplete(old(View()), shardID) == if ok then Ok(View()) else Stopped
    {
      var i := Find(shards, shardID);
      if i == |shards| { return false; }
      shards := shards[i := Keyed(shardID, shards[i].obj.(state := SHARD_NORMAL))];
      return true;
    }

    method ReplaceInTable(tableID: nat, srcShardID: nat, dstShardID: nat) returns (ok: bool)
      modifies this`tables
      ensures ok <==> Has(old(tables), tableID)
      ensures ok ==> var t := Get(old(tables), tableID);
                     tables == Put(old(tables), tableID, t.(shards := Remove(t.shards, srcShardID) + [dstShardID]))
      ensures View() == old(View()).(tables := tables)
    {
      hide AsMap, Unique, NoDup, Remove, IndexOf;
      ok := RemoveFromTable(tableID, srcShardID);
      if !ok { return; }
      ok := AddToTable(tableID, dstShardID);
      ghost var t := Get(old(tables), tableID);
      PutPut(old(tables), tableID, t.(shards := Remove(t.shards, srcShardID)),
             t.(shards := Remove(t.shards, srcShardID) + [dstShardID]));
    }

    method OnShardMigrationComplete(quorumID: nat, srcShardID: nat, dstShardID: nat) returns (ok: bool)
      modifies this
      ensures S.OnShardMigrationComplete(old(View()), quorumID, srcShardID, dstShardID) == if ok then Ok(View()) else Stopped
    {
      hide AsMap, Unique, NoDup, AddSorted, Remove, Sorted, IndexOf;
      var i := Find(shards, srcShardID);
      if i == |shards| { return true; }
      var shard := shards[i].obj;
      ok := RemoveFromQuorum(shard.quorumID, srcShardID);
      if !ok { return; }
      ok := ReplaceInTable(shard.tableID, srcShardID, dstShardID);
      if !ok { return; }
      SetShards(shards[i := Keyed(dstShardID, shard.(quorumID := quorumID))]);
      ok := AddToQuorum(quorumID, dstShardID);
    }

    method OnServerMessage(m: Message) returns (ok: bool, number: nat)
      requires m.RegisterShardServer? || m.UnregisterShardServer? || m.SetPriority?
      modifies this
      ensures S.OnMessage(old(View()), m) == if ok then Ok(View()) else Stopped
    {
      hide S.OnRegisterShardServer, S.OnUnregisterShardServer, S.OnSetPriority;
      ok, number := true, *;
      match m
      case RegisterShardServer(nodeID, endpoint) => number := OnRegisterShardServer(nodeID, endpoint);
      case UnregisterShardServer(nodeID) => OnUnregisterShardServer(nodeID);
      case SetPriority(quorumID, nodeID, priority) => ok := OnSetPriority(quorumID, nodeID, priority);
    }

    method OnQuorumMessage(m: Message) returns (ok: bool, number: nat)
      requires m.CreateQuorum? || m.RenameQuorum? || m.DeleteQuorum? || m.AddShardServerToQuorum?
               || m.RemoveShardServerFromQuorum? || m.ActivateShardServer? || m.DeactivateShardServer?
      modifies this
      ensures S.OnMessage(old(View()), m) == if ok then Ok(View()) else Stopped
      ensures m.CreateQuorum? ==> number == old(nextQuorumID)
    {
      hide S.OnCreateQuorum, S.OnRenameQuorum, S.OnDeleteQuorum, S.OnAddNode, S.OnRemoveNode, S.OnActivateShardServer,
        S.OnDeactivateShardServer;
      ok, number := true, *;
      match m
      case CreateQuorum(name, nodes) => number := OnCreateQuorum(name, nodes);
      case RenameQuorum(quorumID, name) => ok := OnRenameQuorum(quorumID, name);
      case DeleteQuorum(quorumID) => ok := OnDeleteQuorum(quorumID);
      case AddShardServerToQuorum(quorumID, nodeID) => ok := OnAddNode(quorumID, nodeID);
      case RemoveShardServerFromQuorum(quorumID, nodeID) => ok := OnRemoveNode(quorumID, nodeID);
      case ActivateShardServer(quorumID, nodeID, _) => ok := OnActivateShardServer(quorumID, nodeID);
      case DeactivateShardServer(quorumID, nodeID, _) => ok := OnDeactivateShardServer(quorumID, nodeID);
    }

    method OnDatabaseMessage(m: Message) returns (ok: bool, number: nat)
      requires m.CreateDatabase? || m.RenameDatabase? || m.DeleteDatabase? || m.FreezeDatabase? || m.UnfreezeDatabase?
      modifies this
      ensures S.OnMessage(old(View()), m) == if ok then Ok(View()) else Stopped
      ensures ok && m.CreateDatabase? ==> number == old(nextDatabaseID)
    {
      hide S.OnCreateDatabase, S.OnRenameDatabase, S.OnDeleteDatabase, S.OnSetDatabaseFrozen;
      ok, number := true, *;
      match m
      case CreateDatabase(name) => ok, number := OnCreateDatabase(name);
      case RenameDatabase(databaseID, name) => ok := OnRenameDatabase(databaseID, name);
      case DeleteDatabase(databaseID) => ok := OnDeleteDatabase(databaseID);
      case FreezeDatabase(databaseID) => ok := SetDatabaseFrozen(databaseID, true);
      case UnfreezeDatabase(databaseID) => ok := SetDatabaseFrozen(databaseID, false);
    }

    method OnTableMessage(m: Message) returns (ok: bool, number: nat)
      requires m.CreateTable? || m.RenameTable? || m.DeleteTable? || m.FreezeTable? || m.UnfreezeTable?
               || m.TruncateTableBegin? || m.TruncateTableComplete?
      modifies this
      ensures S.OnMessage(old(View()), m) == if ok then Ok(View()) else Stopped
      ensures ok && m.CreateTable? ==> number == old(nextTableID)
    {
      hide S.OnCreateTable, S.OnRenameTable, S.OnDeleteTable, S.OnSetFrozen, S.OnTruncateTableBegin, S.OnTruncateTableComplete;
      ok, number := true, *;
      var shardID;
      match m
      case CreateTable(databaseID, quorumID, name) => ok, number, shardID := OnCreateTable(databaseID, quorumID, name);
      case RenameTable(tableID, name) => ok := OnRenameTable(tableID, name);
      case DeleteTable(tableID) => ok := OnDeleteTable(tableID);
      case FreezeTable(tableID) => ok := SetFrozen(tableID, true);
      case UnfreezeTable(tableID) => ok := SetFrozen(tableID, false);
      case TruncateTableBegin(tableID) => ok := OnTruncateTableBegin(tableID);
      case TruncateTableComplete(tableID) => ok := OnTruncateTableComplete(tableID);
    }

    method OnShardMessage(m: Message) returns (ok: bool, number: nat)
      requires m.SetClusterID? || m.SplitShardBegin? || m.SplitShardComplete? || m.ShardMigrationBegin?
               || m.ShardMigrationComplete?
      modifies this
      ensures S.OnMessage(old(View()), m) == if ok then Ok(View()) else Stopped
      ensures ok && GivenNumber(old(View()), m).Some? ==> number == GivenNumber(old(View()), m).value
    {
      hide S.OnSplitShardBegin, S.OnSplitShardComplete, S.OnShardMigrationComplete;
      ok, number := true, *;
      match m
      case SetClusterID(_) =>
      case ShardMigrationBegin(_, _) =>
      case SplitShardBegin(id, splitKey) => ok, number := OnSplitShardBegin(id, splitKey);
      case SplitShardComplete(id) => ok := OnSplitShardComplete(id);
      case ShardMigrationComplete(quorumID, src, dst) => ok := OnShardMigrationComplete(quorumID, src, dst);
    }

    // Where no object is created, the number in the message keeps an arbitrary value.
    method OnMessage(m: Message) returns (ok: bool, number: nat)
      modifies this
      ensures S.OnMessage(old(View()), m) == if ok then Ok(View()) else Stopped
      ensures ok && GivenNumber(old(View()), m).Some? ==> number == GivenNumber(old(View()), m).value
    {
      hide S.OnMessage;
      if m.RegisterShardServer? || m.UnregisterShardServer? || m.SetPriority? {
        ok, number := OnServerMessage(m);
      } else if m.CreateQuorum? || m.RenameQuorum? || m.DeleteQuorum? || m.AddShardServerToQuorum?
                || m.RemoveShardServerFromQuorum? || m.ActivateShardServer? || m.DeactivateShardServer? {
        ok, number := OnQuorumMessage(m);
      } else if m.CreateDatabase? || m.RenameDatabase? || m.DeleteDatabase? || m.FreezeDatabase? || m.UnfreezeDatabase? {
        ok, number := OnDatabaseMessage(m);
      } else if m.CreateTable? || m.RenameTable? || m.DeleteTable? || m.FreezeTable? || m.UnfreezeTable?
                || m.TruncateTableBegin? || m.TruncateTableComplete? {
        ok, number := OnTableMessage(m);
      } else {
        ok, number := OnShardMessage(m);
      }
    }
  }
}

// The search loops.
module Lookups {
  import opened Bytes
  import opened KeyedLists
  import opened Schema

  method Find<T>(l: seq<Keyed<T>>, id: nat) returns (i: nat)
    ensures i == IndexOf(l, id)
    ensures i < |l| <==> Has(l, id)
  {
    i := 0;
    while i < |l| && l[i].id != id
      invariant i <= |l| && IndexOf(l, id) == i + IndexOf(l[i..], id)
    {
      assert l[i..][1..] == l[i + 1..];
      i := i + 1;
    }
  }

  method FindQuorum(l: seq<Keyed<Quorum>>, name: bytes) returns (i: nat)
    ensures i == QuorumNamed(l, name)
  {
    i := 0;
    while i < |l| && Cmp(l[i].obj.name, name) != 0
      invariant i <= |l| && QuorumNamed(l, name) == i + QuorumNamed(l[i..], name)
    {
      CmpEqual(l[i].obj.name, name);
      assert l[i..][1..] == l[i + 1..];
      i := i + 1;
    }
    if i < |l| { CmpEqual(l[i].obj.name, name); }
  }

  method FindDatabase(l: seq<Keyed<Database>>, name: bytes) returns (i: nat)
    ensures i == DatabaseNamed(l, name)
  {
    i := 0;
    while i < |l| && l[i].obj.name != name
      invariant i <= |l| && DatabaseNamed(l, name) == i + DatabaseNamed(l[i..], name)
    {
      assert l[i..][1..] == l[i + 1..];
      i := i + 1;
    }
  }

  method FindTable(l: seq<Keyed<Table>>, databaseID: nat, name: bytes) returns (i: nat)
    ensures i == TableNamed(l, databaseID, name)
  {
    i := 0;
    while i < |l| && !(l[i].obj.databaseID == databaseID && l[i].obj.name == name)
      invariant i <= |l| && TableNamed(l, databaseID, name) == i + TableNamed(l[i..], databaseID, name)
    {
      assert l[i..][1..] == l[i + 1..];
      i := i + 1;
    }
  }

  method SetIn(l: seq<QuorumPriority>, quorumID: nat, priority: nat) returns (r: seq<QuorumPriority>)
    ensures r == WithPriority(l, quorumID, priority)
  {
    var k := 0;
    while k < |l| && l[k].quorumID != quorumID
      invariant k <= |l|
      invariant WithPriority(l, quorumID, priority) == l[..k] + WithPriority(l[k..], quorumID, priority)
    {
      assert l[k..][1..] == l[k + 1..];
      k := k + 1;
    }
    if k < |l| {
      assert l[k := QuorumPriority(quorumID, priority)] == l[..k] + ([QuorumPriority(quorumID, priority)] + l[k + 1..]);
      return l[k := QuorumPriority(quorumID, priority)];
    }
    assert l[..k] == l;
    return l + [QuorumPriority(quorumID, priority)];
  }
}
