// The state of a controller and the steps that a log entry takes on it, as functions: the check of
// a message before it is proposed (Complete*) and its effect when it is applied (On*), after
// src/Application/ConfigState/ConfigState.cpp.  ConfigState.dfy proves the code that works in
// place against these functions.

module Schema {
  import opened Bytes
  import opened KeyedLists
  import opened ConfigMessages
  import Decimal

  const CONFIG_MIN_SHARD_NODE_ID: nat := 100
  const DATABASE_NAME_SIZE: nat := 1024

  const SHARD_NORMAL: nat := 0
  const SHARD_SPLIT_CREATING: nat := 1
  const SHARD_TRUNC_CREATING: nat := 2

  // The fields from isActivatingNode on are not replicated; only the master keeps them.
  datatype Quorum = Quorum(
    name: bytes,
    activeNodes: seq<nat>,
    inactiveNodes: seq<nat>,
    shards: seq<nat>,
    isActivatingNode: bool,
    isWatchingPaxosID: bool,
    isReplicatingActivation: bool,
    configID: nat,
    activatingNodeID: nat,
    activationPaxosID: nat,
    activationExpireTime: nat,
    hasPrimary: bool,
    primaryID: nat,
    paxosID: nat)
  {
    predicate IsActiveMember(nodeID: nat) { nodeID in activeNodes }

    predicate IsInactiveMember(nodeID: nat) { nodeID in inactiveNodes }

    predicate IsMember(nodeID: nat) { IsActiveMember(nodeID) || IsInactiveMember(nodeID) }

    predicate Unsettled() { isActivatingNode || |inactiveNodes| > 0 }

    function ClearActivation(): Quorum {
      this.(isActivatingNode := false, isWatchingPaxosID := false, isReplicatingActivation := false,
            activatingNodeID := 0, activationPaxosID := 0, activationExpireTime := 0)
    }
  }

  // A quorum as its constructor leaves it.
  const NewQuorum: Quorum :=
    Quorum([], [], [], [], false, false, false, 0, 0, 0, 0, false, 0, 0)

  datatype Database = Database(name: bytes, tables: seq<nat>)

  datatype Table = Table(databaseID: nat, name: bytes, isFrozen: bool, shards: seq<nat>)

  // shardSize, splitKey and isSplitable are reported by shard servers and not replicated.
  datatype Shard = Shard(
    quorumID: nat,
    tableID: nat,
    state: nat,
    parentShardID: nat,
    firstKey: bytes,
    lastKey: bytes,
    shardSize: nat,
    splitKey: bytes,
    isSplitable: bool)

  datatype QuorumPriority = QuorumPriority(quorumID: nat, priority: nat)

  datatype QuorumInfo = QuorumInfo(
    quorumID: nat, paxosID: nat, needCatchup: bool, unused1: nat, unused2: nat, unused3: nat)

  // The fields from activationPhase on are not replicated.
  datatype ShardServer = ShardServer(
    endpoint: bytes,
    quorumPriorities: seq<QuorumPriority>,
    activationPhase: int,
    nextActivationTime: nat,
    quorumInfos: seq<QuorumInfo>,
    httpPort: nat,
    sdbpPort: nat,
    hasHeartbeat: bool)

  function NewShardServer(endpoint: bytes): ShardServer {
    ShardServer(endpoint, [], 0, 0, [], 0, 0, false)
  }

  datatype State = State(
    // not replicated
    hasMaster: bool,
    masterID: nat,
    paxosID: nat,
    isSplitting: bool,
    isMigrating: bool,
    migrateSrcShardID: nat,
    migrateDstShardID: nat,
    migrateQuorumID: nat,
    // replicated
    quorums: seq<Keyed<Quorum>>,
    databases: seq<Keyed<Database>>,
    tables: seq<Keyed<Table>>,
    shards: seq<Keyed<Shard>>,
    shardServers: seq<Keyed<ShardServer>>,
    nextQuorumID: nat,
    nextDatabaseID: nat,
    nextTableID: nat,
    nextShardID: nat,
    nextNodeID: nat)

  // The state after Init.
  const EmptyState: State :=
    State(false, 0, 0, false, false, 0, 0, 0, [], [], [], [], [], 1, 1, 1, 1, CONFIG_MIN_SHARD_NODE_ID)

  // An ASSERT that fails or a null pointer that is followed stops the controller: Stopped.
  datatype Result<+T> = Ok(value: T) | Stopped {
    predicate IsFailure() { Stopped? }
    function PropagateFailure<U>(): Result<U> requires Stopped? { Stopped }
    function Extract(): T requires Ok? { value }
  }

  // The result of CompleteMessage: accepting a split also marks the state as splitting.
  datatype Verdict = Accepted(state: State) | Rejected | Aborted

  // ---- lookups by name and key

  function QuorumNamed(l: seq<Keyed<Quorum>>, name: bytes): (i: nat)
    ensures i <= |l|
    ensures i < |l| ==> l[i].obj.name == name
    ensures forall j :: 0 <= j < i ==> l[j].obj.name != name
  {
    if l == [] then 0 else if l[0].obj.name == name then 0 else 1 + QuorumNamed(l[1..], name)
  }

  function DatabaseNamed(l: seq<Keyed<Database>>, name: bytes): (i: nat)
    ensures i <= |l|
    ensures i < |l| ==> l[i].obj.name == name
    ensures forall j :: 0 <= j < i ==> l[j].obj.name != name
  {
    if l == [] then 0 else if l[0].obj.name == name then 0 else 1 + DatabaseNamed(l[1..], name)
  }

  function TableNamed(l: seq<Keyed<Table>>, databaseID: nat, name: bytes): (i: nat)
    ensures i <= |l|
    ensures i < |l| ==> l[i].obj.databaseID == databaseID && l[i].obj.name == name
    ensures forall j :: 0 <= j < i ==> !(l[j].obj.databaseID == databaseID && l[j].obj.name == name)
  {
    if l == [] then 0
    else if l[0].obj.databaseID == databaseID && l[0].obj.name == name then 0
    else 1 + TableNamed(l[1..], databaseID, name)
  }

  predicate IsAsciiPrintable(name: bytes) {
    forall i :: 0 <= i < |name| ==> 32 <= name[i] <= 127
  }

  predicate GoodName(name: bytes) { |name| <= DATABASE_NAME_SIZE && IsAsciiPrintable(name) }

  // ---- Complete*: may the message be proposed?

  // The check of CompleteTruncateTableBegin, shard by shard; both lookups are asserted.
  function TruncateVerdict(s: State, shardIDs: seq<nat>): Verdict {
    if shardIDs == [] then Accepted(s)
    else if !Has(s.shards, shardIDs[0]) then Aborted
    else if !Has(s.quorums, Get(s.shards, shardIDs[0]).quorumID) then Aborted
    else if Get(s.quorums, Get(s.shards, shardIDs[0]).quorumID).Unsettled() then Rejected
    else TruncateVerdict(s, shardIDs[1..])
  }

  function Check(s: State, ok: bool): Verdict { if ok then Accepted(s) else Rejected }

  function CompleteMessage(s: State, m: Message): Verdict {
    match m
    case SetClusterID(_) => Accepted(s)
    case RegisterShardServer(_, _) => Accepted(s)
    case UnregisterShardServer(nodeID) =>
      Check(s, Has(s.shardServers, nodeID) &&
               forall k :: 0 <= k < |s.quorums| ==> !s.quorums[k].obj.IsMember(nodeID))
    case CreateQuorum(name, nodes) =>
      Check(s, GoodName(name) && (forall n :: n in nodes ==> Has(s.shardServers, n)) &&
               QuorumNamed(s.quorums, name) == |s.quorums|)
    case RenameQuorum(quorumID, name) =>
      Check(s, GoodName(name) && Has(s.quorums, quorumID) && QuorumNamed(s.quorums, name) == |s.quorums|)
    case DeleteQuorum(quorumID) =>
      Check(s, Has(s.quorums, quorumID) && Get(s.quorums, quorumID).shards == [])
    case AddShardServerToQuorum(quorumID, nodeID) =>
      Check(s, Has(s.quorums, quorumID) && !Get(s.quorums, quorumID).IsMember(nodeID))
    case RemoveShardServerFromQuorum(quorumID, nodeID) =>
      Check(s, Has(s.quorums, quorumID) &&
               (Get(s.quorums, quorumID).IsInactiveMember(nodeID) ||
                (Get(s.quorums, quorumID).IsActiveMember(nodeID) &&
                 |Get(s.quorums, quorumID).activeNodes| > 1)))
    case ActivateShardServer(quorumID, nodeID, _) =>
      Check(s, Has(s.quorums, quorumID) && Get(s.quorums, quorumID).IsInactiveMember(nodeID))
    case DeactivateShardServer(quorumID, nodeID, force) =>
      Check(s, Has(s.quorums, quorumID) && Get(s.quorums, quorumID).IsActiveMember(nodeID) &&
               (force || |Get(s.quorums, quorumID).activeNodes| != 1))
    case SetPriority(quorumID, nodeID, _) =>
      Check(s, Has(s.quorums, quorumID) && Has(s.shardServers, nodeID) &&
               Get(s.quorums, quorumID).IsMember(nodeID))
    case CreateDatabase(name) =>
      Check(s, GoodName(name) && DatabaseNamed(s.databases, name) == |s.databases|)
    case RenameDatabase(databaseID, name) =>
      var i := DatabaseNamed(s.databases, name);
      Check(s, GoodName(name) && Has(s.databases, databaseID) &&
               (i < |s.databases| ==> s.databases[i].id == databaseID))
    case DeleteDatabase(databaseID) => Check(s, Has(s.databases, databaseID))
    case CreateTable(databaseID, quorumID, name) =>
      Check(s, GoodName(name) && Has(s.quorums, quorumID) && Has(s.databases, databaseID) &&
               TableNamed(s.tables, databaseID, name) == |s.tables|)
    case RenameTable(tableID, name) =>
      Check(s, GoodName(name) && Has(s.tables, tableID) &&
               var i := TableNamed(s.tables, Get(s.tables, tableID).databaseID, name);
               (i < |s.tables| ==> s.tables[i].id == tableID))
    case DeleteTable(tableID) => Check(s, Has(s.tables, tableID))
    case FreezeTable(tableID) => Check(s, Has(s.tables, tableID))
    case UnfreezeTable(tableID) => Check(s, Has(s.tables, tableID))
    case FreezeDatabase(databaseID) => Check(s, Has(s.databases, databaseID))
    case UnfreezeDatabase(databaseID) => Check(s, Has(s.databases, databaseID))
    case TruncateTableBegin(tableID) =>
      if !Has(s.tables, tableID) then Rejected else TruncateVerdict(s, Get(s.tables, tableID).shards)
    case TruncateTableComplete(_) => Accepted(s)
    case SplitShardBegin(shardID, splitKey) => CompleteSplitShardBegin(s, shardID, splitKey)
    case SplitShardComplete(shardID) =>
      if !Has(s.shards, shardID) then Aborted
      else Check(s, Get(s.shards, shardID).state == SHARD_SPLIT_CREATING)
    case ShardMigrationBegin(quorumID, _) =>
      Check(s, Has(s.quorums, quorumID) && !Get(s.quorums, quorumID).Unsettled())
    case ShardMigrationComplete(quorumID, srcShardID, _) =>
      Check(s, s.isMigrating && s.migrateQuorumID == quorumID && s.migrateSrcShardID == srcShardID)
  }

  function CompleteSplitShardBegin(s: State, shardID: nat, splitKey: bytes): Verdict {
    if !Has(s.shards, shardID) then Rejected
    else
      var shard := Get(s.shards, shardID);
      if !Has(s.quorums, shard.quorumID) then Rejected
      else if Get(s.quorums, shard.quorumID).Unsettled() then Rejected
      else if !RangeContains(shard.firstKey, shard.lastKey, splitKey) then Rejected
      else if Cmp(shard.firstKey, splitKey) == 0 then Rejected
      else if Cmp(shard.lastKey, splitKey) == 0 then Rejected
      else if s.isSplitting then Rejected
      else Accepted(s.(isSplitting := true))
  }

  // ---- On*: the effect of a log entry

  function AbortShardMigration(s: State): State {
    s.(isMigrating := false, migrateQuorumID := 0, migrateSrcShardID := 0, migrateDstShardID := 0)
  }

  function OnRegisterShardServer(s: State, nodeID: nat, endpoint: bytes): State {
    if Has(s.shardServers, nodeID) then
      s.(shardServers := Put(s.shardServers, nodeID, Get(s.shardServers, nodeID).(endpoint := endpoint)))
    else
      s.(shardServers := Append(s.shardServers, s.nextNodeID, NewShardServer(endpoint)),
         nextNodeID := s.nextNodeID + 1)
  }

  function OnUnregisterShardServer(s: State, nodeID: nat): State {
    if Has(s.shardServers, nodeID) then s.(shardServers := Drop(s.shardServers, nodeID)) else s
  }

  // "quorum " followed by the number of the quorum
  function DefaultQuorumName(quorumID: nat): bytes {
    [113, 117, 111, 114, 117, 109, 32] + Decimal.Digits(quorumID)
  }

  function OnCreateQuorum(s: State, name: bytes, nodes: seq<nat>): State {
    var q := NewQuorum.(
      name := if |name| > 0 then name else DefaultQuorumName(s.nextQuorumID),
      activeNodes := AddAll([], nodes));
    s.(quorums := Append(s.quorums, s.nextQuorumID, q), nextQuorumID := s.nextQuorumID + 1)
  }

  function PutQuorum(s: State, quorumID: nat, q: Quorum): State
    requires Has(s.quorums, quorumID)
  {
    s.(quorums := Put(s.quorums, quorumID, q))
  }

  function OnRenameQuorum(s: State, quorumID: nat, name: bytes): Result<State> {
    if QuorumNamed(s.quorums, name) < |s.quorums| || !Has(s.quorums, quorumID) then Stopped
    else Ok(PutQuorum(s, quorumID, Get(s.quorums, quorumID).(name := name)))
  }

  function OnDeleteQuorum(s: State, quorumID: nat): Result<State> {
    if !Has(s.quorums, quorumID) then Stopped
    else Ok(s.(quorums := Drop(s.quorums, quorumID)))
  }

  function OnAddNode(s: State, quorumID: nat, nodeID: nat): Result<State> {
    if !Has(s.quorums, quorumID) then Stopped
    else
      var q := Get(s.quorums, quorumID);
      if q.IsMember(nodeID) then Stopped
      else Ok(PutQuorum(s, quorumID, q.(inactiveNodes := AddSorted(q.inactiveNodes, nodeID))))
  }

  function OnRemoveNode(s: State, quorumID: nat, nodeID: nat): Result<State> {
    if !Has(s.quorums, quorumID) then Stopped
    else
      var q := Get(s.quorums, quorumID);
      if q.IsActiveMember(nodeID) then
        Ok(PutQuorum(s, quorumID, q.(activeNodes := Remove(q.activeNodes, nodeID))))
      else if q.IsInactiveMember(nodeID) then
        Ok(PutQuorum(s, quorumID, q.(inactiveNodes := Remove(q.inactiveNodes, nodeID))))
      else Stopped
  }

  function OnActivateShardServer(s: State, quorumID: nat, nodeID: nat): Result<State> {
    if !Has(s.quorums, quorumID) then Stopped
    else
      var q := Get(s.quorums, quorumID);
      if !q.IsInactiveMember(nodeID) then Stopped
      else
        var q1 := q.(inactiveNodes := Remove(q.inactiveNodes, nodeID),
                     activeNodes := AddSorted(q.activeNodes, nodeID));
        if !q.isActivatingNode then Ok(PutQuorum(s, quorumID, q1))
        else if !Has(s.shardServers, q.activatingNodeID) then Stopped
        else Ok(PutQuorum(s, quorumID, q1.ClearActivation()))
  }

  function OnDeactivateShardServer(s: State, quorumID: nat, nodeID: nat): Result<State> {
    if !Has(s.quorums, quorumID) then Stopped
    else
      var q := Get(s.quorums, quorumID);
      if !q.IsActiveMember(nodeID) then Stopped
      else Ok(PutQuorum(s, quorumID, q.(activeNodes := Remove(q.activeNodes, nodeID),
                                        inactiveNodes := AddSorted(q.inactiveNodes, nodeID))))
  }

  function WithPriority(l: seq<QuorumPriority>, quorumID: nat, priority: nat): seq<QuorumPriority> {
    if l == [] then [QuorumPriority(quorumID, priority)]
    else if l[0].quorumID == quorumID then [QuorumPriority(quorumID, priority)] + l[1..]
    else [l[0]] + WithPriority(l[1..], quorumID, priority)
  }

  function OnSetPriority(s: State, quorumID: nat, nodeID: nat, priority: nat): Result<State> {
    if !Has(s.shardServers, nodeID) then Stopped
    else
      var server := Get(s.shardServers, nodeID);
      Ok(s.(shardServers := Put(s.shardServers, nodeID,
             server.(quorumPriorities := WithPriority(server.quorumPriorities, quorumID, priority)))))
  }

  function OnCreateDatabase(s: State, name: bytes): Result<State> {
    if DatabaseNamed(s.databases, name) < |s.databases| then Stopped
    else Ok(s.(databases := Append(s.databases, s.nextDatabaseID, Database(name, [])),
               nextDatabaseID := s.nextDatabaseID + 1))
  }

  function OnRenameDatabase(s: State, databaseID: nat, name: bytes): Result<State> {
    var i := DatabaseNamed(s.databases, name);
    if (i < |s.databases| && s.databases[i].id != databaseID) || !Has(s.databases, databaseID) then Stopped
    else Ok(s.(databases := Put(s.databases, databaseID, Get(s.databases, databaseID).(name := name))))
  }

  function DeleteShard(s: State, shardID: nat): Result<State>
    requires Has(s.shards, shardID)
  {
    var shard := Get(s.shards, shardID);
    var s1 := if s.isMigrating && s.migrateSrcShardID == shardID then AbortShardMigration(s) else s;
    if !Has(s.quorums, shard.quorumID) || !Has(s.tables, shard.tableID) then Stopped
    else
      var q, t := Get(s.quorums, shard.quorumID), Get(s.tables, shard.tableID);
      Ok(s1.(quorums := Put(s.quorums, shard.quorumID, q.(shards := Remove(q.shards, shardID))),
             tables := Put(s.tables, shard.tableID, t.(shards := Remove(t.shards, shardID))),
             shards := Drop(s.shards, shardID)))
  }

  // The loop that deletes the first shard of a table until there is none.
  function DeleteShardsOf(s: State, tableID: nat): (r: Result<State>)
    requires Has(s.tables, tableID)
    ensures r.Ok? ==> Has(r.value.tables, tableID)
    decreases |s.shards|
  {
    var shards := Get(s.tables, tableID).shards;
    if shards == [] then Ok(s)
    else if !Has(s.shards, shards[0]) then Stopped
    else
      var s1 :- DeleteShard(s, shards[0]);
      DeleteShardsOf(s1, tableID)
  }

  function EraseTable(s: State, tableID: nat): Result<State>
    requires Has(s.tables, tableID)
  {
    var s1 :- DeleteShardsOf(s, tableID);
    Ok(s1.(tables := Drop(s1.tables, tableID)))
  }

  function EraseTables(s: State, tableIDs: seq<nat>): Result<State>
    decreases |tableIDs|
  {
    if tableIDs == [] then Ok(s)
    else if !Has(s.tables, tableIDs[0]) then Stopped
    else
      var s1 :- EraseTable(s, tableIDs[0]);
      EraseTables(s1, tableIDs[1..])
  }

  function OnDeleteDatabase(s: State, databaseID: nat): Result<State> {
    if !Has(s.databases, databaseID) then Stopped
    else
      var s1 :- EraseTables(s, Get(s.databases, databaseID).tables);
      if !Has(s1.databases, databaseID) then Stopped
      else Ok(s1.(databases := Drop(s1.databases, databaseID)))
  }

  // A new table and its first shard.
  function AddTable(s: State, databaseID: nat, quorumID: nat, name: bytes): State
    requires Has(s.quorums, quorumID) && Has(s.databases, databaseID)
  {
    var q, d := Get(s.quorums, quorumID), Get(s.databases, databaseID);
    var shard := Shard(quorumID, s.nextTableID, SHARD_NORMAL, 0, [], [], 0, [], false);
    s.(shards := Append(s.shards, s.nextShardID, shard),
       nextShardID := s.nextShardID + 1,
       tables := Append(s.tables, s.nextTableID, Table(databaseID, name, false, [s.nextShardID])),
       nextTableID := s.nextTableID + 1,
       databases := Put(s.databases, databaseID, d.(tables := d.tables + [s.nextTableID])),
       quorums := Put(s.quorums, quorumID, q.(shards := AddSorted(q.shards, s.nextShardID))))
  }

  function OnCreateTable(s: State, databaseID: nat, quorumID: nat, name: bytes): Result<State> {
    if !Has(s.quorums, quorumID) || !Has(s.databases, databaseID) || Has(s.tables, s.nextTableID)
       || TableNamed(s.tables, databaseID, name) < |s.tables| then Stopped
    else Ok(AddTable(s, databaseID, quorumID, name))
  }

  function OnRenameTable(s: State, tableID: nat, name: bytes): Result<State> {
    if !Has(s.tables, tableID) then Stopped
    else
      var i := TableNamed(s.tables, Get(s.tables, tableID).databaseID, name);
      if i < |s.tables| && s.tables[i].id != tableID then Stopped
      else Ok(s.(tables := Put(s.tables, tableID, Get(s.tables, tableID).(name := name))))
  }

  function OnDeleteTable(s: State, tableID: nat): Result<State> {
    if !Has(s.tables, tableID) then Stopped
    else
      var databaseID := Get(s.tables, tableID).databaseID;
      if !Has(s.databases, databaseID) then Stopped
      else
        var s1 :- EraseTable(s, tableID);
        if !Has(s1.databases, databaseID) then Stopped
        else
          var d := Get(s1.databases, databaseID);
          Ok(s1.(databases := Put(s1.databases, databaseID, d.(tables := Remove(d.tables, tableID)))))
  }

  function OnSetFrozen(s: State, tableID: nat, frozen: bool): Result<State> {
    if !Has(s.tables, tableID) then Stopped
    else Ok(s.(tables := Put(s.tables, tableID, Get(s.tables, tableID).(isFrozen := frozen))))
  }

  function SetFrozenAll(s: State, tableIDs: seq<nat>, frozen: bool): Result<State>
    decreases |tableIDs|
  {
    if tableIDs == [] then Ok(s)
    else
      var s1 :- OnSetFrozen(s, tableIDs[0], frozen);
      SetFrozenAll(s1, tableIDs[1..], frozen)
  }

  function OnSetDatabaseFrozen(s: State, databaseID: nat, frozen: bool): Result<State> {
    if !Has(s.databases, databaseID) then Stopped
    else SetFrozenAll(s, Get(s.databases, databaseID).tables, frozen)
  }

  // The quorum of the shard that this loop deletes last, or q if there is none.
  function DeletedQuorum(s: State, tableID: nat, q: nat): nat
    requires Has(s.tables, tableID)
    decreases |s.shards|
  {
    var shards := Get(s.tables, tableID).shards;
    if shards == [] || !Has(s.shards, shards[0]) || DeleteShard(s, shards[0]).Stopped? then q
    else DeletedQuorum(DeleteShard(s, shards[0]).value, tableID, Get(s.shards, shards[0]).quorumID)
  }

  // A new shard of a table, kept by a quorum, as truncation and splitting add it.
  function AddShard(s: State, tableID: nat, quorumID: nat, shard: Shard): State
    requires Has(s.tables, tableID) && Has(s.quorums, quorumID)
  {
    var q, t := Get(s.quorums, quorumID), Get(s.tables, tableID);
    s.(nextShardID := s.nextShardID + 1,
       tables := Put(s.tables, tableID, t.(shards := t.shards + [s.nextShardID])),
       shards := Append(s.shards, s.nextShardID, shard),
       quorums := Put(s.quorums, quorumID, q.(shards := AddSorted(q.shards, s.nextShardID))))
  }

  function OnTruncateTableBegin(s: State, tableID: nat): Result<State> {
    if !Has(s.tables, tableID) || !Has(s.databases, Get(s.tables, tableID).databaseID) then Stopped
    else
      var quorumID := DeletedQuorum(s, tableID, 0);
      var s1 :- DeleteShardsOf(s, tableID);
      if !Has(s1.quorums, quorumID) then Stopped
      else
        Ok(AddShard(s1, tableID, quorumID, Shard(quorumID, tableID, SHARD_TRUNC_CREATING, 0, [], [], 0, [], false)))
  }

  function OnTruncateTableComplete(s: State, tableID: nat): Result<State> {
    if !Has(s.tables, tableID) then Stopped
    else
      var shards := Get(s.tables, tableID).shards;
      if shards == [] || !Has(s.shards, shards[0]) then Stopped
      else if Get(s.shards, shards[0]).state != SHARD_TRUNC_CREATING then Stopped
      else Ok(s.(shards := Put(s.shards, shards[0], Get(s.shards, shards[0]).(state := SHARD_NORMAL))))
  }

  function OnSplitShardBegin(s: State, shardID: nat, splitKey: bytes): Result<State> {
    if !Has(s.shards, shardID) then Ok(s.(isSplitting := false))
    else
      var parent := Get(s.shards, shardID);
      if !Has(s.quorums, parent.quorumID) || !Has(s.tables, parent.tableID) then Stopped
      else
        var newShard := Shard(parent.quorumID, parent.tableID, SHARD_SPLIT_CREATING, shardID,
                              splitKey, parent.lastKey, 0, [], false);
        var s1 := s.(shards := Put(s.shards, shardID, parent.(lastKey := splitKey)));
        Ok(AddShard(s1, parent.tableID, parent.quorumID, newShard))
  }

  function OnSplitShardComplete(s: State, shardID: nat): Result<State> {
    if !Has(s.shards, shardID) then Stopped
    else Ok(s.(shards := Put(s.shards, shardID, Get(s.shards, shardID).(state := SHARD_NORMAL))))
  }

  function OnShardMigrationComplete(s: State, quorumID: nat, src: nat, dst: nat): Result<State> {
    if !Has(s.shards, src) then Ok(s)
    else
      var shard := Get(s.shards, src);
      if !Has(s.quorums, shard.quorumID) || !Has(s.tables, shard.tableID) then Stopped
      else
        var q, t := Get(s.quorums, shard.quorumID), Get(s.tables, shard.tableID);
        var quorums1 := Put(s.quorums, shard.quorumID, q.(shards := Remove(q.shards, src)));
        if !Has(quorums1, quorumID) then Stopped
        else
          var q1 := Get(quorums1, quorumID);
          Ok(s.(tables := Put(s.tables, shard.tableID, t.(shards := Remove(t.shards, src) + [dst])),
                shards := Rekey(s.shards, src, dst, shard.(quorumID := quorumID)),
                quorums := Put(quorums1, quorumID, q1.(shards := AddSorted(q1.shards, dst)))))
  }

  function OnMessage(s: State, m: Message): Result<State> {
    match m
    case SetClusterID(_) => Ok(s)
    case RegisterShardServer(nodeID, endpoint) => Ok(OnRegisterShardServer(s, nodeID, endpoint))
    case UnregisterShardServer(nodeID) => Ok(OnUnregisterShardServer(s, nodeID))
    case CreateQuorum(name, nodes) => Ok(OnCreateQuorum(s, name, nodes))
    case RenameQuorum(quorumID, name) => OnRenameQuorum(s, quorumID, name)
    case DeleteQuorum(quorumID) => OnDeleteQuorum(s, quorumID)
    case AddShardServerToQuorum(quorumID, nodeID) => OnAddNode(s, quorumID, nodeID)
    case RemoveShardServerFromQuorum(quorumID, nodeID) => OnRemoveNode(s, quorumID, nodeID)
    case ActivateShardServer(quorumID, nodeID, _) => OnActivateShardServer(s, quorumID, nodeID)
    case DeactivateShardServer(quorumID, nodeID, _) => OnDeactivateShardServer(s, quorumID, nodeID)
    case SetPriority(quorumID, nodeID, priority) => OnSetPriority(s, quorumID, nodeID, priority)
    case CreateDatabase(name) => OnCreateDatabase(s, name)
    case RenameDatabase(databaseID, name) => OnRenameDatabase(s, databaseID, name)
    case DeleteDatabase(databaseID) => OnDeleteDatabase(s, databaseID)
    case CreateTable(databaseID, quorumID, name) => OnCreateTable(s, databaseID, quorumID, name)
    case RenameTable(tableID, name) => OnRenameTable(s, tableID, name)
    case DeleteTable(tableID) => OnDeleteTable(s, tableID)
    case FreezeTable(tableID) => OnSetFrozen(s, tableID, true)
    case UnfreezeTable(tableID) => OnSetFrozen(s, tableID, false)
    case FreezeDatabase(databaseID) => OnSetDatabaseFrozen(s, databaseID, true)
    case UnfreezeDatabase(databaseID) => OnSetDatabaseFrozen(s, databaseID, false)
    case TruncateTableBegin(tableID) => OnTruncateTableBegin(s, tableID)
    case TruncateTableComplete(tableID) => OnTruncateTableComplete(s, tableID)
    case SplitShardBegin(shardID, splitKey) => OnSplitShardBegin(s, shardID, splitKey)
    case SplitShardComplete(shardID) => OnSplitShardComplete(s, shardID)
    case ShardMigrationBegin(_, _) => Ok(s)
    case ShardMigrationComplete(quorumID, src, dst) => OnShardMigrationComplete(s, quorumID, src, dst)
  }

  // The number that a message gives to the object it creates; a handler stores it in the message.
  function GivenNumber(s: State, m: Message): Option<nat> {
    match m
    case CreateQuorum(_, _) => Some(s.nextQuorumID)
    case CreateDatabase(_) => Some(s.nextDatabaseID)
    case CreateTable(_, _, _) => Some(s.nextTableID)
    case SplitShardBegin(shardID, _) => if Has(s.shards, shardID) then Some(s.nextShardID) else None
    case _ => None
  }
}
