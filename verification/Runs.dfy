// Whole runs of the replicated log: what every reachable state keeps, which numbers are given out
// and which never come back, and what a leader knows about the migration it started.

module Runs {
  import opened Bytes
  import opened KeyedLists
  import opened ConfigMessages
  import opened Schema
  import opened SchemaInvariant
  import opened SchemaSteps
  import opened Replication
  import opened Controllers

  // ---- the numbers in use

  // Every number that is new lies between the old counter and the new one.
  predicate Grows<T>(m: map<nat, T>, next: nat, m': map<nat, T>, next': nat) {
    next <= next' && forall id :: id in m' ==> id in m || next <= id < next'
  }

  predicate CatalogGrows(s: State, s': State) {
    && Grows(AsMap(s.quorums), s.nextQuorumID, AsMap(s'.quorums), s'.nextQuorumID)
    && Grows(AsMap(s.databases), s.nextDatabaseID, AsMap(s'.databases), s'.nextDatabaseID)
    && Grows(AsMap(s.tables), s.nextTableID, AsMap(s'.tables), s'.nextTableID)
    && Grows(AsMap(s.shardServers), s.nextNodeID, AsMap(s'.shardServers), s'.nextNodeID)
  }

  predicate ShardsGrow(s: State, s': State) {
    Grows(AsMap(s.shards), s.nextShardID, AsMap(s'.shards), s'.nextShardID)
  }

  // A migration is never started by a handler and ends if its source shard is deleted.
  predicate MigrationKept(s: State, s': State) {
    s'.isMigrating ==>
      s.isMigrating && s'.migrateSrcShardID == s.migrateSrcShardID && s'.migrateDstShardID == s.migrateDstShardID
      && (s.migrateSrcShardID in AsMap(s.shards) ==> s.migrateSrcShardID in AsMap(s'.shards))
  }

  // Everything but the name and the shards is the same.
  predicate SameMembers(q: Quorum, q': Quorum) {
    && q'.activeNodes == q.activeNodes && q'.inactiveNodes == q.inactiveNodes
    && q'.hasPrimary == q.hasPrimary && q'.primaryID == q.primaryID && q'.paxosID == q.paxosID
    && q'.isActivatingNode == q.isActivatingNode && q'.isWatchingPaxosID == q.isWatchingPaxosID
    && q'.isReplicatingActivation == q.isReplicatingActivation && q'.configID == q.configID
    && q'.activatingNodeID == q.activatingNodeID && q'.activationPaxosID == q.activationPaxosID
    && q'.activationExpireTime == q.activationExpireTime
  }

  // Every quorum was there before, with the same members, primary and activation.
  predicate MembersKept(s: State, s': State) {
    forall q :: q in AsMap(s'.quorums) ==> q in AsMap(s.quorums) && SameMembers(AsMap(s.quorums)[q], AsMap(s'.quorums)[q])
  }

  // The members and shards of every quorum are in order.
  predicate QuorumSorted(q: Quorum) { Sorted(q.activeNodes) && Sorted(q.inactiveNodes) && Sorted(q.shards) }

  predicate ListsSorted(s: State) { forall q :: q in AsMap(s.quorums) ==> QuorumSorted(AsMap(s.quorums)[q]) }

  predicate Deletes(s: State, s': State) {
    SameCounters(s, s') && MigrationKept(s, s') && MembersKept(s, s') && (ListsSorted(s) ==> ListsSorted(s'))
    && AsMap(s'.databases).Keys <= AsMap(s.databases).Keys
    && AsMap(s'.tables).Keys <= AsMap(s.tables).Keys && AsMap(s'.shards).Keys <= AsMap(s.shards).Keys
    && s'.shardServers == s.shardServers
  }

  lemma DeletesCompose(s: State, s': State, s'': State)
    requires Deletes(s, s') && Deletes(s', s'')
    ensures Deletes(s, s'')
  {}

  lemma DeletesNothing(s: State)
    ensures Deletes(s, s)
  {}

  lemma DeleteShardDeletes(s: State, id: nat)
    requires Has(s.shards, id) && DeleteShard(s, id).Ok?
    ensures Deletes(s, DeleteShard(s, id).value)
  {
    var q := Get(s.quorums, Get(s.shards, id).quorumID);
    if Sorted(q.shards) { RemoveSorted(q.shards, id); }
    hide Sorted, NoDup, Remove;
    DropKeys(s.shards, id);
  }

  lemma {:induction false} DeleteShardsOfDeletes(s: State, t: nat)
    requires Has(s.tables, t) && DeleteShardsOf(s, t).Ok?
    ensures Deletes(s, DeleteShardsOf(s, t).value)
    decreases |s.shards|
  {
    var ids := Get(s.tables, t).shards;
    hide DeleteShard, Deletes;
    if ids == [] {
      DeletesNothing(s);
    } else {
      var s1 := DeleteShard(s, ids[0]).value;
      DeleteShardDeletes(s, ids[0]);
      DeleteShardsOfDeletes(s1, t);
      DeletesCompose(s, s1, DeleteShardsOf(s1, t).value);
    }
  }

  lemma EraseTableDeletes(s: State, t: nat)
    requires Has(s.tables, t) && EraseTable(s, t).Ok?
    ensures Deletes(s, EraseTable(s, t).value)
  {
    hide DeleteShardsOf;
    DeleteShardsOfDeletes(s, t);
    DropKeys(DeleteShardsOf(s, t).value.tables, t);
  }

  lemma {:induction false} EraseTablesDeletes(s: State, ids: seq<nat>)
    requires EraseTables(s, ids).Ok?
    ensures Deletes(s, EraseTables(s, ids).value)
    decreases |ids|
  {
    hide EraseTable, Deletes;
    if ids == [] {
      DeletesNothing(s);
    } else {
      var s1 := EraseTable(s, ids[0]).value;
      EraseTableDeletes(s, ids[0]);
      EraseTablesDeletes(s1, ids[1..]);
      DeletesCompose(s, s1, EraseTables(s1, ids[1..]).value);
    }
  }

  lemma {:induction false} SetFrozenAllDeletes(s: State, ids: seq<nat>, b: bool)
    requires SetFrozenAll(s, ids, b).Ok?
    ensures Deletes(s, SetFrozenAll(s, ids, b).value)
    decreases |ids|
  {
    if ids != [] { SetFrozenAllDeletes(OnSetFrozen(s, ids[0], b).value, ids[1..], b); }
  }

  predicate Advances(s: State, s': State) { CatalogGrows(s, s') && ShardsGrow(s, s') && MigrationKept(s, s') }

  lemma DeletionAdvances(s: State, m: Message)
    requires m.DeleteDatabase? || m.DeleteTable? || m.FreezeDatabase? || m.UnfreezeDatabase?
    requires OnMessage(s, m).Ok?
    ensures Advances(s, OnMessage(s, m).value)
  {
    hide EraseTable, EraseTables, SetFrozenAll, AsMap, IndexOf, Remove;
    if m.DeleteTable? {
      EraseTableDeletes(s, m.tableID);
    } else if m.DeleteDatabase? {
      EraseTablesDeletes(s, Get(s.databases, m.databaseID).tables);
      DropKeys(EraseTables(s, Get(s.databases, m.databaseID).tables).value.databases, m.databaseID);
    } else {
      SetFrozenAllDeletes(s, Get(s.databases, m.databaseID).tables, m.FreezeDatabase?);
    }
  }

  lemma AppendGrows<T>(l: seq<Keyed<T>>, next: nat, obj: T)
    ensures Grows(AsMap(l), next, AsMap(Append(l, next, obj)), next + 1)
    ensures AsMap(l).Keys <= AsMap(Append(l, next, obj)).Keys
  {
    AppendKeys(l, next, obj);
  }

  lemma CreateTableAdvances(s: State, d: nat, q: nat, name: bytes)
    requires OnCreateTable(s, d, q, name).Ok?
    ensures Advances(s, OnCreateTable(s, d, q, name).value)
  {
    AppendGrows(s.shards, s.nextShardID, Shard(q, s.nextTableID, SHARD_NORMAL, 0, [], [], 0, [], false));
    AppendGrows(s.tables, s.nextTableID, Table(d, name, false, [s.nextShardID]));
    hide TableNamed;
  }

  lemma CatalogAdvances(s: State, m: Message)
    requires m.CreateDatabase? || m.RenameDatabase? || m.CreateTable? || m.RenameTable? || m.FreezeTable? || m.UnfreezeTable?
    requires OnMessage(s, m).Ok?
    ensures Advances(s, OnMessage(s, m).value)
  {
    hide OnCreateTable, DatabaseNamed, TableNamed;
    if m.CreateDatabase? {
      AppendGrows(s.databases, s.nextDatabaseID, Database(m.name, []));
    } else if m.CreateTable? {
      CreateTableAdvances(s, m.databaseID, m.quorumID, m.name);
    }
  }

  lemma ServerAdvances(s: State, m: Message)
    requires m.SetClusterID? || m.RegisterShardServer? || m.UnregisterShardServer? || m.SetPriority?
    requires OnMessage(s, m).Ok?
    ensures Advances(s, OnMessage(s, m).value)
  {
    if m.RegisterShardServer? {
      AppendGrows(s.shardServers, s.nextNodeID, NewShardServer(m.endpoint));
    } else if m.UnregisterShardServer? && Has(s.shardServers, m.nodeID) {
      DropKeys(s.shardServers, m.nodeID);
    }
  }

  lemma QuorumAdvances(s: State, m: Message)
    requires m.CreateQuorum? || m.RenameQuorum? || m.DeleteQuorum?
    requires OnMessage(s, m).Ok?
    ensures Advances(s, OnMessage(s, m).value)
  {
    hide QuorumNamed;
    if m.CreateQuorum? {
      var q := NewQuorum.(name := if |m.name| > 0 then m.name else DefaultQuorumName(s.nextQuorumID),
                          activeNodes := AddAll([], m.nodes));
      AppendGrows(s.quorums, s.nextQuorumID, q);
    } else if m.DeleteQuorum? {
      DropKeys(s.quorums, m.quorumID);
    }
  }

  lemma PutQuorumAdvances(s: State, id: nat)
    requires Has(s.quorums, id)
    ensures forall q :: Advances(s, PutQuorum(s, id, q))
  {}

  lemma MemberAdvances(s: State, m: Message)
    requires m.AddShardServerToQuorum? || m.RemoveShardServerFromQuorum? || m.ActivateShardServer? || m.DeactivateShardServer?
    requires OnMessage(s, m).Ok?
    ensures Advances(s, OnMessage(s, m).value)
  {
    hide Remove, AddSorted, Advances;
    PutQuorumAdvances(s, m.quorumID);
  }

  lemma TruncateAdvances(s: State, t: nat)
    requires OnTruncateTableBegin(s, t).Ok?
    ensures Advances(s, OnTruncateTableBegin(s, t).value)
  {
    hide DeleteShardsOf;
    DeleteShardsOfDeletes(s, t);
    var s1 := DeleteShardsOf(s, t).value;
    var q := DeletedQuorum(s, t, 0);
    AppendGrows(s1.shards, s1.nextShardID, Shard(q, t, SHARD_TRUNC_CREATING, 0, [], [], 0, [], false));
  }

  lemma SplitAdvances(s: State, id: nat, key: bytes)
    requires OnSplitShardBegin(s, id, key).Ok?
    ensures Advances(s, OnSplitShardBegin(s, id, key).value)
  {
    if Has(s.shards, id) {
      var parent := Get(s.shards, id);
      AppendGrows(Put(s.shards, id, parent.(lastKey := key)), s.nextShardID,
        Shard(parent.quorumID, parent.tableID, SHARD_SPLIT_CREATING, id, key, parent.lastKey, 0, [], false));
    }
  }

  lemma ShardAdvances(s: State, m: Message)
    requires m.TruncateTableBegin? || m.TruncateTableComplete? || m.SplitShardBegin? || m.SplitShardComplete? || m.ShardMigrationBegin?
    requires OnMessage(s, m).Ok?
    ensures Advances(s, OnMessage(s, m).value)
  {
    hide OnTruncateTableBegin, OnSplitShardBegin;
    if m.TruncateTableBegin? { TruncateAdvances(s, m.tableID); }
    if m.SplitShardBegin? { SplitAdvances(s, m.shardID, m.splitKey); }
  }

  // Every kind of message but one gives out numbers from the counters only.
  lemma MessageAdvances(s: State, m: Message)
    requires OnMessage(s, m).Ok? && !m.ShardMigrationComplete?
    ensures Advances(s, OnMessage(s, m).value)
  {
    hide Advances, OnMessage;
    if m.DeleteDatabase? || m.DeleteTable? || m.FreezeDatabase? || m.UnfreezeDatabase? {
      DeletionAdvances(s, m);
    } else if m.CreateDatabase? || m.RenameDatabase? || m.CreateTable? || m.RenameTable? || m.FreezeTable? || m.UnfreezeTable? {
      CatalogAdvances(s, m);
    } else if m.SetClusterID? || m.RegisterShardServer? || m.UnregisterShardServer? || m.SetPriority? {
      ServerAdvances(s, m);
    } else if m.CreateQuorum? || m.RenameQuorum? || m.DeleteQuorum? {
      QuorumAdvances(s, m);
    } else if m.AddShardServerToQuorum? || m.RemoveShardServerFromQuorum? || m.ActivateShardServer? || m.DeactivateShardServer? {
      MemberAdvances(s, m);
    } else {
      ShardAdvances(s, m);
    }
  }

  // A completed migration replaces the number of the source by that of the destination.
  lemma MigrationNumbers(s: State, q: nat, src: nat, dst: nat)
    requires Unique(s.shards) && OnShardMigrationComplete(s, q, src, dst).Ok?
    requires Has(s.shards, src) ==> !Has(s.shards, dst)
    ensures var s' := OnShardMigrationComplete(s, q, src, dst).value;
            CatalogGrows(s, s') && s'.nextShardID == s.nextShardID && s'.isMigrating == s.isMigrating &&
            s'.migrateSrcShardID == s.migrateSrcShardID && s'.migrateDstShardID == s.migrateDstShardID &&
            AsMap(s'.shards).Keys ==
              if Has(s.shards, src) then AsMap(s.shards).Keys - {src} + {dst} else AsMap(s.shards).Keys
  {}

  // ---- runs

  // reserved: the destination numbers set aside for migrations, each with the shard it is for;
  // used: the numbers that shards have had so far.
  datatype History = History(reserved: map<nat, nat>, used: set<nat>)

  function ShardIDs(s: State): set<nat> { AsMap(s.shards).Keys }

  function Record(s: State, h: History, m: Message, s': State): History {
    History(if m.ShardMigrationBegin? && Has(s.shards, m.shardID) then h.reserved[s.nextShardID := m.shardID] else h.reserved,
            h.used + ShardIDs(s'))
  }

  // An entry may follow state s of the replicated part if some controller L that has applied the
  // same log, whatever it holds besides, accepted it.  A completed migration names a pair that
  // its beginning set aside; Proposals.ProposedIsRun derives that from what controllers propose.
  ghost predicate Legal(s: State, h: History, m: Message) {
    if m.ShardMigrationComplete? then m.dstShardID in h.reserved && h.reserved[m.dstShardID] == m.srcShardID
    else exists L: State :: Shared(L) == s && CompleteMessage(L, m).Accepted?
  }

  predicate HistoryInv(s: State, h: History) {
    && ShardIDs(s) <= h.used && 1 <= s.nextShardID
    && (forall id :: id in h.used ==> 1 <= id < s.nextShardID)
    && (forall d :: d in h.reserved ==> 1 <= d < s.nextShardID && h.reserved[d] in h.used)
    && (forall d :: d in h.reserved && d in h.used ==> h.reserved[d] !in ShardIDs(s))
  }

  ghost predicate Step(s: State, h: History, m: Message, s': State, h': History) {
    Legal(s, h, m) && OnAppendShared(s, m) == Ok(s') && h' == Record(s, h, m, s')
  }

  lemma LegalIsAccepted(s: State, h: History, m: Message)
    requires Legal(s, h, m) && !m.ShardMigrationComplete?
    ensures CompleteMessage(s, m).Accepted?
  {
    hide CompleteMessage, Shared;
    var L: State :| Shared(L) == s && CompleteMessage(L, m).Accepted?;
    if ClusterMessage(m) { QuorumAcceptedShared(L, m); } else { SchemaAcceptedShared(L, m); }
  }

  lemma BumpKeeps(s: State)
    requires WellFormed(s)
    ensures WellFormed(s.(nextShardID := s.nextShardID + 1))
  {
    hide Consistent, Unique;
    assert StructureOf(s.(nextShardID := s.nextShardID + 1)) == StructureOf(s);
  }

  // The source of a pair set aside being there, its destination has not been used.
  lemma DestinationReserved(s: State, h: History, m: Message)
    requires HistoryInv(s, h) && Legal(s, h, m)
    ensures Reserved(s, m)
  {
    hide CompleteMessage;
  }

  // An entry that may follow fails no assertion exactly if it is Applicable, and then leaves a
  // well-formed state.
  lemma StepWellFormed(s: State, h: History, m: Message)
    requires WellFormed(s) && HistoryInv(s, h) && Legal(s, h, m)
    ensures OnAppendShared(s, m).Ok? <==> Applicable(s, m)
    ensures OnAppendShared(s, m).Ok? ==> WellFormed(OnAppendShared(s, m).value)
  {
    hide WellFormed, HistoryInv, Legal, CompleteMessage;
    DestinationReserved(s, h, m);
    if !m.ShardMigrationComplete? { LegalIsAccepted(s, h, m); }
    if m.ShardMigrationBegin? { BumpKeeps(s); } else { StepKeeps(s, m); }
  }

  lemma MigrationStepNumbers(s: State, h: History, m: Message)
    requires Unique(s.shards) && HistoryInv(s, h) && Legal(s, h, m) && m.ShardMigrationComplete? && OnAppendShared(s, m).Ok?
    ensures var s' := OnAppendShared(s, m).value; CatalogGrows(s, s') && s'.nextShardID == s.nextShardID
    ensures var s' := OnAppendShared(s, m).value;
            ShardIDs(s') == ShardIDs(s) ||
            (m.dstShardID !in h.used && ShardIDs(s') == ShardIDs(s) - {m.srcShardID} + {m.dstShardID})
    ensures m.srcShardID !in ShardIDs(OnAppendShared(s, m).value)
  {
    assert OnAppendShared(s, m) == OnShardMigrationComplete(s, m.quorumID, m.srcShardID, m.dstShardID);
    DestinationReserved(s, h, m);
    hide OnMessage, OnShardMigrationComplete;
    MigrationNumbers(s, m.quorumID, m.srcShardID, m.dstShardID);
  }

  lemma OtherStepNumbers(s: State, m: Message)
    requires !m.ShardMigrationComplete? && OnAppendShared(s, m).Ok?
    ensures var s' := OnAppendShared(s, m).value; CatalogGrows(s, s') && ShardsGrow(s, s')
    ensures m.ShardMigrationBegin? ==> OnAppendShared(s, m).value == s.(nextShardID := s.nextShardID + 1)
  {
    if !m.ShardMigrationBegin? {
      hide OnMessage, CatalogGrows, ShardsGrow;
      MessageAdvances(s, m);
    }
  }

  // Every number a step adds comes from a counter, or was set aside for this migration; either
  // way no shard has had it before.
  lemma StepNumbers(s: State, h: History, m: Message, s': State, h': History)
    requires Unique(s.shards) && HistoryInv(s, h) && Step(s, h, m, s', h')
    ensures CatalogGrows(s, s') && s.nextShardID <= s'.nextShardID
    ensures ShardIDs(s') !! (h.used - ShardIDs(s))
    ensures HistoryInv(s', h')
  {
    hide OnAppendShared, CompleteMessage, CatalogGrows;
    if m.ShardMigrationComplete? {
      MigrationStepNumbers(s, h, m);
    } else {
      OtherStepNumbers(s, m);
    }
  }

  // A run from the empty state: the replicated part and the history before and after each entry.
  ghost predicate Run(log: seq<Message>, states: seq<State>, histories: seq<History>) {
    && |states| == |histories| == |log| + 1 && states[0] == EmptyState && histories[0] == History(map[], {})
    && forall i :: 0 <= i < |log| ==> Step(states[i], histories[i], log[i], states[i + 1], histories[i + 1])
  }

  // Main result: every state of every run is well-formed.
  lemma {:induction false} ReachableWellFormed(log: seq<Message>, states: seq<State>, histories: seq<History>, i: nat)
    requires Run(log, states, histories) && i <= |log|
    ensures WellFormed(states[i]) && HistoryInv(states[i], histories[i])
  {
    hide Step, WellFormed, HistoryInv;
    if i == 0 {
      EmptyIsWellFormed();
      EmptyHistory();
    } else {
      ReachableWellFormed(log, states, histories, i - 1);
      assert Step(states[i - 1], histories[i - 1], log[i - 1], states[i], histories[i]);
      StepKeepsInvariant(states[i - 1], histories[i - 1], log[i - 1], states[i], histories[i]);
    }
  }

  lemma EmptyHistory()
    ensures HistoryInv(EmptyState, History(map[], {}))
  {}

  lemma StepKeepsInvariant(s: State, h: History, m: Message, s': State, h': History)
    requires WellFormed(s) && HistoryInv(s, h) && Step(s, h, m, s', h')
    ensures WellFormed(s') && HistoryInv(s', h')
  {
    hide Consistent, TableNamesUnique, DatabaseNamesUnique, OnAppendShared, HistoryInv;
    StepWellFormed(s, h, m);
    StepNumbers(s, h, m, s', h');
  }

  // Main result: a number in use that goes out of use never comes back, for quorums, databases,
  // tables and nodes ...
  predicate NeverBack<T>(now: map<nat, T>, later: map<nat, T>, last: map<nat, T>) {
    forall id :: id in now && id !in later ==> id !in last
  }

  lemma {:induction false} CountersGrow(log: seq<Message>, states: seq<State>, histories: seq<History>, i: nat, j: nat)
    requires Run(log, states, histories) && i <= j <= |log|
    ensures CatalogGrows(states[i], states[j])
    ensures histories[i].used <= histories[j].used && ShardIDs(states[j]) !! (histories[i].used - ShardIDs(states[i]))
    decreases j - i
  {
    hide Step, WellFormed, HistoryInv, CatalogGrows;
    ReachableWellFormed(log, states, histories, i);
    if i == j {
      assert CatalogGrows(states[i], states[i]) by { NoGrowth(states[i]); }
      assert ShardIDs(states[i]) !! (histories[i].used - ShardIDs(states[i]));
    } else {
      CountersGrow(log, states, histories, i + 1, j);
      var s, h, s', h' := states[i], histories[i], states[i + 1], histories[i + 1];
      assert Step(s, h, log[i], s', h');
      UniqueShards(s);
      StepNumbers(s, h, log[i], s', h');
      GrowthComposes(s, s', states[j]);
      StepRecords(s, h, log[i], s', h');
    }
  }

  lemma NoGrowth(s: State)
    ensures CatalogGrows(s, s)
  {}

  lemma GrowthComposes(s: State, s': State, s'': State)
    requires CatalogGrows(s, s') && CatalogGrows(s', s'')
    ensures CatalogGrows(s, s'')
  {}

  lemma UniqueShards(s: State)
    requires WellFormed(s)
    ensures Unique(s.shards)
  {}

  lemma StepRecords(s: State, h: History, m: Message, s': State, h': History)
    requires Step(s, h, m, s', h')
    ensures h.used <= h'.used
  {}

  lemma CatalogNumbersNeverReused(log: seq<Message>, states: seq<State>, histories: seq<History>, i: nat, j: nat, k: nat)
    requires Run(log, states, histories) && i <= j <= k <= |log|
    ensures NeverBack(AsMap(states[i].quorums), AsMap(states[j].quorums), AsMap(states[k].quorums))
    ensures NeverBack(AsMap(states[i].databases), AsMap(states[j].databases), AsMap(states[k].databases))
    ensures NeverBack(AsMap(states[i].tables), AsMap(states[j].tables), AsMap(states[k].tables))
    ensures NeverBack(AsMap(states[i].shardServers), AsMap(states[j].shardServers), AsMap(states[k].shardServers))
  {
    hide Run, Consistent, TableNamesUnique, DatabaseNamesUnique;
    ReachableWellFormed(log, states, histories, i);
    CountersGrow(log, states, histories, i, j);
    CountersGrow(log, states, histories, j, k);
  }

  // ... and for shards, whose numbers are also given out by migrations.
  lemma ShardNumbersNeverReused(log: seq<Message>, states: seq<State>, histories: seq<History>, i: nat, j: nat, k: nat)
    requires Run(log, states, histories) && i <= j <= k <= |log|
    ensures NeverBack(AsMap(states[i].shards), AsMap(states[j].shards), AsMap(states[k].shards))
  {
    hide Run, WellFormed;
    ReachableWellFormed(log, states, histories, i);
    CountersGrow(log, states, histories, i, j);
    CountersGrow(log, states, histories, j, k);
  }

  // A controller that keeps up with the run, in whatever role and with whatever fields of its own,
  // is well-formed as well.
  lemma ControllerFollows(log: seq<Message>, states: seq<State>, histories: seq<History>, i: nat, s: State, isLeader: bool)
    requires Run(log, states, histories) && i < |log| && Shared(s) == states[i]
    requires OnAppend(s, i + 1, log[i], isLeader).Ok?
    ensures var s' := OnAppend(s, i + 1, log[i], isLeader).value; Shared(s') == states[i + 1] && WellFormed(s')
  {
    hide WellFormed, Shared, OnAppend;
    OnAppendIsShared(s, i + 1, log[i], isLeader);
    assert Step(states[i], histories[i], log[i], states[i + 1], histories[i + 1]);
    ReachableWellFormed(log, states, histories, i + 1);
    WellFormedShared(OnAppend(s, i + 1, log[i], isLeader).value);
  }

  // ---- the pair of shards that a controller has noted

  // The destination noted was set aside for the source noted.
  predicate PairReserved(s: State, h: History) {
    s.isMigrating ==> s.migrateDstShardID in h.reserved && h.reserved[s.migrateDstShardID] == s.migrateSrcShardID
  }

  // Nothing but the beginning of a migration makes a controller note a pair.
  lemma HandlerKeepsPair(s: State, m: Message)
    requires OnMessage(s, m).Ok? && !m.ShardMigrationBegin?
    ensures var s' := OnMessage(s, m).value;
            s'.isMigrating ==> s.isMigrating && s'.migrateSrcShardID == s.migrateSrcShardID && s'.migrateDstShardID == s.migrateDstShardID
  {
    if m.ShardMigrationComplete? {
      assert OnMessage(s, m) == OnShardMigrationComplete(s, m.quorumID, m.srcShardID, m.dstShardID);
      hide OnMessage;
    } else {
      hide OnMessage, CatalogGrows, ShardsGrow;
      MessageAdvances(s, m);
    }
  }

  lemma BeginIsWhole(s: State, paxosID: nat, m: Message, isLeader: bool)
    requires m.ShardMigrationBegin?
    ensures OnAppend(s, paxosID, m, isLeader) == Ok(OnShardMigrationBegin(s, m.quorumID, m.shardID, isLeader).(paxosID := paxosID))
  {}

  lemma EntryKeepsPair(s: State, h: History, paxosID: nat, m: Message, isLeader: bool)
    requires HistoryInv(s, h) && PairReserved(s, h) && OnAppend(s, paxosID, m, isLeader).Ok?
    ensures var s' := OnAppend(s, paxosID, m, isLeader).value; PairReserved(s', Record(s, h, m, s'))
  {
    if m.ShardMigrationBegin? {
      BeginIsWhole(s, paxosID, m, isLeader);
      hide OnAppend;
    } else {
      var s1 := if m.ShardMigrationComplete? then BeforeMigrationComplete(s, m, isLeader).value else s;
      assert OnMessage(s1.(paxosID := paxosID), m).Ok?;
      hide OnMessage, HistoryInv;
      HandlerKeepsPair(s1.(paxosID := paxosID), m);
    }
  }

  predicate StillReserved(h: History, h': History) {
    forall d :: d in h.reserved ==> d in h'.reserved && h'.reserved[d] == h.reserved[d]
  }

  lemma StepKeepsReserved(s: State, h: History, m: Message, s': State, h': History)
    requires HistoryInv(s, h) && Step(s, h, m, s', h')
    ensures StillReserved(h, h')
  {
    hide AsMap, OnAppendShared, Legal;
  }

  // A pair stays set aside.
  lemma {:induction false} ReservedStays(log: seq<Message>, states: seq<State>, histories: seq<History>, i: nat, j: nat)
    requires Run(log, states, histories) && i <= j <= |log|
    ensures StillReserved(histories[i], histories[j])
    decreases j
  {
    hide Step, WellFormed, HistoryInv;
    if i < j {
      ReservedStays(log, states, histories, i, j - 1);
      ReachableWellFormed(log, states, histories, j - 1);
      assert Step(states[j - 1], histories[j - 1], log[j - 1], states[j], histories[j]);
      StepKeepsReserved(states[j - 1], histories[j - 1], log[j - 1], states[j], histories[j]);
    }
  }

  // ---- the migration a controller believes to be under way

  // Its source exists and its destination, set aside for it, has not been used.
  predicate MigrationOngoing(s: State, h: History) {
    s.isMigrating ==>
      s.migrateSrcShardID in ShardIDs(s) && s.migrateDstShardID in h.reserved
      && h.reserved[s.migrateDstShardID] == s.migrateSrcShardID && s.migrateDstShardID !in h.used
  }

  lemma OnMessageMigration(s: State, h: History, m: Message)
    requires Unique(s.shards) && HistoryInv(s, h) && MigrationOngoing(s, h) && OnMessage(s, m).Ok? && !m.ShardMigrationBegin?
    requires m.ShardMigrationComplete? ==> m.dstShardID in h.reserved && h.reserved[m.dstShardID] == m.srcShardID
    ensures var s' := OnMessage(s, m).value;
            MigrationOngoing(s', History(h.reserved, h.used + ShardIDs(s'))) <==>
            !(s.isMigrating && m.ShardMigrationComplete? && m.srcShardID == s.migrateSrcShardID)
  {
    if m.ShardMigrationComplete? {
      assert OnMessage(s, m) == OnShardMigrationComplete(s, m.quorumID, m.srcShardID, m.dstShardID);
      hide OnMessage, OnShardMigrationComplete;
      MigrationNumbers(s, m.quorumID, m.srcShardID, m.dstShardID);
    } else {
      hide OnMessage;
      MessageAdvances(s, m);
    }
  }

  lemma BeginKeepsMigration(s: State, h: History, m: Message, isLeader: bool)
    requires HistoryInv(s, h) && MigrationOngoing(s, h) && m.ShardMigrationBegin?
    ensures var s' := OnShardMigrationBegin(s, m.quorumID, m.shardID, isLeader);
            MigrationOngoing(s', Record(s, h, m, s')) && s'.shards == s.shards
  {}

  // Main result: the only entry that leaves a controller with a migration that is no longer under
  // way is the completion of that migration, applied by a controller that is not the leader.
  lemma MigrationStep(s: State, h: History, paxosID: nat, m: Message, isLeader: bool)
    requires Unique(s.shards) && HistoryInv(s, h) && MigrationOngoing(s, h) && OnAppend(s, paxosID, m, isLeader).Ok?
    requires m.ShardMigrationComplete? ==> m.dstShardID in h.reserved && h.reserved[m.dstShardID] == m.srcShardID
    ensures var s' := OnAppend(s, paxosID, m, isLeader).value;
            MigrationOngoing(s', Record(s, h, m, s')) <==>
            (isLeader || !(s.isMigrating && m.ShardMigrationComplete? && m.srcShardID == s.migrateSrcShardID))
  {
    hide Unique, HistoryInv;
    var s1 := if m.ShardMigrationComplete? then BeforeMigrationComplete(s, m, isLeader).value else s;
    var s2 := s1.(paxosID := paxosID);
    if m.ShardMigrationBegin? {
      BeginKeepsMigration(s, h, m, isLeader);
      assert OnAppend(s, paxosID, m, isLeader) == Ok(OnShardMigrationBegin(s, m.quorumID, m.shardID, isLeader).(paxosID := paxosID));
    } else {
      assert HistoryInv(s2, h) by { SameShards(s, s2, h); }
      hide OnMessage;
      OnMessageMigration(s2, h, m);
    }
  }

  lemma SameShards(s: State, s': State, h: History)
    requires HistoryInv(s, h) && s'.shards == s.shards && s'.nextShardID == s.nextShardID
    ensures HistoryInv(s', h)
  {}
}
