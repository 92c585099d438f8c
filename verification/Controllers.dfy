// Applying the replicated log: ConfigQuorumProcessor::OnAppend without its message queue, and
// what holds over whole runs of one controller and between two controllers.

module Controllers {
  import opened Bytes
  import opened KeyedLists
  import opened ConfigMessages
  import opened Schema
  import opened Replication

  // The shard is there and its quorum and the target are different and both have a primary.
  predicate CanMigrate(quorums: seq<Keyed<Quorum>>, shards: seq<Keyed<Shard>>, quorumID: nat, shardID: nat) {
    Has(shards, shardID) &&
    var src := Get(shards, shardID).quorumID;
    Has(quorums, src) && Get(quorums, src).hasPrimary && Has(quorums, quorumID) && Get(quorums, quorumID).hasPrimary
    && src != quorumID
  }

  // Reserves a shard number on every controller; the leader also starts the migration if it can.
  function OnShardMigrationBegin(s: State, quorumID: nat, shardID: nat, isLeader: bool): State {
    var s1 := s.(nextShardID := s.nextShardID + 1);
    if !isLeader || s.isMigrating || !CanMigrate(s.quorums, s.shards, quorumID, shardID) then s1
    else s1.(isMigrating := true, migrateQuorumID := quorumID, migrateSrcShardID := shardID,
             migrateDstShardID := s.nextShardID)
  }

  // The leader checks that the migration that completes is the one it knows of.
  function BeforeMigrationComplete(s: State, m: Message, isLeader: bool): Result<State>
    requires m.ShardMigrationComplete?
  {
    if !isLeader || !s.isMigrating then Ok(s)
    else if s.migrateQuorumID != m.quorumID || s.migrateSrcShardID != m.srcShardID
         || s.migrateDstShardID != m.dstShardID then Stopped
    else Ok(s.(isMigrating := false, migrateQuorumID := 0, migrateSrcShardID := 0, migrateDstShardID := 0))
  }

  function OnAppend(s: State, paxosID: nat, m: Message, isLeader: bool): Result<State> {
    var s1 := if m.ShardMigrationBegin? then OnShardMigrationBegin(s, m.quorumID, m.shardID, isLeader) else s;
    var s2 :- if m.ShardMigrationComplete? then BeforeMigrationComplete(s1, m, isLeader) else Ok(s1);
    var s3 :- OnMessage(s2.(paxosID := paxosID), m);
    Ok(if m.SplitShardComplete? then s3.(isSplitting := false) else s3)
  }

  // The effect on the replicated part alone.
  function OnAppendShared(r: State, m: Message): Result<State> {
    var r1 := if m.ShardMigrationBegin? then r.(nextShardID := r.nextShardID + 1) else r;
    OnMessage(r1, m)
  }

  lemma OnAppendIsShared(s: State, paxosID: nat, m: Message, isLeader: bool)
    requires OnAppend(s, paxosID, m, isLeader).Ok?
    ensures OnAppendShared(Shared(s), m) == Ok(Shared(OnAppend(s, paxosID, m, isLeader).value))
  {
    hide OnMessage, CompleteMessage;
    var s1 := if m.ShardMigrationBegin? then OnShardMigrationBegin(s, m.quorumID, m.shardID, isLeader) else s;
    var s2 := if m.ShardMigrationComplete? then BeforeMigrationComplete(s1, m, isLeader).value else s1;
    var s3 := s2.(paxosID := paxosID);
    assert Shared(s3) == if m.ShardMigrationBegin? then Shared(s).(nextShardID := s.nextShardID + 1) else Shared(s);
    OnMessageShared(s3, m);
  }

  // ---- two controllers

  // The state after entries i to j of a log; each controller has its own role at each entry.
  function Replay(s: State, log: seq<Message>, roles: seq<bool>, i: nat, j: nat): Result<State>
    requires |log| == |roles| && i <= j <= |log|
    decreases j - i
  {
    if i == j then Ok(s)
    else
      var s1 :- OnAppend(s, i + 1, log[i], roles[i]);
      Replay(s1, log, roles, i + 1, j)
  }

  lemma {:induction false} ReplayComposes(s: State, log: seq<Message>, roles: seq<bool>, i: nat, j: nat, k: nat)
    requires |log| == |roles| && i <= j <= k <= |log|
    ensures Replay(s, log, roles, i, k) ==
              if Replay(s, log, roles, i, j).Ok? then Replay(Replay(s, log, roles, i, j).value, log, roles, j, k) else Stopped
    decreases j - i
  {
    hide OnAppend;
    if i < j && OnAppend(s, i + 1, log[i], roles[i]).Ok? {
      ReplayComposes(OnAppend(s, i + 1, log[i], roles[i]).value, log, roles, i + 1, j, k);
    }
  }

  // Main result: controllers that agree on the replicated part and apply the same log still agree,
  // whatever their roles and whatever only the master knows.
  lemma {:induction false} ReplicasAgree(
      s: State, t: State, log: seq<Message>, a: seq<bool>, b: seq<bool>, i: nat, j: nat)
    requires |log| == |a| == |b| && i <= j <= |log| && Shared(s) == Shared(t)
    requires Replay(s, log, a, i, j).Ok? && Replay(t, log, b, i, j).Ok?
    ensures Shared(Replay(s, log, a, i, j).value) == Shared(Replay(t, log, b, i, j).value)
    decreases j - i
  {
    hide OnAppend, Shared;
    if i < j {
      OnAppendIsShared(s, i + 1, log[i], a[i]);
      OnAppendIsShared(t, i + 1, log[i], b[i]);
      ReplicasAgree(OnAppend(s, i + 1, log[i], a[i]).value, OnAppend(t, i + 1, log[i], b[i]).value, log, a, b, i + 1, j);
    }
  }

  // ---- what a proposer has checked, seen from the replicated part

  lemma {:induction false} TruncateVerdictShared(s: State, ids: seq<nat>)
    requires TruncateVerdict(s, ids).Accepted?
    ensures TruncateVerdict(Shared(s), ids).Accepted?
  {
    if ids != [] {
      SharedLookups(s, ids[0]);
      SharedLookups(s, Get(s.shards, ids[0]).quorumID);
      TruncateVerdictShared(s, ids[1..]);
    }
  }

  lemma ServersShared(s: State)
    ensures forall id :: Has(Shared(s).shardServers, id) <==> Has(s.shardServers, id)
  {
    forall id ensures Has(Shared(s).shardServers, id) <==> Has(s.shardServers, id) { SharedLookups(s, id); }
  }

  lemma ServerAcceptedShared(s: State, m: Message)
    requires CompleteMessage(s, m).Accepted? && (m.UnregisterShardServer? || m.CreateQuorum? || m.SetPriority?)
    ensures CompleteMessage(Shared(s), m).Accepted?
  {
    ServersShared(s);
    hide Has;
    if m.CreateQuorum? { SharedQuorumNamed(s.quorums, m.name); }
    if m.SetPriority? { SharedLookups(s, m.quorumID); }
  }

  lemma QuorumAcceptedShared(s: State, m: Message)
    requires CompleteMessage(s, m).Accepted? && ClusterMessage(m)
    ensures CompleteMessage(Shared(s), m).Accepted?
  {
    hide AsMap, IndexOf, QuorumNamed, MapObj, GoodName;
    if m.UnregisterShardServer? || m.CreateQuorum? || m.SetPriority? {
      hide CompleteMessage;
      ServerAcceptedShared(s, m);
    } else if !m.SetClusterID? && !m.RegisterShardServer? {
      SharedLookups(s, m.quorumID);
      if m.RenameQuorum? { SharedQuorumNamed(s.quorums, m.name); }
    }
  }

  lemma SplitAcceptedShared(s: State, shardID: nat, splitKey: bytes)
    requires CompleteSplitShardBegin(s, shardID, splitKey).Accepted?
    ensures CompleteSplitShardBegin(Shared(s), shardID, splitKey).Accepted?
  {
    SharedLookups(s, shardID);
    SharedLookups(s, Get(s.shards, shardID).quorumID);
  }

  lemma SchemaAcceptedShared(s: State, m: Message)
    requires CompleteMessage(s, m).Accepted? && !ClusterMessage(m) && !m.ShardMigrationComplete?
    ensures CompleteMessage(Shared(s), m).Accepted?
  {
    hide CompleteSplitShardBegin;
    if m.CreateTable? || m.ShardMigrationBegin? {
      SharedLookups(s, m.quorumID);
    } else if m.TruncateTableBegin? {
      TruncateVerdictShared(s, Get(s.tables, m.tableID).shards);
    } else if m.SplitShardBegin? {
      SplitAcceptedShared(s, m.shardID, m.splitKey);
    } else if m.SplitShardComplete? {
      SharedLookups(s, m.shardID);
    }
  }
}
