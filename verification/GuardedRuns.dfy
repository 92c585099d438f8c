// What the checks protect, over whole runs of the log.

module GuardedRuns {
  import opened KeyedLists
  import opened ConfigMessages
  import opened Schema
  import opened SchemaInvariant
  import opened SchemaSteps
  import opened Runs
  import opened Membership
  import opened EntryEffects
  import opened Guards
  import opened NameGuards
  import Decimal

  // One entry of a run.
  lemma RunEntry(log: seq<Message>, states: seq<State>, histories: seq<History>, k: nat)
    requires Run(log, states, histories) && k < |log|
    ensures WellFormed(states[k]) && Checked(states[k], log[k]) && Reserved(states[k], log[k])
    ensures if log[k].ShardMigrationBegin? then states[k + 1] == states[k].(nextShardID := states[k].nextShardID + 1)
            else OnMessage(states[k], log[k]) == Ok(states[k + 1])
  {
    hide WellFormed, Legal, HistoryInv, CompleteMessage;
    ReachableWellFormed(log, states, histories, k);
    assert Runs.Step(states[k], histories[k], log[k], states[k + 1], histories[k + 1]);
    DestinationReserved(states[k], histories[k], log[k]);
    if !log[k].ShardMigrationComplete? { LegalIsAccepted(states[k], histories[k], log[k]); }
  }

  predicate CreatedEmpty(s: State, m: Message, q: nat) { m.CreateQuorum? && m.nodes == [] && q == s.nextQuorumID }

  lemma NewQuorumsCreated(s: State, m: Message, q: nat)
    requires WellFormed(s) && OnMessage(s, m).Ok? && q !in AsMap(s.quorums) && q in AsMap(OnMessage(s, m).value.quorums)
    ensures m.CreateQuorum? && q == s.nextQuorumID
    ensures AsMap(OnMessage(s, m).value.quorums)[q].activeNodes == [] <==> m.nodes == []
  {
    hide WellFormed, OnMessage, AsMap, IndexOf, Elsewhere;
    NumberFree(s);
    if MovesNode(m) {
      OneQuorumMoves(s, m);
      if q != m.quorumID { ElsewhereMap(s.quorums, OnMessage(s, m).value.quorums, m.quorumID, q); }
    } else if m.CreateQuorum? {
      CreateQuorumEntry(s, m.name, m.nodes);
      SameSize(m.nodes, Get(OnMessage(s, m).value.quorums, s.nextQuorumID).activeNodes);
    } else {
      OthersKeepMembers(s, m);
    }
  }

  lemma SameSize(l: seq<nat>, l': seq<nat>)
    requires multiset(l) == multiset(l')
    ensures |l| == |l'|
  {
    assert |multiset(l)| == |multiset(l')|;
  }

  // Main result: in a run a quorum has no active node only if one of these entries took its last one,
  // or it was created without nodes.
  lemma {:induction false} WithoutActiveNode(
      log: seq<Message>, states: seq<State>, histories: seq<History>, j: nat, q: nat)
    requires Run(log, states, histories) && j <= |log|
    requires q in AsMap(states[j].quorums) && AsMap(states[j].quorums)[q].activeNodes == []
    ensures exists k :: 0 <= k < j && (CreatedEmpty(states[k], log[k], q)
                                      || (q in AsMap(states[k].quorums) && TakesLast(states[k], log[k], q)))
  {
    hide Run, WellFormed, CompleteMessage, OnMessage, TakesLast, IndexOf;
    RunStarts(log, states, histories);
    if j > 0 {
      RunEntry(log, states, histories, j - 1);
      var s, m := states[j - 1], log[j - 1];
      if q in AsMap(s.quorums) {
        if AsMap(s.quorums)[q].activeNodes == [] {
          WithoutActiveNode(log, states, histories, j - 1, q);
        } else {
          LastActiveKept(s, m, q);
        }
      } else if !m.ShardMigrationBegin? {
        NewQuorumsCreated(s, m, q);
      }
    }
  }

  lemma RunStarts(log: seq<Message>, states: seq<State>, histories: seq<History>)
    requires Run(log, states, histories)
    ensures |states| == |histories| == |log| + 1 && states[0] == EmptyState
  {}

  // Main result: if every node that is added to a quorum is registered, all members always are.
  lemma {:induction false} MembersRegistered(log: seq<Message>, states: seq<State>, histories: seq<History>, j: nat)
    requires Run(log, states, histories) && j <= |log|
    requires forall k :: 0 <= k < j ==> k < |states| && !AddsUnregistered(states[k], log[k])
    ensures AllRegistered(states[j])
  {
    hide Run, WellFormed, CompleteMessage, OnMessage, Reserved, AddsUnregistered;
    RunStarts(log, states, histories);
    if j > 0 {
      MembersRegistered(log, states, histories, j - 1);
      RunEntry(log, states, histories, j - 1);
      if !log[j - 1].ShardMigrationBegin? { RegisteredStep(states[j - 1], log[j - 1]); }
    }
  }

  // Main result: a node has another priority than 1 only for quorums of which it was a member when the
  // priority was set.
  lemma {:induction false} PrioritiesOfMembers(
      log: seq<Message>, states: seq<State>, histories: seq<History>, j: nat, n: nat, q: nat)
    requires Run(log, states, histories) && j <= |log|
    requires n in AsMap(states[j].shardServers) && PriorityFor(states[j], n, q) != 1
    ensures exists k :: 0 <= k < j && SetsPriority(states[k], log[k], n, q)
  {
    hide Run, WellFormed, CompleteMessage, OnMessage, Reserved, IndexOf, PriorityFor, SetsPriority;
    RunStarts(log, states, histories);
    if j > 0 {
      RunEntry(log, states, histories, j - 1);
      var s, m := states[j - 1], log[j - 1];
      if m.ShardMigrationBegin? {
        SamePriorities(s, states[j], n, q);
        PrioritiesOfMembers(log, states, histories, j - 1, n, q);
      } else {
        PriorityStep(s, m, n, q);
        if n in AsMap(s.shardServers) && PriorityFor(s, n, q) != 1 {
          PrioritiesOfMembers(log, states, histories, j - 1, n, q);
        } else {
          ThenSets(s, m, n, q, PriorityFor(states[j], n, q));
        }
      }
    }
  }

  predicate SetsPriority(s: State, m: Message, n: nat, q: nat) {
    m.SetPriority? && m.nodeID == n && m.quorumID == q && q in AsMap(s.quorums) && AsMap(s.quorums)[q].IsMember(n)
  }

  lemma ThenSets(s: State, m: Message, n: nat, q: nat, priority: nat)
    requires q in AsMap(s.quorums) && AsMap(s.quorums)[q].IsMember(n) && m == SetPriority(q, n, priority)
    ensures SetsPriority(s, m, n, q)
  {}

  lemma SamePriorities(s: State, s': State, n: nat, q: nat)
    requires s'.shardServers == s.shardServers && n in AsMap(s.shardServers)
    ensures PriorityFor(s', n, q) == PriorityFor(s, n, q)
  {}

  // Main result: when a log splits a shard, truncates a table or begins a migration, the quorums concerned
  // have no inactive node.
  lemma BeginsWhereSettled(log: seq<Message>, states: seq<State>, histories: seq<History>, k: nat, id: nat)
    requires Run(log, states, histories) && k < |log|
    ensures var s, m := states[k], log[k];
            && (m.ShardMigrationBegin? ==> Settled(s, m.quorumID))
            && (m.SplitShardBegin? ==> m.shardID in AsMap(s.shards) && Settled(s, AsMap(s.shards)[m.shardID].quorumID)
                                       && StrictlyInside(AsMap(s.shards)[m.shardID], m.splitKey))
            && (m.TruncateTableBegin? && id in AsMap(s.shards) && AsMap(s.shards)[id].tableID == m.tableID ==>
                  Settled(s, AsMap(s.shards)[id].quorumID))
  {
    hide Run, WellFormed, CompleteMessage, OnMessage, Reserved, Settled, StrictlyInside, AsMap, IndexOf;
    RunStarts(log, states, histories);
    RunEntry(log, states, histories, k);
    SettledTargets(states[k], log[k]);
  }

  // Main result: between two moments at which a shard has different states lies the end that belongs to
  // its creation.
  lemma {:induction false} SettledByItsEnd(
      log: seq<Message>, states: seq<State>, histories: seq<History>, i: nat, j: nat, id: nat)
    requires Run(log, states, histories) && i <= j <= |log|
    requires id in AsMap(states[i].shards) && id in AsMap(states[j].shards)
    requires AsMap(states[j].shards)[id].state != AsMap(states[i].shards)[id].state
    ensures exists k :: i <= k < j && id in AsMap(states[k].shards) && Settles(states[k], log[k], id)
    decreases j
  {
    hide Run, WellFormed, CompleteMessage, OnMessage, Reserved, AsMap, IndexOf, Settles;
    RunStarts(log, states, histories);
    if i < j {
      RunEntry(log, states, histories, j - 1);
      ShardNumbersNeverReused(log, states, histories, i, j - 1, j);
      if !log[j - 1].ShardMigrationBegin? { ShardStateStep(states[j - 1], log[j - 1], id); }
      if !Settles(states[j - 1], log[j - 1], id) { SettledByItsEnd(log, states, histories, i, j - 1, id); }
    }
  }

  // Main result: names of quorums are unique as long as no quorum gets a default name that is taken ...
  lemma {:induction false} UniqueQuorumNames(log: seq<Message>, states: seq<State>, histories: seq<History>, j: nat)
    requires Run(log, states, histories) && j <= |log|
    requires forall k :: 0 <= k < j && log[k].CreateQuorum? && log[k].name == [] ==> k < |states| && !DefaultNameTaken(states[k])
    ensures QuorumNamesUnique(AsMap(states[j].quorums))
  {
    hide Run, WellFormed, CompleteMessage, OnMessage, Reserved, DefaultNameTaken;
    RunStarts(log, states, histories);
    if j > 0 {
      UniqueQuorumNames(log, states, histories, j - 1);
      RunEntry(log, states, histories, j - 1);
      if !log[j - 1].ShardMigrationBegin? { QuorumNamesStep(states[j - 1], log[j - 1]); }
    }
  }

  // ... and all names are printable as long as the number of quorums created fits 64 bits.
  lemma {:induction false} PrintableNames(log: seq<Message>, states: seq<State>, histories: seq<History>, j: nat)
    requires Run(log, states, histories) && j <= |log| && j < |states| && states[j].nextQuorumID <= Decimal.TWO_TO_64
    ensures AllPrintable(states[j])
  {
    hide Run, WellFormed, CompleteMessage, OnMessage, Reserved, Printable, DefaultQuorumName;
    RunStarts(log, states, histories);
    if j > 0 {
      CountersGrow(log, states, histories, j - 1, j);
      PrintableNames(log, states, histories, j - 1);
      RunEntry(log, states, histories, j - 1);
      var s, m := states[j - 1], log[j - 1];
      if !m.ShardMigrationBegin? {
        PrintableStep(s, m);
        if m.CreateQuorum? {
          CreateQuorumCounts(s, m);
          DefaultIsPrintable(s.nextQuorumID);
        }
      }
    }
  }

  lemma CreateQuorumCounts(s: State, m: Message)
    requires m.CreateQuorum? && OnMessage(s, m).Ok?
    ensures OnMessage(s, m).value.nextQuorumID == s.nextQuorumID + 1
  {}
}
