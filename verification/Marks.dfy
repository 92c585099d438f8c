// What only a controller itself keeps: its mark of a split under way and the migration that it has noted,
// entry by entry and over its runs.

module Marks {
  import opened Bytes
  import opened KeyedLists
  import opened ConfigMessages
  import opened Schema
  import opened SchemaInvariant
  import opened SchemaSteps
  import opened Replication
  import opened Controllers
  import opened Runs
  import opened ControllerRuns
  import opened Proposals
  import opened EntryEffects
  import opened Guards
  import opened NameGuards
  import Catchup
  import StateCodec
  import PrimaryLeases

  // ---- one entry

  // The entries that end a split: its completion, and its beginning where the shard is gone.
  predicate EndsSplit(s: State, m: Message) { m.SplitShardComplete? || (m.SplitShardBegin? && m.shardID !in AsMap(s.shards)) }

  predicate SameMaster(s: State, s': State) { s'.hasMaster == s.hasMaster && s'.masterID == s.masterID && s'.paxosID == s.paxosID }

  // What the handlers do to these fields: the beginning of a split whose shard is gone takes the mark
  // away, and the deletion of its source gives up the noted migration.
  predicate HandlerMarks(s: State, m: Message, s': State) {
    && SameMaster(s, s')
    && s'.isSplitting == (s.isSplitting && !(m.SplitShardBegin? && m.shardID !in AsMap(s.shards)))
    && (if m.ShardMigrationComplete? then SameMigration(s, s') else MigrationAfter(s, s'))
  }

  lemma DeletionMarks(s: State, m: Message)
    requires WellFormed(s) && OnMessage(s, m).Ok?
    requires m.DeleteTable? || m.DeleteDatabase? || m.TruncateTableBegin? || m.FreezeDatabase? || m.UnfreezeDatabase?
    ensures HandlerMarks(s, m, OnMessage(s, m).value)
  {
    hide WellFormed, OnMessage, AsMap, IndexOf, KeepParents, MigrationAfter;
    ShardNumbers(s);
    SameAfter(s, s);
    match m {
      case DeleteTable(_) => DeleteEntryRest(s, m);
      case DeleteDatabase(_) => DeleteEntryRest(s, m);
      case TruncateTableBegin(t) => TruncateEntryRest(s, t);
      case FreezeDatabase(d) => FreezesSome(s, m); FreezeDatabaseEntry(s, d, true); SameAfter(s, OnMessage(s, m).value);
      case UnfreezeDatabase(d) => FreezesSome(s, m); FreezeDatabaseEntry(s, d, false); SameAfter(s, OnMessage(s, m).value);
    }
  }

  lemma FreezesSome(s: State, m: Message)
    requires (m.FreezeDatabase? || m.UnfreezeDatabase?) && OnMessage(s, m).Ok?
    ensures Has(s.databases, m.databaseID)
  {}

  lemma SameAfter(s: State, s': State)
    requires SameMigration(s, s') && AsMap(s.shards).Keys <= AsMap(s'.shards).Keys
    ensures MigrationAfter(s, s')
  {}

  lemma GrowingMarks(s: State, m: Message)
    requires WellFormed(s) && OnMessage(s, m).Ok?
    requires m.CreateTable? || m.SplitShardBegin? || m.ShardMigrationComplete?
    ensures HandlerMarks(s, m, OnMessage(s, m).value)
  {
    hide WellFormed, OnMessage, AsMap, IndexOf, KeepParents, MigrationAfter;
    if m.SplitShardBegin? && !Has(s.shards, m.shardID) {
      NoSplit(s, m.shardID, m.splitKey);
      SameAfter(s, OnMessage(s, m).value);
    } else {
      AddEntryRest(s, m);
      if !m.ShardMigrationComplete? {
        MoreShards(s, m);
        SameAfter(s, OnMessage(s, m).value);
      }
    }
  }

  lemma MoreShards(s: State, m: Message)
    requires WellFormed(s) && OnMessage(s, m).Ok? && (m.CreateTable? || m.SplitShardBegin?)
    ensures AsMap(s.shards).Keys <= AsMap(OnMessage(s, m).value.shards).Keys
  {
    hide WellFormed, IndexOf, AddSorted, TableNamed, Unique;
    ShardNumbers(s);
  }

  lemma SettlingMarks(s: State, m: Message)
    requires OnMessage(s, m).Ok? && (m.TruncateTableComplete? || m.SplitShardComplete?)
    ensures HandlerMarks(s, m, OnMessage(s, m).value)
  {
    hide OnMessage, AsMap, IndexOf, Elsewhere, MigrationAfter;
    if m.SplitShardComplete? {
      SplitEndEntry(s, m.shardID);
      SameKeysElsewhere(s.shards, OnMessage(s, m).value.shards, m.shardID);
    } else {
      TruncateEndEntry(s, m.tableID);
      SameKeysElsewhere(s.shards, OnMessage(s, m).value.shards, Get(s.tables, m.tableID).shards[0]);
    }
    SameAfter(s, OnMessage(s, m).value);
  }

  lemma ServerMarks(s: State, m: Message)
    requires OnMessage(s, m).Ok? && (m.SetClusterID? || m.RegisterShardServer? || m.UnregisterShardServer? || m.SetPriority?)
    ensures HandlerMarks(s, m, OnMessage(s, m).value)
  {
    hide AsMap, IndexOf, MigrationAfter;
    SameAfter(s, OnMessage(s, m).value);
  }

  lemma QuorumMarks(s: State, m: Message)
    requires OnMessage(s, m).Ok? && (m.CreateQuorum? || m.RenameQuorum? || m.DeleteQuorum? || MovesNode(m))
    ensures HandlerMarks(s, m, OnMessage(s, m).value)
  {
    hide AsMap, IndexOf, Remove, AddSorted, AddAll, QuorumNamed, MigrationAfter;
    SameAfter(s, OnMessage(s, m).value);
  }

  lemma NameMarks(s: State, m: Message)
    requires OnMessage(s, m).Ok?
    requires m.CreateDatabase? || m.RenameDatabase? || m.RenameTable? || m.FreezeTable? || m.UnfreezeTable? || m.ShardMigrationBegin?
    ensures HandlerMarks(s, m, OnMessage(s, m).value)
  {
    hide AsMap, IndexOf, DatabaseNamed, TableNamed, MigrationAfter;
    SameAfter(s, OnMessage(s, m).value);
  }

  lemma MessageMarks(s: State, m: Message)
    requires WellFormed(s) && OnMessage(s, m).Ok?
    ensures HandlerMarks(s, m, OnMessage(s, m).value)
  {
    hide WellFormed, OnMessage, HandlerMarks;
    if m.DeleteTable? || m.DeleteDatabase? || m.TruncateTableBegin? || m.FreezeDatabase? || m.UnfreezeDatabase? {
      DeletionMarks(s, m);
    } else if m.CreateTable? || m.SplitShardBegin? || m.ShardMigrationComplete? {
      GrowingMarks(s, m);
    } else if m.TruncateTableComplete? || m.SplitShardComplete? {
      SettlingMarks(s, m);
    } else if m.SetClusterID? || m.RegisterShardServer? || m.UnregisterShardServer? || m.SetPriority? {
      ServerMarks(s, m);
    } else if m.CreateQuorum? || m.RenameQuorum? || m.DeleteQuorum? || MovesNode(m) {
      QuorumMarks(s, m);
    } else {
      NameMarks(s, m);
    }
  }

  // The migration noted, as one value: the target quorum, the source and the destination.
  datatype Noted = Noted(quorumID: nat, src: nat, dst: nat)

  function NotedBy(s: State): Option<Noted> {
    if s.isMigrating then Some(Noted(s.migrateQuorumID, s.migrateSrcShardID, s.migrateDstShardID)) else None
  }

  // The leader takes up a migration: it has none yet, and the shard's quorum and the target are two
  // quorums with a primary each.
  predicate TakesUp(s: State, m: Message, isLeader: bool) {
    m.ShardMigrationBegin? && isLeader && !s.isMigrating && m.shardID in AsMap(s.shards) &&
    var src := AsMap(s.shards)[m.shardID].quorumID;
    src in AsMap(s.quorums) && AsMap(s.quorums)[src].hasPrimary
    && m.quorumID in AsMap(s.quorums) && AsMap(s.quorums)[m.quorumID].hasPrimary && src != m.quorumID
  }

  lemma BeginMarks(s: State, paxosID: nat, m: Message, isLeader: bool)
    requires m.ShardMigrationBegin?
    ensures OnAppend(s, paxosID, m, isLeader).Ok?
    ensures var s' := OnAppend(s, paxosID, m, isLeader).value;
            && s'.nextShardID == s.nextShardID + 1 && s'.isSplitting == s.isSplitting && s'.shards == s.shards
            && s'.paxosID == paxosID && s'.hasMaster == s.hasMaster && s'.masterID == s.masterID
            && NotedBy(s') == if TakesUp(s, m, isLeader) then Some(Noted(m.quorumID, m.shardID, s.nextShardID)) else NotedBy(s)
  {
    BeginIsWhole(s, paxosID, m, isLeader);
    hide OnAppend, AsMap, IndexOf;
  }

  // Main result: what an entry does to the marks.  The mark of a split goes exactly at the end of a split.
  // A migration is noted exactly where the leader takes it up, under the quorum and the shard of the entry
  // and with the number set aside, and forgotten exactly by the leader at its end or with its source.
  lemma AppendMarks(s: State, paxosID: nat, m: Message, isLeader: bool)
    requires WellFormed(s) && OnAppend(s, paxosID, m, isLeader).Ok?
    ensures var s' := OnAppend(s, paxosID, m, isLeader).value;
            && s'.paxosID == paxosID && s'.hasMaster == s.hasMaster && s'.masterID == s.masterID
            && s'.isSplitting == (s.isSplitting && !EndsSplit(s, m))
            && NotedBy(s') ==
                 if TakesUp(s, m, isLeader) then Some(Noted(m.quorumID, m.shardID, s.nextShardID))
                 else if m.ShardMigrationComplete? then (if isLeader then None else NotedBy(s))
                 else if s.isMigrating && Has(s.shards, s.migrateSrcShardID) && !Has(s'.shards, s.migrateSrcShardID) then None
                 else NotedBy(s)
    ensures m.ShardMigrationComplete? && isLeader && s.isMigrating ==> NotedBy(s) == Some(Noted(m.quorumID, m.srcShardID, m.dstShardID))
  {
    hide WellFormed, OnMessage, AsMap, IndexOf;
    if m.ShardMigrationBegin? {
      BeginMarks(s, paxosID, m, isLeader);
    } else {
      var s1 := if m.ShardMigrationComplete? then BeforeMigrationComplete(s, m, isLeader).value else s;
      var s2 := s1.(paxosID := paxosID);
      SameStructures(s, s2);
      MessageMarks(s2, m);
    }
  }

  lemma SameStructures(s: State, s': State)
    requires WellFormed(s)
    requires s' == s.(paxosID := s'.paxosID, isMigrating := s'.isMigrating, migrateQuorumID := s'.migrateQuorumID,
                      migrateSrcShardID := s'.migrateSrcShardID, migrateDstShardID := s'.migrateDstShardID)
    ensures WellFormed(s')
  {
    hide Consistent;
    assert StructureOf(s') == StructureOf(s);
  }
  // ---- over the runs of a controller

  // The events that mark a split and that end it.
  predicate MarksSplit(w: World, e: Event) { e.Propose? && e.message.SplitShardBegin? && CompleteMessage(w.s, e.message).Accepted? }

  predicate SplitEnds(log: seq<Message>, w: World, e: Event) {
    e.CatchUp? || (e.Entry? && w.applied < |log| && EndsSplit(w.s, log[w.applied]))
  }

  lemma ProposalMarks(c: Settings, log: seq<Message>, states: seq<State>, w: World, m: Message)
    requires ControllerRuns.Step(c, log, states, w, Propose(m)).Some?
    ensures var w' := ControllerRuns.Step(c, log, states, w, Propose(m)).value;
            w'.s.isSplitting == (MarksSplit(w, Propose(m)) || w.s.isSplitting) && NotedBy(w'.s) == NotedBy(w.s) && w'.applied == w.applied
  {
    hide CompleteMessage;
    if CompleteMessage(w.s, m).Accepted? { CompleteMessageState(w.s, m); }
  }

  // All other events leave the mark alone, and only forget a migration.
  lemma QuietMarks(c: Settings, log: seq<Message>, states: seq<State>, w: World, e: Event)
    requires !e.Entry? && !e.CatchUp? && !e.Propose? && ControllerRuns.Step(c, log, states, w, e).Some?
    ensures ControllerRuns.Step(c, log, states, w, e).value.s.isSplitting == w.s.isSplitting
  {
    hide CompleteMessage, PrimaryLeases.Granted, Get, Has, Put, PrimaryLeases.ExpireAll, PrimaryLeases.Extended, PrimaryLeases.Assigned;
  }

  lemma CatchUpMarks(c: Settings, log: seq<Message>, states: seq<State>, w: World, sender: State, count: nat)
    requires ControllerRuns.Step(c, log, states, w, CatchUp(sender, count)).Some?
    ensures var w' := ControllerRuns.Step(c, log, states, w, CatchUp(sender, count)).value; !w'.s.isSplitting && !w'.s.isMigrating
  {
    hide StateCodec.StateFits, Numbered, StateCodec.StateText, Catchup.Restored;
    Catchup.RestoredIsShared(w.s, sender);
  }

  lemma WellInStep(log: seq<Message>, states: seq<State>, histories: seq<History>, w: World)
    requires Run(log, states, histories) && InStep(states, w)
    ensures WellFormed(w.s) && w.applied <= |log| && w.s.nextShardID == states[w.applied].nextShardID
  {
    hide Run, Shared, WellFormed;
    RunLength(log, states, histories);
    ReachableWellFormed(log, states, histories, w.applied);
    WellFormedShared(w.s);
    SharedShards(w.s);
  }

  // One event sets or takes away the mark exactly if it begins or ends a split.
  lemma EventMarksSplit(c: Settings, log: seq<Message>, states: seq<State>, histories: seq<History>, w: World, e: Event)
    requires Run(log, states, histories) && InStep(states, w) && ControllerRuns.Step(c, log, states, w, e).Some?
    ensures ControllerRuns.Step(c, log, states, w, e).value.s.isSplitting == (MarksSplit(w, e) || (w.s.isSplitting && !SplitEnds(log, w, e)))
  {
    hide Run, InStep, OnAppend, ControllerRuns.Step, WellFormed, CompleteMessage, EndsSplit, NotedBy;
    match e {
      case Propose(m) => ProposalMarks(c, log, states, w, m);
      case CatchUp(sender, count) => CatchUpMarks(c, log, states, w, sender, count);
      case Entry(isLeader) =>
        EntryEvent(c, log, states, w, isLeader);
        WellInStep(log, states, histories, w);
        AppendMarks(w.s, w.applied + 1, log[w.applied], isLeader);
      case _ => QuietMarks(c, log, states, w, e);
    }
  }

  lemma StepOf(c: Settings, log: seq<Message>, states: seq<State>, histories: seq<History>, worlds: seq<World>, events: seq<Event>, i: nat)
    requires Run(log, states, histories) && ControllerRun(c, log, states, worlds, events) && i < |events|
    ensures |worlds| == |events| + 1 && ControllerRuns.Step(c, log, states, worlds[i], events[i]) == Some(worlds[i + 1])
    ensures InStep(states, worlds[i])
  {
    hide ControllerRuns.Step, Safe, Run;
    AlwaysSafe(c, log, states, histories, worlds, events, i);
    SafeInStep(states, worlds[i]);
  }

  lemma RunBegins(c: Settings, log: seq<Message>, states: seq<State>, worlds: seq<World>, events: seq<Event>)
    requires ControllerRun(c, log, states, worlds, events)
    ensures |worlds| == |events| + 1 && worlds[0] == NewWorld
  {}

  // A split was marked at moment k and has not ended since.
  predicate Pending(log: seq<Message>, worlds: seq<World>, events: seq<Event>, k: nat, j: nat)
    requires j <= |events| < |worlds|
  {
    k < j && MarksSplit(worlds[k], events[k]) && forall i :: k < i < j ==> !SplitEnds(log, worlds[i], events[i])
  }

  // Main result: at every moment the mark says whether a split that was accepted has not ended yet ...
  lemma {:induction false} MarkedIfPending(
      c: Settings, log: seq<Message>, states: seq<State>, histories: seq<History>, worlds: seq<World>, events: seq<Event>, j: nat)
    requires Run(log, states, histories) && ControllerRun(c, log, states, worlds, events) && j <= |events|
    ensures |worlds| == |events| + 1
    ensures worlds[j].s.isSplitting <==> exists k :: Pending(log, worlds, events, k, j)
  {
    hide Run, ControllerRun, ControllerRuns.Step, MarksSplit, SplitEnds, InStep;
    RunBegins(c, log, states, worlds, events);
    if j > 0 {
      MarkedIfPending(c, log, states, histories, worlds, events, j - 1);
      StepOf(c, log, states, histories, worlds, events, j - 1);
      EventMarksSplit(c, log, states, histories, worlds[j - 1], events[j - 1]);
      PendingStep(log, worlds, events, j - 1, j);
    }
  }

  lemma PendingStep(log: seq<Message>, worlds: seq<World>, events: seq<Event>, i: nat, j: nat)
    requires i + 1 == j <= |events| < |worlds|
    ensures (exists k :: Pending(log, worlds, events, k, j)) <==>
              MarksSplit(worlds[i], events[i]) || ((exists k :: Pending(log, worlds, events, k, i)) && !SplitEnds(log, worlds[i], events[i]))
  {
    hide MarksSplit, SplitEnds;
    if MarksSplit(worlds[i], events[i]) {
      assert Pending(log, worlds, events, i, j);
    } else if k: nat :| !SplitEnds(log, worlds[i], events[i]) && Pending(log, worlds, events, k, i) {
      assert Pending(log, worlds, events, k, j);
    } else {
      forall k: nat ensures !Pending(log, worlds, events, k, j) { PendingBefore(log, worlds, events, k, j); }
    }
  }

  lemma PendingBefore(log: seq<Message>, worlds: seq<World>, events: seq<Event>, k: nat, j: nat)
    requires 0 < j <= |events| < |worlds|
    ensures Pending(log, worlds, events, k, j) ==>
              MarksSplit(worlds[j - 1], events[j - 1])
              || (Pending(log, worlds, events, k, j - 1) && !SplitEnds(log, worlds[j - 1], events[j - 1]))
  {
    hide MarksSplit, SplitEnds;
  }

  lemma NonePending(log: seq<Message>, worlds: seq<World>, events: seq<Event>, i: nat, j: nat, k: nat)
    requires i < j <= |events| < |worlds| && SplitEnds(log, worlds[i], events[i])
    requires forall l :: i < l < j ==> !MarksSplit(worlds[l], events[l])
    ensures !Pending(log, worlds, events, k, j)
  {
    hide EndsSplit, CompleteMessage;
  }

  // ... so once a split has ended and until the next one is accepted, a split is accepted exactly if its key
  // is strictly inside a shard of a settled quorum.
  lemma NextSplitAccepted(
      c: Settings, log: seq<Message>, states: seq<State>, histories: seq<History>, worlds: seq<World>, events: seq<Event>,
      i: nat, j: nat, id: nat, key: bytes)
    requires Run(log, states, histories) && ControllerRun(c, log, states, worlds, events) && i < j <= |events| < |worlds|
    requires SplitEnds(log, worlds[i], events[i]) && forall k :: i < k < j ==> !MarksSplit(worlds[k], events[k])
    ensures var s := worlds[j].s;
            CompleteMessage(s, SplitShardBegin(id, key)).Accepted? <==>
              id in AsMap(s.shards) && Settled(s, AsMap(s.shards)[id].quorumID) && StrictlyInside(AsMap(s.shards)[id], key)
  {
    hide Run, ControllerRun, ControllerRuns.Step, CompleteMessage, AsMap, IndexOf, Settled, StrictlyInside;
    MarkedIfPending(c, log, states, histories, worlds, events, j);
    forall k: nat ensures !Pending(log, worlds, events, k, j) { NonePending(log, worlds, events, i, j, k); }
    SplitGuard(worlds[j].s, id, key);
  }

  // The migration noted is the one that an applied entry began.
  predicate Begun(log: seq<Message>, states: seq<State>, applied: nat, x: Noted) {
    exists k :: 0 <= k < applied <= |log| && k < |states| && log[k] == ShardMigrationBegin(x.quorumID, x.src) && states[k].nextShardID == x.dst
  }

  lemma EntryNotes(log: seq<Message>, states: seq<State>, histories: seq<History>, w: World, isLeader: bool)
    requires Run(log, states, histories) && InStep(states, w) && w.applied < |log|
    requires OnAppend(w.s, w.applied + 1, log[w.applied], isLeader).Ok?
    requires NotedBy(w.s).Some? ==> Begun(log, states, w.applied, NotedBy(w.s).value)
    ensures var s' := OnAppend(w.s, w.applied + 1, log[w.applied], isLeader).value;
            NotedBy(s').Some? ==> Begun(log, states, w.applied + 1, NotedBy(s').value)
  {
    hide Run, Shared, OnAppend, WellFormed, EndsSplit, AsMap, IndexOf;
    RunLength(log, states, histories);
    WellInStep(log, states, histories, w);
    var m := log[w.applied];
    AppendMarks(w.s, w.applied + 1, m, isLeader);
    if m.ShardMigrationBegin? { assert m == ShardMigrationBegin(m.quorumID, m.shardID); }
  }

  lemma EventNotes(c: Settings, log: seq<Message>, states: seq<State>, histories: seq<History>, w: World, e: Event)
    requires Run(log, states, histories) && InStep(states, w) && ControllerRuns.Step(c, log, states, w, e).Some?
    requires NotedBy(w.s).Some? ==> Begun(log, states, w.applied, NotedBy(w.s).value)
    ensures var w' := ControllerRuns.Step(c, log, states, w, e).value;
            NotedBy(w'.s).Some? ==> Begun(log, states, w'.applied, NotedBy(w'.s).value)
  {
    hide Run, InStep, OnAppend, ControllerRuns.Step, Begun;
    match e {
      case CatchUp(sender, count) => CatchUpMarks(c, log, states, w, sender, count);
      case Entry(isLeader) =>
        EntryEvent(c, log, states, w, isLeader);
        EntryNotes(log, states, histories, w, isLeader);
      case _ => QuietEvent(c, log, states, w, e);
    }
  }

  // Main result: a migration that a controller has noted was begun by an entry that it applied, which names
  // this target and this source and set aside this destination.
  lemma {:induction false} NotedWasBegun(
      c: Settings, log: seq<Message>, states: seq<State>, histories: seq<History>, worlds: seq<World>, events: seq<Event>, i: nat)
    requires Run(log, states, histories) && ControllerRun(c, log, states, worlds, events) && i <= |events| < |worlds|
    ensures NotedBy(worlds[i].s).Some? ==> Begun(log, states, worlds[i].applied, NotedBy(worlds[i].s).value)
  {
    hide Run, ControllerRun, ControllerRuns.Step, Begun, InStep;
    RunBegins(c, log, states, worlds, events);
    if i > 0 {
      NotedWasBegun(c, log, states, histories, worlds, events, i - 1);
      StepOf(c, log, states, histories, worlds, events, i - 1);
      EventNotes(c, log, states, histories, worlds[i - 1], events[i - 1]);
    }
  }
}
