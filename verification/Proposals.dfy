// Where log entries come from: each is proposed by a controller that has followed the log so far, and
// the end of a migration names the numbers that its proposer has noted.  So every log that comes
// about this way is a run, and a leader's migration stays the one under way through its tenure.

module Proposals {
  import opened KeyedLists
  import opened ConfigMessages
  import opened Schema
  import opened SchemaInvariant
  import SchemaSteps
  import opened Replication
  import opened Controllers
  import opened Runs
  import opened ControllerRuns

  // What the controller has noted was set aside by an entry that it applied.
  ghost predicate PairKnown(histories: seq<History>, w: World) {
    w.applied < |histories| && PairReserved(w.s, histories[w.applied])
  }

  // ---- the history of a controller is that of the log

  lemma SharedShards(s: State)
    ensures ShardIDs(Shared(s)) == ShardIDs(s) && Shared(s).nextShardID == s.nextShardID
  {
    MapObjMap(s.shards, SharedShard);
  }

  lemma EntryRecord(log: seq<Message>, states: seq<State>, histories: seq<History>, w: World, isLeader: bool)
    requires Run(log, states, histories) && InStep(states, w) && w.applied < |log|
    requires OnAppend(w.s, w.applied + 1, log[w.applied], isLeader).Ok?
    ensures w.applied + 1 < |histories| && Unique(w.s.shards) && HistoryInv(w.s, histories[w.applied])
    ensures var s' := OnAppend(w.s, w.applied + 1, log[w.applied], isLeader).value;
            histories[w.applied + 1] == Record(w.s, histories[w.applied], log[w.applied], s')
    ensures Legal(states[w.applied], histories[w.applied], log[w.applied])
  {
    hide Shared, OnAppend, WellFormed, OnAppendShared, Legal;
    var i, m := w.applied, log[w.applied];
    assert Runs.Step(states[i], histories[i], m, states[i + 1], histories[i + 1]);
    ReachableWellFormed(log, states, histories, i);
    WellFormedShared(w.s);
    UniqueShards(w.s);
    SharedShards(w.s);
    ControllerFollows(log, states, histories, i, w.s, isLeader);
    SharedShards(OnAppend(w.s, i + 1, m, isLeader).value);
    if m.ShardMigrationBegin? { SharedLookups(w.s, m.shardID); }
  }

  // All other events keep the shards, and a migration as it is noted, or forget it.
  predicate Quiet(s: State, s': State) {
    s'.shards == s.shards && (s'.isMigrating ==>
      s.isMigrating && s'.migrateQuorumID == s.migrateQuorumID && s'.migrateSrcShardID == s.migrateSrcShardID
      && s'.migrateDstShardID == s.migrateDstShardID)
  }

  lemma QuietEvent(c: Settings, log: seq<Message>, states: seq<State>, w: World, e: Event)
    requires !e.Entry? && !e.CatchUp? && ControllerRuns.Step(c, log, states, w, e).Some?
    ensures var w' := ControllerRuns.Step(c, log, states, w, e).value; w'.applied == w.applied && Quiet(w.s, w'.s)
  {
    hide CompleteMessage, PrimaryLeases.Granted, Get, Has, Put, PrimaryLeases.ExpireAll, PrimaryLeases.Extended, PrimaryLeases.Assigned;
    if e.Propose? && CompleteMessage(w.s, e.message).Accepted? { SchemaSteps.CompleteMessageState(w.s, e.message); }
  }

  lemma CatchUpForgets(states: seq<State>, w: World, sender: State, count: nat)
    requires CaughtUp(states, w, sender, count).Some?
    ensures !CaughtUp(states, w, sender, count).value.s.isMigrating && CaughtUp(states, w, sender, count).value.applied < |states|
  {
    hide StateCodec.StateFits, Numbered, StateCodec.StateText, Catchup.Restored;
    Catchup.RestoredIsShared(w.s, sender);
  }

  lemma EntryEvent(c: Settings, log: seq<Message>, states: seq<State>, w: World, isLeader: bool)
    requires ControllerRuns.Step(c, log, states, w, Entry(isLeader)).Some?
    ensures w.applied < |log| && OnAppend(w.s, w.applied + 1, log[w.applied], isLeader).Ok?
    ensures ControllerRuns.Step(c, log, states, w, Entry(isLeader)).value
            == w.(s := OnAppend(w.s, w.applied + 1, log[w.applied], isLeader).value, applied := w.applied + 1)
  {
    hide OnAppend;
  }

  lemma CatchUpEvent(c: Settings, log: seq<Message>, states: seq<State>, w: World, sender: State, count: nat)
    requires ControllerRuns.Step(c, log, states, w, CatchUp(sender, count)).Some?
    ensures var w' := ControllerRuns.Step(c, log, states, w, CatchUp(sender, count)).value;
            !w'.s.isMigrating && w'.applied < |states|
  {
    hide CaughtUp;
    CatchUpForgets(states, w, sender, count);
  }

  lemma EventKeepsPair(c: Settings, log: seq<Message>, states: seq<State>, histories: seq<History>, w: World, e: Event)
    requires Run(log, states, histories) && InStep(states, w) && PairKnown(histories, w)
    requires ControllerRuns.Step(c, log, states, w, e).Some?
    ensures PairKnown(histories, ControllerRuns.Step(c, log, states, w, e).value)
  {
    hide Run, InStep, OnAppend, ControllerRuns.Step, HistoryInv, Record;
    if e.Entry? {
      EntryEvent(c, log, states, w, e.isLeader);
      EntryRecord(log, states, histories, w, e.isLeader);
      EntryKeepsPair(w.s, histories[w.applied], w.applied + 1, log[w.applied], e.isLeader);
    } else if e.CatchUp? {
      RunLength(log, states, histories);
      RunHistories(log, states, histories);
      CatchUpEvent(c, log, states, w, e.sender, e.count);
    } else {
      QuietEvent(c, log, states, w, e);
    }
  }

  // Main result: what a controller has noted as migrating was set aside by an entry that it applied.
  lemma {:induction false} AlwaysReserved(
      c: Settings, log: seq<Message>, states: seq<State>, histories: seq<History>, worlds: seq<World>, events: seq<Event>, i: nat)
    requires Run(log, states, histories) && ControllerRun(c, log, states, worlds, events) && i <= |events|
    ensures PairKnown(histories, worlds[i])
  {
    if i == 0 {
      hide Runs.Step, ControllerRuns.Step;
    } else {
      hide Run, Safe, ControllerRuns.Step, PairKnown;
      AlwaysReserved(c, log, states, histories, worlds, events, i - 1);
      AlwaysSafe(c, log, states, histories, worlds, events, i - 1);
      SafeInStep(states, worlds[i - 1]);
      assert ControllerRuns.Step(c, log, states, worlds[i - 1], events[i - 1]) == Some(worlds[i]);
      EventKeepsPair(c, log, states, histories, worlds[i - 1], events[i - 1]);
    }
  }

  // ---- proposals

  // At moment a a controller takes up the message, at moment b it has applied the whole log so far
  // and its check accepts the message.
  ghost predicate ProposedIn(
      c: Settings, log: seq<Message>, states: seq<State>, m: Message, worlds: seq<World>, events: seq<Event>, a: nat, b: nat) {
    && ControllerRun(c, log, states, worlds, events) && a <= b <= |events|
    && (m.ShardMigrationComplete? ==>
          worlds[a].s.isMigrating && m.srcShardID == worlds[a].s.migrateSrcShardID && m.dstShardID == worlds[a].s.migrateDstShardID)
    && worlds[b].applied == |log| && CompleteMessage(worlds[b].s, m).Accepted?
  }

  ghost predicate Proposed(log: seq<Message>, states: seq<State>, m: Message) {
    exists c: Settings, worlds: seq<World>, events: seq<Event>, a: nat, b: nat :: ProposedIn(c, log, states, m, worlds, events, a, b)
  }

  // A log in which each entry was proposed by some controller that followed the entries before it.
  ghost predicate ProposedRun(log: seq<Message>, states: seq<State>, histories: seq<History>) {
    && |states| == |histories| == |log| + 1 && states[0] == EmptyState && histories[0] == History(map[], {})
    && forall i :: 0 <= i < |log| ==>
         Proposed(log[..i], states[..i + 1], log[i]) && OnAppendShared(states[i], log[i]) == Ok(states[i + 1])
         && histories[i + 1] == Record(states[i], histories[i], log[i], states[i + 1])
  }

  // A controller is never ahead of the log.
  lemma AppliedInLog(
      c: Settings, log: seq<Message>, states: seq<State>, histories: seq<History>, worlds: seq<World>, events: seq<Event>, i: nat)
    requires Run(log, states, histories) && ControllerRun(c, log, states, worlds, events) && i <= |events|
    ensures worlds[i].applied <= |log| && Shared(worlds[i].s) == states[worlds[i].applied]
  {
    hide ControllerRuns.Step, Runs.Step, LeasesSafe, ActivationsSafe;
    AlwaysSafe(c, log, states, histories, worlds, events, i);
  }

  lemma ProposedIsLegal(log: seq<Message>, states: seq<State>, histories: seq<History>, m: Message)
    requires Run(log, states, histories) && Proposed(log, states, m)
    ensures Legal(states[|log|], histories[|log|], m)
  {
    hide CompleteMessage, Shared, ControllerRun, Run;
    var c: Settings, worlds: seq<World>, events: seq<Event>, a: nat, b: nat :| ProposedIn(c, log, states, m, worlds, events, a, b);
    RunLength(log, states, histories);
    RunHistories(log, states, histories);
    WorldsLength(c, log, states, worlds, events);
    AppliedInLog(c, log, states, histories, worlds, events, a);
    AppliedInLog(c, log, states, histories, worlds, events, b);
    if m.ShardMigrationComplete? {
      AlwaysReserved(c, log, states, histories, worlds, events, a);
      ReservedStays(log, states, histories, worlds[a].applied, |log|);
    }
  }

  lemma RunHistories(log: seq<Message>, states: seq<State>, histories: seq<History>)
    requires Run(log, states, histories)
    ensures |histories| == |log| + 1
  {}

  lemma WorldsLength(c: Settings, log: seq<Message>, states: seq<State>, worlds: seq<World>, events: seq<Event>)
    requires ControllerRun(c, log, states, worlds, events)
    ensures |worlds| == |events| + 1
  {}

  lemma ProposedPrefix(log: seq<Message>, states: seq<State>, histories: seq<History>)
    requires ProposedRun(log, states, histories) && log != []
    ensures var n := |log| - 1; ProposedRun(log[..n], states[..n + 1], histories[..n + 1])
  {
    hide Proposed, Record, OnAppendShared;
    var n := |log| - 1;
    forall i | 0 <= i < n ensures log[..n][..i] == log[..i] && states[..n + 1][..i + 1] == states[..i + 1] {}
  }

  lemma RunExtended(log: seq<Message>, states: seq<State>, histories: seq<History>)
    requires |states| == |histories| == |log| + 1 && log != []
    requires var n := |log| - 1;
             Run(log[..n], states[..n + 1], histories[..n + 1])
             && Runs.Step(states[n], histories[n], log[n], states[n + 1], histories[n + 1])
    ensures Run(log, states, histories)
  {
    hide Runs.Step;
    var n := |log| - 1;
    forall i | 0 <= i < |log| ensures Runs.Step(states[i], histories[i], log[i], states[i + 1], histories[i + 1]) {
      if i < n {
        assert Runs.Step(states[..n + 1][i], histories[..n + 1][i], log[..n][i], states[..n + 1][i + 1], histories[..n + 1][i + 1]);
      }
    }
  }

  lemma LastProposed(log: seq<Message>, states: seq<State>, histories: seq<History>)
    requires ProposedRun(log, states, histories) && log != []
    ensures var n := |log| - 1;
            Proposed(log[..n], states[..n + 1], log[n]) && OnAppendShared(states[n], log[n]) == Ok(states[n + 1])
            && histories[n + 1] == Record(states[n], histories[n], log[n], states[n + 1])
  {
    hide Proposed, Record, OnAppendShared;
  }

  // Main result: such a log is a run, so all that is proved of runs holds of it.
  lemma {:induction false} ProposedIsRun(log: seq<Message>, states: seq<State>, histories: seq<History>)
    requires ProposedRun(log, states, histories)
    ensures Run(log, states, histories)
    decreases |log|
  {
    hide Proposed, Record, OnAppendShared, Legal;
    if log != [] {
      var n := |log| - 1;
      assert |states| == |histories| == n + 2;
      hide ProposedRun, Run;
      ProposedPrefix(log, states, histories);
      ProposedIsRun(log[..n], states[..n + 1], histories[..n + 1]);
      LastProposed(log, states, histories);
      ProposedIsLegal(log[..n], states[..n + 1], histories[..n + 1], log[n]);
      RunExtended(log, states, histories);
    }
  }

  // ---- the migration under way

  ghost predicate Ongoing(histories: seq<History>, w: World) {
    w.applied < |histories| && MigrationOngoing(w.s, histories[w.applied])
  }

  // The end of the controller's own migration reaches it while it is not the leader.
  predicate EndsUnseen(log: seq<Message>, w: World, e: Event) {
    && e.Entry? && !e.isLeader && w.s.isMigrating
    && w.applied < |log| && log[w.applied].ShardMigrationComplete? && log[w.applied].srcShardID == w.s.migrateSrcShardID
  }

  lemma EntryKeepsMigration(log: seq<Message>, states: seq<State>, histories: seq<History>, w: World, isLeader: bool)
    requires Run(log, states, histories) && InStep(states, w) && Ongoing(histories, w) && w.applied < |log|
    requires OnAppend(w.s, w.applied + 1, log[w.applied], isLeader).Ok?
    ensures var s' := OnAppend(w.s, w.applied + 1, log[w.applied], isLeader).value;
            Ongoing(histories, w.(s := s', applied := w.applied + 1)) <==> !EndsUnseen(log, w, Entry(isLeader))
  {
    hide OnAppend, HistoryInv, Record, InStep, Run, MigrationOngoing, CompleteMessage;
    EntryRecord(log, states, histories, w, isLeader);
    MigrationStep(w.s, histories[w.applied], w.applied + 1, log[w.applied], isLeader);
  }

  lemma QuietKeepsMigration(histories: seq<History>, w: World, w': World)
    requires w'.applied == w.applied && Quiet(w.s, w'.s) && Ongoing(histories, w)
    ensures Ongoing(histories, w')
  {
    hide HistoryInv, AsMap;
  }

  lemma NothingOngoing(histories: seq<History>, w: World)
    requires !w.s.isMigrating && w.applied < |histories|
    ensures Ongoing(histories, w)
  {}

  // Whatever happens, a migration noted stays the one under way unless it ends unseen.
  lemma EventKeepsMigration(c: Settings, log: seq<Message>, states: seq<State>, histories: seq<History>, w: World, e: Event)
    requires Run(log, states, histories) && InStep(states, w) && Ongoing(histories, w)
    requires ControllerRuns.Step(c, log, states, w, e).Some?
    ensures Ongoing(histories, ControllerRuns.Step(c, log, states, w, e).value) <==> !EndsUnseen(log, w, e)
  {
    hide Run, InStep, Ongoing, OnAppend, ControllerRuns.Step, Quiet;
    if e.Entry? {
      EntryEvent(c, log, states, w, e.isLeader);
      EntryKeepsMigration(log, states, histories, w, e.isLeader);
    } else if e.CatchUp? {
      RunLength(log, states, histories);
      RunHistories(log, states, histories);
      CatchUpEvent(c, log, states, w, e.sender, e.count);
      NothingOngoing(histories, ControllerRuns.Step(c, log, states, w, e).value);
    } else {
      QuietEvent(c, log, states, w, e);
      QuietKeepsMigration(histories, w, ControllerRuns.Step(c, log, states, w, e).value);
    }
  }

  // Main result: through a leader's tenure, and beyond it as long as no migration ends unseen, what
  // is noted is under way: its source is there and its destination has not been used.
  lemma {:induction false} TenureKeepsMigration(
      c: Settings, log: seq<Message>, states: seq<State>, histories: seq<History>, worlds: seq<World>, events: seq<Event>,
      i: nat, j: nat)
    requires Run(log, states, histories) && ControllerRun(c, log, states, worlds, events) && i <= j <= |events|
    requires Ongoing(histories, worlds[i])
    requires forall k :: i <= k < j ==> !EndsUnseen(log, worlds[k], events[k])
    ensures Ongoing(histories, worlds[j])
    decreases j
  {
    hide Run, Safe, ControllerRuns.Step, Ongoing, EndsUnseen;
    if i < j {
      TenureKeepsMigration(c, log, states, histories, worlds, events, i, j - 1);
      AlwaysSafe(c, log, states, histories, worlds, events, j - 1);
      SafeInStep(states, worlds[j - 1]);
      assert ControllerRuns.Step(c, log, states, worlds[j - 1], events[j - 1]) == Some(worlds[j]);
      EventKeepsMigration(c, log, states, histories, worlds[j - 1], events[j - 1]);
    }
  }
}
