// A controller that lags behind is sent the whole state and continues from there
// (ConfigQuorumProcessor::OnCatchupMessage and the first test of OnAppend).

module Catchup {
  import opened Bytes
  import opened KeyedLists
  import opened Formatting
  import opened ConfigMessages
  import opened Schema
  import opened SchemaInvariant
  import opened Replication
  import opened Controllers
  import opened StateCodec

  // Reading keeps what the receiver knows of the master.
  function Restored(t: State, text: bytes): Parsed<State> {
    var r :- ReadState(false, text);
    Got(r.value.(hasMaster := t.hasMaster, masterID := t.masterID), r.rest)
  }

  lemma WrittenIsShared(s: State)
    ensures Written(s, false) == Shared(s)
  {
    assert Map(KeptQuorum(false), s.quorums) == MapObj(s.quorums, SharedQuorum);
    assert Map(KeptShard(false), s.shards) == MapObj(s.shards, SharedShard);
    assert Map(KeptServer(false), s.shardServers) == MapObj(s.shardServers, SharedServer);
  }

  lemma BelowList<T>(l: seq<Keyed<T>>, lo: nat, next: nat)
    requires Below(AsMap(l), lo, next)
    ensures AllBelow(l, next)
  {
    forall j | 0 <= j < |l| ensures l[j].id < next { InMap(l, j); }
  }

  lemma NumberedCounters(s: State)
    requires Numbered(s)
    ensures CountersAbove(s)
  {
    hide Below, AllBelow, Unique;
    BelowList(s.quorums, 1, s.nextQuorumID);
    BelowList(s.databases, 1, s.nextDatabaseID);
    BelowList(s.tables, 1, s.nextTableID);
    BelowList(s.shards, 1, s.nextShardID);
    BelowList(s.shardServers, CONFIG_MIN_SHARD_NODE_ID, s.nextNodeID);
  }

  // The receiver gets the replicated part of the sender, or fails an assertion if some database
  // cannot be read back.
  lemma RestoredIsShared(t: State, sender: State)
    requires Numbered(sender) && StateFits(sender)
    ensures Restored(t, StateText(sender, false)).Got? <==> forall d :: d in sender.databases ==> DatabaseReadable(d)
    ensures Restored(t, StateText(sender, false)).Got? ==>
              Shared(Restored(t, StateText(sender, false)).value) == Shared(sender)
              && Restored(t, StateText(sender, false)).value == Shared(sender).(hasMaster := t.hasMaster, masterID := t.masterID)
  {
    hide StateFits, ReadState, StateText, DatabaseReadable, CountersAbove, MapObj, Written, Numbered;
    NumberedCounters(sender);
    WrittenIsShared(sender);
    SharedTwice(sender);
    StateRoundTrip(sender, false);
  }

  lemma SharedTwice(s: State)
    ensures Shared(Shared(s)) == Shared(s)
  {
    assert MapObj(MapObj(s.quorums, SharedQuorum), SharedQuorum) == MapObj(s.quorums, SharedQuorum);
    assert MapObj(MapObj(s.shards, SharedShard), SharedShard) == MapObj(s.shards, SharedShard);
    assert MapObj(MapObj(s.shardServers, SharedServer), SharedServer) == MapObj(s.shardServers, SharedServer);
  }

  // Applying a log when the database already reflects its first entries: those are passed over.
  function ReplayAfter(s: State, databasePaxosID: nat, log: seq<Message>, roles: seq<bool>, i: nat): Result<State>
    requires |log| == |roles| && i <= |log|
    decreases |log| - i
  {
    if i == |log| then Ok(s)
    else if i + 1 <= databasePaxosID then ReplayAfter(s, databasePaxosID, log, roles, i + 1)
    else
      var s1 :- OnAppend(s, i + 1, log[i], roles[i]);
      ReplayAfter(s1, databasePaxosID, log, roles, i + 1)
  }

  lemma {:induction false} PassedOver(s: State, n: nat, log: seq<Message>, roles: seq<bool>, i: nat)
    requires |log| == |roles| && i <= |log| && n <= |log|
    ensures ReplayAfter(s, n, log, roles, i) == Replay(s, log, roles, if i < n then n else i, |log|)
    decreases |log| - i
  {
    hide OnAppend;
    if i < |log| {
      if i + 1 <= n {
        PassedOver(s, n, log, roles, i + 1);
      } else if OnAppend(s, i + 1, log[i], roles[i]).Ok? {
        PassedOver(OnAppend(s, i + 1, log[i], roles[i]).value, n, log, roles, i + 1);
      }
    }
  }

  // Main result: a controller restored from a sender that had applied n entries, and then given the
  // whole log, agrees with a controller that applied every entry from the start.
  lemma CatchupEqualsReplay(t: State, sender: State, n: nat, log: seq<Message>, a: seq<bool>, b: seq<bool>, c: seq<bool>)
    requires |log| == |a| == |b| == |c| && n <= |log|
    requires Replay(EmptyState, log, a, 0, n) == Ok(sender) && Numbered(sender) && StateFits(sender)
    requires Restored(t, StateText(sender, false)).Got?
    requires ReplayAfter(Restored(t, StateText(sender, false)).value, n, log, b, 0).Ok?
    requires Replay(EmptyState, log, c, 0, |log|).Ok?
    ensures Shared(ReplayAfter(Restored(t, StateText(sender, false)).value, n, log, b, 0).value)
              == Shared(Replay(EmptyState, log, c, 0, |log|).value)
  {
    hide Shared, Restored, StateText, StateFits, Numbered, OnAppend;
    var r := Restored(t, StateText(sender, false)).value;
    RestoredIsShared(t, sender);
    PassedOver(r, n, log, b, 0);
    ReplayComposes(EmptyState, log, c, 0, n, |log|);
    var middle := Replay(EmptyState, log, c, 0, n).value;
    ReplicasAgree(EmptyState, EmptyState, log, a, c, 0, n);
    ReplicasAgree(r, middle, log, b, c, n, |log|);
  }
}
