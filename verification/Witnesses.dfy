// Inputs at which the properties that do not hold of the code fail.

module Witnesses {
  import opened Bytes
  import opened KeyedLists
  import opened Formatting
  import opened ConfigMessages
  import opened Schema
  import opened SchemaInvariant
  import opened SchemaSteps
  import opened Controllers
  import opened Runs
  import opened Membership
  import opened Guards
  import opened NameGuards
  import opened StateCodec
  import opened Activation
  import opened RequestProxies
  import opened ListResponses
  import opened Listings

  const A: bytes := [97]
  const B: bytes := [98]

  // ---- accepted, and yet an assertion fails when the entry is applied

  // The completion of a truncation of a table that does not exist.
  lemma NoTruncationUnderWay()
    ensures WellFormed(EmptyState)
    ensures CompleteMessage(EmptyState, TruncateTableComplete(1)).Accepted? && OnMessage(EmptyState, TruncateTableComplete(1)).Stopped?
  {
    EmptyIsWellFormed();
  }

  // One quorum that is activating a node that is not registered.
  const Activating1: State := EmptyState.(
    quorums := [Keyed(1, NewQuorum.(inactiveNodes := [100], isActivatingNode := true, activatingNodeID := 100))],
    nextQuorumID := 2)

  lemma ActivatedNodeUnknown()
    ensures WellFormed(Activating1)
    ensures CompleteMessage(Activating1, ActivateShardServer(1, 100, false)).Accepted?
            && OnMessage(Activating1, ActivateShardServer(1, 100, false)).Stopped?
  {
    var s := EmptyState;
    EmptyIsWellFormed();
    OnCreateQuorumKeeps(s, A, []);
    var s' := OnCreateQuorum(s, A, []);
    assert Has(s'.quorums, 1);
    PutQuorumKeeps(s', 1, Activating1.quorums[0].obj);
    assert PutQuorum(s', 1, Activating1.quorums[0].obj) == Activating1;
  }

  // One quorum, one database, one table with one shard.
  function OneTable(): State {
    AddTable(EmptyState.(quorums := [Keyed(1, NewQuorum)], nextQuorumID := 2, databases := [Keyed(1, Database(A, []))], nextDatabaseID := 2),
             1, 1, A)
  }

  lemma OneTableIsWellFormed()
    ensures WellFormed(OneTable()) && Has(OneTable().shards, 1) && Has(OneTable().quorums, 1) && !Has(OneTable().quorums, 2)
  {
    EmptyIsWellFormed();
    var s1 := OnCreateQuorum(EmptyState, A, []);
    OnCreateQuorumKeeps(EmptyState, A, []);
    PutQuorumKeeps(s1, 1, NewQuorum);
    var s2 := PutQuorum(s1, 1, NewQuorum);
    OnCreateDatabaseKeeps(s2, A);
    var s3 := OnCreateDatabase(s2, A).value;
    assert s3 == EmptyState.(quorums := [Keyed(1, NewQuorum)], nextQuorumID := 2, databases := [Keyed(1, Database(A, []))], nextDatabaseID := 2);
    hide WellFormed;
    OnCreateTableKeeps(s3, 1, 1, A);
  }

  // A migration to a quorum that was deleted while it was under way.
  function Migrating(quorumID: nat): State {
    OneTable().(nextShardID := 3, isMigrating := true, migrateQuorumID := quorumID, migrateSrcShardID := 1, migrateDstShardID := 2)
  }

  lemma MigratingIsWellFormed(quorumID: nat)
    ensures WellFormed(Migrating(quorumID)) && Has(Migrating(quorumID).shards, 1) && !Has(Migrating(quorumID).quorums, 2)
  {
    OneTableIsWellFormed();
    var s, s' := OneTable(), Migrating(quorumID);
    BumpKeeps(s);
    SameStructure(s.(nextShardID := 3), s');
  }

  lemma SameStructure(s: State, s': State)
    requires WellFormed(s) && s' == s.(isMigrating := s'.isMigrating, migrateQuorumID := s'.migrateQuorumID,
                                       migrateSrcShardID := s'.migrateSrcShardID, migrateDstShardID := s'.migrateDstShardID)
    ensures WellFormed(s')
  {
    assert StructureOf(s') == StructureOf(s);
  }

  lemma MigrationTargetGone()
    ensures WellFormed(Migrating(2))
    ensures CompleteMessage(Migrating(2), ShardMigrationComplete(2, 1, 2)).Accepted?
            && OnMessage(Migrating(2), ShardMigrationComplete(2, 1, 2)).Stopped?
  {
    MigratingIsWellFormed(2);
    MigrationNoted(2);
    hide WellFormed, Migrating, AsMap;
    EndStops(Migrating(2), 2);
  }

  lemma MigrationNoted(quorumID: nat)
    ensures var s := Migrating(quorumID); s.isMigrating && s.migrateQuorumID == quorumID && s.migrateSrcShardID == 1
  {
    hide OneTable;
  }

  lemma EndStops(s: State, quorumID: nat)
    requires WellFormed(s) && Has(s.shards, 1) && !Has(s.quorums, quorumID)
    requires s.isMigrating && s.migrateQuorumID == quorumID && s.migrateSrcShardID == 1
    ensures CompleteMessage(s, ShardMigrationComplete(quorumID, 1, 2)).Accepted?
            && OnMessage(s, ShardMigrationComplete(quorumID, 1, 2)).Stopped?
  {
    hide WellFormed, OnMessage, AsMap;
    StepKeeps(s, ShardMigrationComplete(quorumID, 1, 2));
  }

  // ---- the check itself fails an assertion

  lemma SplitShardGone()
    ensures WellFormed(EmptyState) && CompleteMessage(EmptyState, SplitShardComplete(1)).Aborted?
  {
    EmptyIsWellFormed();
  }

  // ---- a quorum with the same node twice

  const OneServer: State := EmptyState.(shardServers := [Keyed(100, NewShardServer(A))], nextNodeID := 101)

  lemma SameNodeTwice()
    ensures CompleteMessage(OneServer, CreateQuorum(A, [100, 100])).Accepted? && MembersSound(OneServer)
    ensures !MembersSound(OnCreateQuorum(OneServer, A, [100, 100]))
  {
    CreateQuorumMembers(OneServer, A, [100, 100]);
    assert 100 in [100, 100][1..];
  }

  // ... from which the last active node can then be removed: one of the two is deactivated first.
  const Twice: State := OneServer.(
    quorums := [Keyed(1, NewQuorum.(name := A, activeNodes := [100], inactiveNodes := [100]))], nextQuorumID := 2)

  lemma TwiceReached()
    ensures OnMessage(OneServer, CreateQuorum(A, [100, 100])).Ok?
    ensures var s := OnMessage(OneServer, CreateQuorum(A, [100, 100])).value;
            CompleteMessage(s, DeactivateShardServer(1, 100, false)).Accepted?
            && OnMessage(s, DeactivateShardServer(1, 100, false)) == Ok(Twice)
  {
    assert AddSorted([], 100) == [100] && [100, 100][1..] == [100] && [100][1..] == [];
    assert AddSorted([100], 100) == [100, 100] && Remove([100, 100], 100) == [100];
    assert AddAll([], [100, 100]) == AddAll([100], [100]) == AddAll([100, 100], []) == [100, 100];
    var q := NewQuorum.(name := A, activeNodes := [100, 100]);
    assert OnCreateQuorum(OneServer, A, [100, 100]).quorums == [Keyed(1, q)];
    assert Put([Keyed(1, q)], 1, Twice.quorums[0].obj) == Twice.quorums;
  }

  lemma LastActiveRemoved()
    ensures CompleteMessage(Twice, RemoveShardServerFromQuorum(1, 100)).Accepted?
    ensures OnMessage(Twice, RemoveShardServerFromQuorum(1, 100)) == Ok(Twice.(quorums := [Keyed(1, NewQuorum.(name := A, inactiveNodes := [100]))]))
  {
    var q := NewQuorum.(name := A, inactiveNodes := [100]);
    assert Remove([100], 100) == [];
    assert Put(Twice.quorums, 1, q) == [Keyed(1, q)];
  }

  // ---- guards that are missing

  // A node that is not registered becomes a member.
  lemma UnregisteredAdded()
    ensures var s := EmptyState.(quorums := [Keyed(1, NewQuorum)], nextQuorumID := 2);
            AllRegistered(s) && CompleteMessage(s, AddShardServerToQuorum(1, 100)).Accepted?
            && OnMessage(s, AddShardServerToQuorum(1, 100)).Ok? && !AllRegistered(OnMessage(s, AddShardServerToQuorum(1, 100)).value)
  {
    var s := EmptyState.(quorums := [Keyed(1, NewQuorum)], nextQuorumID := 2);
    assert OnMessage(s, AddShardServerToQuorum(1, 100)).value.quorums == [Keyed(1, NewQuorum.(inactiveNodes := [100]))];
    assert AsMap([Keyed(1, NewQuorum.(inactiveNodes := [100]))])[1].IsMember(100);
    assert 100 !in AsMap(s.shardServers);
  }

  // Quorum 1 was given the name that quorum 2 gets by default.
  lemma SameDefaultName()
    ensures var s := EmptyState.(quorums := [Keyed(1, NewQuorum.(name := DefaultQuorumName(2)))], nextQuorumID := 2);
            QuorumNamesUnique(AsMap(s.quorums)) && CompleteMessage(s, CreateQuorum([], [])).Accepted?
            && OnMessage(s, CreateQuorum([], [])).Ok? && !QuorumNamesUnique(AsMap(OnMessage(s, CreateQuorum([], [])).value.quorums))
  {
    hide QuorumNamesUnique;
    var s := EmptyState.(quorums := [Keyed(1, NewQuorum.(name := DefaultQuorumName(2)))], nextQuorumID := 2);
    assert AsMap(s.quorums) == map[1 := NewQuorum.(name := DefaultQuorumName(2))];
    var qs := AsMap(OnMessage(s, CreateQuorum([], [])).value.quorums);
    assert qs[1].name == qs[2].name == DefaultQuorumName(2);
    OneNameUnique(AsMap(s.quorums), 1);
    TwoAlike(qs, 1, 2);
  }

  lemma OneNameUnique(qs: map<nat, Quorum>, q: nat)
    requires qs.Keys == {q}
    ensures QuorumNamesUnique(qs)
  {}

  lemma TwoAlike(qs: map<nat, Quorum>, a: nat, b: nat)
    requires a in qs && b in qs && a != b && qs[a].name == qs[b].name
    ensures !QuorumNamesUnique(qs)
  {}

  // ---- a state that cannot be read back

  const Nameless: State := EmptyState.(databases := [Keyed(1, Database([], []))], nextDatabaseID := 2)

  lemma NamelessFits()
    ensures StateFits(Nameless) && CountersAbove(Nameless) && !forall d :: d in Nameless.databases ==> DatabaseReadable(d)
  {
    assert Nameless.databases[0] in Nameless.databases && !DatabaseReadable(Nameless.databases[0]);
  }

  lemma CreatesNameless()
    ensures CompleteMessage(EmptyState, CreateDatabase([])).Accepted? && OnMessage(EmptyState, CreateDatabase([])) == Ok(Nameless)
  {
    var d := Database([], []);
    assert EmptyState.databases == [] && Append(EmptyState.databases, 1, d) == [Keyed(1, d)];
    assert OnCreateDatabase(EmptyState, []).value.databases == [Keyed(1, d)];
  }

  lemma NamelessDatabase()
    ensures CompleteMessage(EmptyState, CreateDatabase([])).Accepted? && OnMessage(EmptyState, CreateDatabase([])) == Ok(Nameless)
    ensures ReadState(false, StateText(Nameless, false)) == Parsed.Failed
  {
    CreatesNameless();
    NamelessFits();
    hide StateText, ReadState, StateFits, CountersAbove, DatabaseReadable;
    StateRoundTrip(Nameless, false);
  }

  // ---- a follower that keeps a finished migration in mind

  const Set2Aside: History := History(map[2 := 1], {1})

  lemma FinishedMigrationKept()
    ensures var s, h, m := Migrating(1), Set2Aside, ShardMigrationComplete(1, 1, 2);
            HistoryInv(s, h) && MigrationOngoing(s, h) && OnAppend(s, 1, m, false).Ok?
            && var s' := OnAppend(s, 1, m, false).value;
               s'.isMigrating && !Has(s'.shards, s'.migrateSrcShardID) && !MigrationOngoing(s', Record(s, h, m, s'))
  {
    var s, h, m := Migrating(1), Set2Aside, ShardMigrationComplete(1, 1, 2);
    BeforeTheEnd();
    AppliedAsFollower();
    assert s.isMigrating && s.migrateSrcShardID == 1;
    hide HistoryInv, MigrationOngoing, OnAppend, Migrating, Unique, Record;
    MigrationStep(s, h, 1, m, false);
  }

  lemma BeforeTheEnd()
    ensures HistoryInv(Migrating(1), Set2Aside) && MigrationOngoing(Migrating(1), Set2Aside) && Unique(Migrating(1).shards)
  {
    OneTableShards();
    assert ShardIDs(Migrating(1)) == ShardIDs(OneTable());
    MigratingIsWellFormed(1);
    UniqueShards(Migrating(1));
    hide OneTable, WellFormed, Unique;
  }

  lemma AppliedAsFollower()
    ensures OnAppend(Migrating(1), 1, ShardMigrationComplete(1, 1, 2), false).Ok?
    ensures var s' := OnAppend(Migrating(1), 1, ShardMigrationComplete(1, 1, 2), false).value;
            s'.isMigrating && s'.migrateSrcShardID == 1 && !Has(s'.shards, 1)
  {
    MigrationApplies(Migrating(1).(paxosID := 1));
    MigrationFlags(Migrating(1).(paxosID := 1));
    hide OnMessage, OneTable;
  }

  lemma MigrationFlags(s: State)
    requires OnMessage(s, ShardMigrationComplete(1, 1, 2)).Ok?
    ensures var s' := OnMessage(s, ShardMigrationComplete(1, 1, 2)).value;
            s'.isMigrating == s.isMigrating && s'.migrateSrcShardID == s.migrateSrcShardID
  {}

  lemma OneTableShards()
    ensures ShardIDs(OneTable()) == {1}
  {}

  lemma MigrationApplies(s: State)
    requires s == Migrating(1).(paxosID := 1)
    ensures OnMessage(s, ShardMigrationComplete(1, 1, 2)).Ok?
    ensures !Has(OnMessage(s, ShardMigrationComplete(1, 1, 2)).value.shards, 1)
  {}

  // ---- an activation that is being replicated when the timer fires

  lemma ReplicatingIsLate(nodeID: nat, expireTime: nat, paxosID: nat, now: nat)
    requires expireTime > 0 && now > 0
    ensures var q := OnActivationReplication(OnActivationMonitoring(OnActivationStart(NewQuorum, nodeID, expireTime), paxosID));
            Replicating(q) && q.isActivatingNode && q.activationExpireTime < now
  {}

  // ---- a listing with a delete of a key that the table does not hold

  const WholeTable: ListRequest := ListRequest(1, [], [], [], 0, false)

  lemma DeleteOfAbsentKey()
    ensures var p, table := TableWrites([Write(1, A, None)], 1), [Entry(B, B)];
            Answer(WholeTable, p, table) == Crashed && EntriesWanted(WholeTable, Overlay(p, table)) == table
  {
    var w, table := [Write(1, A, None)], [Entry(B, B)];
    var p := TableWrites(w, 1);
    assert w[1..] == [] && TableWrites(w[1..], 1) == [];
    assert p == [Pending(A, None)] + [] && p[1..] == [];
    assert InList(WholeTable, A) && InList(WholeTable, B) && Wanted(WholeTable, A) && Wanted(WholeTable, B);
    OnlyOne(p, table);
    assert Less(A, B);
    hide InList, Wanted, Less, Cmp;
    assert Overlay(p, table) == Shown(p[0]) + Overlay([], table) == table;
    assert NextValue(p) == NextValue(p[1..]) == None;
  }

  lemma OnlyOne(p: seq<Pending>, table: seq<Entry>)
    requires p == [Pending(A, None)] && table == [Entry(B, B)] && Wanted(WholeTable, A) && Wanted(WholeTable, B)
    ensures PendingWanted(WholeTable, p) == p && EntriesWanted(WholeTable, table) == table
    ensures WithoutStart(WholeTable, ServerPage(WholeTable, table, 0)) == table
  {
    assert p[1..] == [] && table[1..] == [];
    assert EntriesIn(WholeTable, table) == table;
  }
}
