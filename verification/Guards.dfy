// What the checks of a message protect: which properties of the states survive every entry that was
// accepted, and exactly which entries they do not survive.

module Guards {
  import opened Bytes
  import opened KeyedLists
  import opened Links
  import opened ConfigMessages
  import opened Schema
  import opened SchemaInvariant
  import opened SchemaSteps
  import opened Runs
  import opened Membership
  import opened PrimaryLeases
  import opened Effects
  import opened ActivationAndLog
  import opened EntryEffects

  // The entry was accepted in this state, or is the end of a migration, which a run does not check again.
  predicate Checked(s: State, m: Message) { m.ShardMigrationComplete? || CompleteMessage(s, m).Accepted? }

  lemma {:induction false} ElsewhereMap<T>(l: seq<Keyed<T>>, l': seq<Keyed<T>>, id: nat, x: nat)
    requires Elsewhere(l, l', id) && x != id
    ensures x in AsMap(l') <==> x in AsMap(l)
    ensures x in AsMap(l) ==> AsMap(l')[x] == AsMap(l)[x]
  {
    SamePlace(l, l', x);
  }

  predicate MovesNode(m: Message) {
    m.AddShardServerToQuorum? || m.RemoveShardServerFromQuorum? || m.ActivateShardServer? || m.DeactivateShardServer?
  }

  // ---- which changes of members are let in

  lemma MemberGuards(s: State, q: nat, n: nat, force: bool, priority: nat)
    ensures CompleteMessage(s, AddShardServerToQuorum(q, n)).Accepted? <==>
              q in AsMap(s.quorums) && n !in AsMap(s.quorums)[q].activeNodes && n !in AsMap(s.quorums)[q].inactiveNodes
    ensures CompleteMessage(s, RemoveShardServerFromQuorum(q, n)).Accepted? <==>
              q in AsMap(s.quorums) && (n in AsMap(s.quorums)[q].activeNodes || n in AsMap(s.quorums)[q].inactiveNodes)
              && (n !in AsMap(s.quorums)[q].inactiveNodes ==> AsMap(s.quorums)[q].activeNodes != [n])
    ensures CompleteMessage(s, ActivateShardServer(q, n, force)).Accepted? <==>
              q in AsMap(s.quorums) && n in AsMap(s.quorums)[q].inactiveNodes
    ensures CompleteMessage(s, DeactivateShardServer(q, n, force)).Accepted? <==>
              q in AsMap(s.quorums) && n in AsMap(s.quorums)[q].activeNodes && (!force ==> AsMap(s.quorums)[q].activeNodes != [n])
    ensures CompleteMessage(s, SetPriority(q, n, priority)).Accepted? <==>
              q in AsMap(s.quorums) && n in AsMap(s.shardServers)
              && (n in AsMap(s.quorums)[q].activeNodes || n in AsMap(s.quorums)[q].inactiveNodes)
  {
    hide AsMap, IndexOf;
    if Has(s.quorums, q) { OnlyOne(Get(s.quorums, q).activeNodes, n); }
  }

  lemma OnlyOne(l: seq<nat>, n: nat)
    ensures n in l ==> (|l| == 1 <==> l == [n])
  {}

  // ---- the last active node

  // The entries that leave a quorum without its last active node: its forced deactivation, and its
  // removal where it is listed among the inactive nodes as well.
  predicate TakesLast(s: State, m: Message, q: nat)
    requires q in AsMap(s.quorums)
  {
    var o := AsMap(s.quorums)[q];
    || (m.DeactivateShardServer? && m.quorumID == q && m.force && o.activeNodes == [m.nodeID])
    || (m.RemoveShardServerFromQuorum? && m.quorumID == q && o.activeNodes == [m.nodeID] && m.nodeID in o.inactiveNodes)
  }

  lemma OneLess(l: seq<nat>, l': seq<nat>, n: nat)
    requires n in l && multiset(l') == multiset(l) - multiset{n}
    ensures |l'| == |l| - 1
  {
    assert |multiset(l')| == |multiset(l)| - 1;
  }

  // Entries about members touch one quorum.
  lemma OneQuorumMoves(s: State, m: Message)
    requires MovesNode(m) && OnMessage(s, m).Ok?
    ensures m.quorumID in AsMap(s.quorums) && m.quorumID in AsMap(OnMessage(s, m).value.quorums)
    ensures OnMessage(s, m).value == s.(quorums := OnMessage(s, m).value.quorums)
    ensures Elsewhere(s.quorums, OnMessage(s, m).value.quorums, m.quorumID)
  {
    hide OnMessage, AsMap, IndexOf, Elsewhere;
    match m {
      case AddShardServerToQuorum(id, n) => AddEntry(s, id, n);
      case RemoveShardServerFromQuorum(id, n) => RemoveEntry(s, id, n);
      case ActivateShardServer(id, n, force) => ActivateEntry(s, id, n, force);
      case DeactivateShardServer(id, n, force) => DeactivateEntry(s, id, n, force);
    }
  }

  lemma ShrinksActive(s: State, m: Message)
    requires m.RemoveShardServerFromQuorum? || m.DeactivateShardServer?
    requires CompleteMessage(s, m).Accepted? && OnMessage(s, m).Ok?
    requires m.quorumID in AsMap(s.quorums) && AsMap(s.quorums)[m.quorumID].activeNodes != []
    ensures var s' := OnMessage(s, m).value;
            m.quorumID in AsMap(s'.quorums) && (AsMap(s'.quorums)[m.quorumID].activeNodes != [] <==> !TakesLast(s, m, m.quorumID))
  {
    hide CompleteMessage, OnMessage, AsMap, IndexOf, Elsewhere;
    var id, n := m.quorumID, m.nodeID;
    MemberGuards(s, id, n, m.DeactivateShardServer? && m.force, 0);
    if m.DeactivateShardServer? { DeactivateEntry(s, id, n, m.force); } else { RemoveEntry(s, id, n); }
    var s' := OnMessage(s, m).value;
    var a, a' := Get(s.quorums, id).activeNodes, Get(s'.quorums, id).activeNodes;
    if n in a { OneLess(a, a', n); }
  }

  lemma MoveLastActive(s: State, m: Message, q: nat)
    requires MovesNode(m) && CompleteMessage(s, m).Accepted? && OnMessage(s, m).Ok?
    requires q in AsMap(s.quorums) && AsMap(s.quorums)[q].activeNodes != []
    ensures var s' := OnMessage(s, m).value;
            q in AsMap(s'.quorums) && (AsMap(s'.quorums)[q].activeNodes != [] <==> !TakesLast(s, m, q))
  {
    hide CompleteMessage, OnMessage, AsMap, IndexOf, Elsewhere;
    if q != m.quorumID {
      OneQuorumMoves(s, m);
      ElsewhereMap(s.quorums, OnMessage(s, m).value.quorums, m.quorumID, q);
    } else if m.AddShardServerToQuorum? {
      AddEntry(s, q, m.nodeID);
    } else if m.ActivateShardServer? {
      ActivateEntry(s, q, m.nodeID, m.force);
      assert m.nodeID in multiset(Get(OnMessage(s, m).value.quorums, q).activeNodes);
    } else {
      ShrinksActive(s, m);
    }
  }

  // Main result: an accepted entry leaves a quorum that had an active node with one, if and only if it
  // is not one of these two; where members are sound only the forced deactivation is left.
  lemma LastActiveKept(s: State, m: Message, q: nat)
    requires WellFormed(s) && Checked(s, m) && OnMessage(s, m).Ok?
    requires q in AsMap(s.quorums) && AsMap(s.quorums)[q].activeNodes != [] && q in AsMap(OnMessage(s, m).value.quorums)
    ensures AsMap(OnMessage(s, m).value.quorums)[q].activeNodes != [] <==> !TakesLast(s, m, q)
    ensures MembersSound(s) ==>
              (TakesLast(s, m, q) <==>
                 m.DeactivateShardServer? && m.force && m.quorumID == q && AsMap(s.quorums)[q].activeNodes == [m.nodeID])
  {
    hide WellFormed, CompleteMessage, OnMessage, AsMap, IndexOf, Sorted, NoDup;
    NumberFree(s);
    if MovesNode(m) {
      MoveLastActive(s, m, q);
    } else if m.CreateQuorum? {
      CreateQuorumEntry(s, m.name, m.nodes);
    } else {
      OthersKeepMembers(s, m);
    }
  }
  // ---- registered members

  // Every member of every quorum is registered.
  ghost predicate AllRegistered(s: State) {
    forall q, n :: q in AsMap(s.quorums) && AsMap(s.quorums)[q].IsMember(n) ==> n in AsMap(s.shardServers)
  }

  predicate AddsUnregistered(s: State, m: Message) { m.AddShardServerToQuorum? && m.nodeID !in AsMap(s.shardServers) }

  lemma CountedIn(l: seq<nat>, n: nat)
    ensures n in l <==> n in multiset(l)
  {}

  // The members of the quorum that such an entry touches, afterwards.
  lemma MovedMember(s: State, m: Message, x: nat)
    requires MovesNode(m) && OnMessage(s, m).Ok?
    ensures m.quorumID in AsMap(s.quorums) && m.quorumID in AsMap(OnMessage(s, m).value.quorums)
    ensures var q, q' := AsMap(s.quorums)[m.quorumID], AsMap(OnMessage(s, m).value.quorums)[m.quorumID];
            && (q'.IsMember(x) ==> q.IsMember(x) || (x == m.nodeID && m.AddShardServerToQuorum?))
            && (m.AddShardServerToQuorum? ==> q'.IsMember(m.nodeID))
  {
    hide OnMessage, AsMap, IndexOf, Elsewhere;
    var id, n := m.quorumID, m.nodeID;
    if m.AddShardServerToQuorum? { AddEntry(s, id, n); }
    if m.RemoveShardServerFromQuorum? { RemoveEntry(s, id, n); }
    if m.ActivateShardServer? { ActivateEntry(s, id, n, m.force); }
    if m.DeactivateShardServer? { DeactivateEntry(s, id, n, m.force); }
    var q' := Get(OnMessage(s, m).value.quorums, id);
    CountedIn(q'.activeNodes, x);
    CountedIn(q'.inactiveNodes, x);
    CountedIn(q'.inactiveNodes, n);
  }

  lemma MoveKeepsRegistered(s: State, m: Message)
    requires MovesNode(m) && OnMessage(s, m).Ok? && AllRegistered(s)
    ensures AllRegistered(OnMessage(s, m).value) <==> !AddsUnregistered(s, m)
  {
    hide OnMessage, AsMap, IndexOf, Elsewhere;
    OneQuorumMoves(s, m);
    var s' := OnMessage(s, m).value;
    forall q, n | q in AsMap(s'.quorums) && AsMap(s'.quorums)[q].IsMember(n) && !AddsUnregistered(s, m)
      ensures n in AsMap(s'.shardServers)
    {
      if q == m.quorumID { MovedMember(s, m, n); } else { ElsewhereMap(s.quorums, s'.quorums, m.quorumID, q); }
    }
    if AddsUnregistered(s, m) { MovedMember(s, m, m.nodeID); }
  }

  lemma ServersKeepRegistered(s: State, m: Message)
    requires m.RegisterShardServer? || m.UnregisterShardServer? || m.SetPriority? || m.CreateQuorum?
    requires WellFormed(s) && CompleteMessage(s, m).Accepted? && OnMessage(s, m).Ok? && AllRegistered(s)
    ensures AllRegistered(OnMessage(s, m).value)
  {
    hide WellFormed, OnMessage, AsMap, IndexOf, Elsewhere, QuorumNamed, GoodName;
    NumberFree(s);
    NodeNumbers(s);
    match m {
      case RegisterShardServer(n, endpoint) =>
        RegisterEntry(s, n, endpoint);
        if Has(s.shardServers, n) { SameKeysElsewhere(s.shardServers, OnMessage(s, m).value.shardServers, n); }
      case UnregisterShardServer(n) =>
        UnregisterEntry(s, n);
        NoMember(s, n);
        var s' := OnMessage(s, m).value;
        forall q, x | q in AsMap(s'.quorums) && AsMap(s'.quorums)[q].IsMember(x) ensures x in AsMap(s'.shardServers) {
          assert !AsMap(s.quorums)[q].IsMember(n);
        }
      case SetPriority(q, n, priority) =>
        SetPriorityEntry(s, q, n, priority, q);
        SameKeysElsewhere(s.shardServers, OnMessage(s, m).value.shardServers, n);
      case CreateQuorum(name, nodes) =>
        CreateQuorumEntry(s, name, nodes);
        var o := Get(OnMessage(s, m).value.quorums, s.nextQuorumID);
        forall n | o.IsMember(n) ensures n in AsMap(s.shardServers) {
          CountedIn(o.activeNodes, n);
          CountedIn(nodes, n);
        }
    }
  }

  // Only a registered node that no quorum has as a member is taken off the register.
  lemma NoMember(s: State, n: nat)
    requires Unique(s.quorums)
    ensures CompleteMessage(s, UnregisterShardServer(n)).Accepted? <==>
              n in AsMap(s.shardServers) && forall q :: q in AsMap(s.quorums) ==> !AsMap(s.quorums)[q].IsMember(n)
  {
    hide Unique;
    if k: nat :| k < |s.quorums| && s.quorums[k].obj.IsMember(n) {
      UniqueAt(s.quorums, k);
      assert AsMap(s.quorums)[s.quorums[k].id].IsMember(n);
    } else {
      forall q | q in AsMap(s.quorums) ensures !AsMap(s.quorums)[q].IsMember(n) {
        SamePlace(s.quorums, s.quorums, q);
        assert !s.quorums[IndexOf(s.quorums, q)].obj.IsMember(n);
      }
    }
  }

  lemma UniqueAt<T>(l: seq<Keyed<T>>, k: nat)
    requires Unique(l) && k < |l|
    ensures l[k].id in AsMap(l) && AsMap(l)[l[k].id] == l[k].obj
  {
    InMap(l, k);
  }

  lemma NodeNumbers(s: State)
    requires WellFormed(s)
    ensures Unique(s.shardServers) && !Has(s.shardServers, s.nextNodeID)
  {}

  lemma SameKeysElsewhere<T>(l: seq<Keyed<T>>, l': seq<Keyed<T>>, id: nat)
    requires Elsewhere(l, l', id)
    ensures AsMap(l').Keys == AsMap(l).Keys
  {
    forall x ensures x in AsMap(l') <==> x in AsMap(l) { SamePlace(l, l', x); }
  }

  // Main result: members stay registered, if and only if no unregistered node is added to a quorum,
  // which the check does not look at.
  lemma RegisteredStep(s: State, m: Message)
    requires WellFormed(s) && Checked(s, m) && OnMessage(s, m).Ok? && AllRegistered(s)
    ensures AllRegistered(OnMessage(s, m).value) <==> !AddsUnregistered(s, m)
  {
    hide WellFormed, CompleteMessage, OnMessage, AllRegistered;
    NumberFree(s);
    if MovesNode(m) {
      MoveKeepsRegistered(s, m);
    } else if m.RegisterShardServer? || m.UnregisterShardServer? || m.SetPriority? || m.CreateQuorum? {
      ServersKeepRegistered(s, m);
    } else {
      OthersKeepMembers(s, m);
      ServersOf(s, m);
      KeptRegistered(s, OnMessage(s, m).value);
    }
  }

  lemma KeptRegistered(s: State, s': State)
    requires AllRegistered(s) && MembersKept(s, s') && s'.shardServers == s.shardServers
    ensures AllRegistered(s')
  {}

  // ---- priorities

  function PriorityFor(s: State, n: nat, q: nat): nat
    requires n in AsMap(s.shardServers)
  {
    PriorityOf(AsMap(s.shardServers)[n].quorumPriorities, q)
  }

  // Main result: an entry gives a node another priority for a quorum only if the node is a member of it,
  // and that one priority is then the one asked for.
  lemma PriorityStep(s: State, m: Message, n: nat, q: nat)
    requires WellFormed(s) && Checked(s, m) && OnMessage(s, m).Ok?
    requires n in AsMap(OnMessage(s, m).value.shardServers)
    ensures var s' := OnMessage(s, m).value;
            PriorityFor(s', n, q) != (if n in AsMap(s.shardServers) then PriorityFor(s, n, q) else 1) ==>
              q in AsMap(s.quorums) && AsMap(s.quorums)[q].IsMember(n) && m == SetPriority(q, n, PriorityFor(s', n, q))
  {
    hide WellFormed, OnMessage, AsMap, IndexOf, Elsewhere, PriorityOf;
    NodeNumbers(s);
    match m {
      case RegisterShardServer(x, endpoint) =>
        RegisterEntry(s, x, endpoint);
        NoPriority(q);
        if Has(s.shardServers, x) && n != x { ElsewhereMap(s.shardServers, OnMessage(s, m).value.shardServers, x, n); }
      case UnregisterShardServer(x) => UnregisterEntry(s, x);
      case SetPriority(r, x, priority) =>
        SetPriorityEntry(s, r, x, priority, q);
        if n != x { ElsewhereMap(s.shardServers, OnMessage(s, m).value.shardServers, x, n); }
      case _ => ServersOf(s, m);
    }
  }

  lemma NoPriority(q: nat)
    ensures PriorityOf([], q) == 1
  {}

  // ---- settled quorums

  // No node of the quorum is inactive or on its way back.
  predicate Settled(s: State, q: nat) {
    q in AsMap(s.quorums) && !AsMap(s.quorums)[q].isActivatingNode && AsMap(s.quorums)[q].inactiveNodes == []
  }

  lemma {:induction false} TruncateAccepted(s: State, ids: seq<nat>)
    requires forall id :: id in ids ==> id in AsMap(s.shards) && AsMap(s.shards)[id].quorumID in AsMap(s.quorums)
    ensures TruncateVerdict(s, ids).Accepted? <==> forall id :: id in ids ==> Settled(s, AsMap(s.shards)[id].quorumID)
  {
    if ids != [] {
      assert ids[0] in ids && forall id :: id in ids <==> id == ids[0] || id in ids[1..];
      TruncateAccepted(s, ids[1..]);
    }
  }

  // The shards listed by a table are those that name it as their table.
  lemma ShardsOfTable(s: State, t: nat)
    requires WellFormed(s) && Has(s.tables, t)
    ensures forall id :: id in Get(s.tables, t).shards <==> id in AsMap(s.shards) && AsMap(s.shards)[id].tableID == t
    ensures forall id :: id in AsMap(s.shards) ==> AsMap(s.shards)[id].quorumID in AsMap(s.quorums)
  {
    hide Tiled, Numbered, TableNamesUnique, DatabaseNamesUnique, AsMap, IndexOf;
    var x := StructureOf(s);
    TableList(x, t);
    forall id | id in AsMap(s.shards) ensures id in Get(s.tables, t).shards <==> AsMap(s.shards)[id].tableID == t {
      OneList(x.tableOf, x.tableShards, {}, id);
    }
    forall id | id in AsMap(s.shards) ensures AsMap(s.shards)[id].quorumID in AsMap(s.quorums) { ShardParents(s, id); }
  }

  lemma TruncateGuard(s: State, t: nat)
    requires WellFormed(s)
    ensures CompleteMessage(s, TruncateTableBegin(t)).Accepted? <==>
              t in AsMap(s.tables)
              && forall id :: id in AsMap(s.shards) && AsMap(s.shards)[id].tableID == t ==> Settled(s, AsMap(s.shards)[id].quorumID)
  {
    hide WellFormed, Settled;
    if Has(s.tables, t) {
      ShardsOfTable(s, t);
      TruncateAccepted(s, Get(s.tables, t).shards);
    }
  }

  // The key is in the range of the shard and is neither of its ends.
  predicate StrictlyInside(shard: Shard, key: bytes) {
    Less(shard.firstKey, key) && (shard.lastKey == [] || Less(key, shard.lastKey))
  }

  lemma SplitGuard(s: State, id: nat, key: bytes)
    ensures CompleteMessage(s, SplitShardBegin(id, key)).Accepted? <==>
              id in AsMap(s.shards) && Settled(s, AsMap(s.shards)[id].quorumID) && StrictlyInside(AsMap(s.shards)[id], key)
              && !s.isSplitting
  {
    if Has(s.shards, id) {
      var shard := Get(s.shards, id);
      RangeContainsIsInRange(shard.firstKey, shard.lastKey, key);
      CmpFlip(shard.firstKey, key);
      CmpFlip(shard.lastKey, key);
      CmpEqual(shard.lastKey, key);
    }
  }

  // Main result: splits, truncations and migrations are let in exactly for settled quorums (and a split
  // for a key strictly inside its shard while nothing else is splitting).
  lemma SettledTargets(s: State, m: Message)
    requires WellFormed(s)
    ensures m.TruncateTableBegin? ==>
              (CompleteMessage(s, m).Accepted? <==>
                 m.tableID in AsMap(s.tables)
                 && forall id :: id in AsMap(s.shards) && AsMap(s.shards)[id].tableID == m.tableID ==> Settled(s, AsMap(s.shards)[id].quorumID))
    ensures m.SplitShardBegin? ==>
              (CompleteMessage(s, m).Accepted? <==>
                 m.shardID in AsMap(s.shards) && Settled(s, AsMap(s.shards)[m.shardID].quorumID)
                 && StrictlyInside(AsMap(s.shards)[m.shardID], m.splitKey) && !s.isSplitting)
    ensures m.ShardMigrationBegin? ==> (CompleteMessage(s, m).Accepted? <==> Settled(s, m.quorumID))
  {
    hide WellFormed, StrictlyInside;
    if m.TruncateTableBegin? { TruncateGuard(s, m.tableID); }
    if m.SplitShardBegin? { SplitGuard(s, m.shardID, m.splitKey); }
  }

  // ---- the states of shards

  // Shards that are there before and after have the same state.
  predicate StatesKept(s: State, s': State) {
    forall id :: id in AsMap(s.shards) && id in AsMap(s'.shards) ==> AsMap(s'.shards)[id].state == AsMap(s.shards)[id].state
  }

  // A new shard is settled once its creation ends: a split one by the end of the split, a truncated one
  // by the end of the truncation of its table.
  predicate Settles(s: State, m: Message, id: nat)
    requires id in AsMap(s.shards)
  {
    var o := AsMap(s.shards)[id];
    || (m == SplitShardComplete(id) && o.state == SHARD_SPLIT_CREATING)
    || (m == TruncateTableComplete(o.tableID) && o.state == SHARD_TRUNC_CREATING && o.tableID in AsMap(s.tables)
        && AsMap(s.tables)[o.tableID].shards != [] && AsMap(s.tables)[o.tableID].shards[0] == id)
  }

  lemma ErasedStates(s: State, s': State, gone: set<nat>)
    ensures Erased(s, s', gone) ==> StatesKept(s, s')
  {}

  lemma DeletionStates(s: State, m: Message)
    requires m.DeleteTable? || m.DeleteDatabase? || m.TruncateTableBegin? || m.FreezeDatabase? || m.UnfreezeDatabase?
    requires WellFormed(s) && CompleteMessage(s, m).Accepted? && OnMessage(s, m).Ok?
    ensures StatesKept(s, OnMessage(s, m).value)
  {
    hide WellFormed, OnMessage, AsMap, IndexOf, Erased, StatesKept, TruncateVerdict;
    match m {
      case DeleteTable(t) =>
        DeleteEntries(s, t);
        ErasedStates(s, OnMessage(s, m).value, {t});
      case DeleteDatabase(d) =>
        DeleteEntries(s, d);
        ErasedStates(s, OnMessage(s, m).value, TablesIn(s, d));
      case TruncateTableBegin(t) =>
        TruncateBeginEntry(s, t);
        TruncatedStates(s, OnMessage(s, m).value, t);
      case FreezeDatabase(d) => FreezeDatabaseEntry(s, d, true); SameStates(s, OnMessage(s, m).value);
      case UnfreezeDatabase(d) => FreezeDatabaseEntry(s, d, false); SameStates(s, OnMessage(s, m).value);
    }
  }

  lemma SameStates(s: State, s': State)
    requires s'.shards == s.shards
    ensures StatesKept(s, s')
  {}

  lemma TruncatedStates(s: State, s': State, t: nat)
    requires s.nextShardID !in AsMap(s.shards)
    requires ErasedShards(AsMap(s.shards), AsMap(s'.shards) - {s.nextShardID}, {t})
    ensures StatesKept(s, s')
  {
    forall id | id in AsMap(s.shards) && id in AsMap(s'.shards) ensures AsMap(s'.shards)[id].state == AsMap(s.shards)[id].state {
      assert id in AsMap(s'.shards) - {s.nextShardID};
    }
  }

  lemma ShardEntryStates(s: State, m: Message)
    requires m.CreateTable? || m.SplitShardBegin? || m.ShardMigrationComplete?
    requires WellFormed(s) && Checked(s, m) && OnMessage(s, m).Ok? && Reserved(s, m)
    ensures StatesKept(s, OnMessage(s, m).value)
  {
    hide WellFormed, OnMessage, AsMap, IndexOf, TableNamed, GoodName, CompleteSplitShardBegin;
    match m {
      case CreateTable(d, q, name) => CreateTableEntry(s, d, q, name);
      case SplitShardBegin(id, key) => SplitAccepted(s, id, key); SplitBeginEntry(s, id, key);
      case ShardMigrationComplete(q, src, dst) =>
        if Has(s.shards, src) {
          MigrationTarget(s, q, src, dst);
          MigrationEndEntry(s, q, src, dst);
        } else {
          NoEffect(s, 0, q, src);
        }
    }
  }

  lemma SplitAccepted(s: State, id: nat, key: bytes)
    requires CompleteMessage(s, SplitShardBegin(id, key)).Accepted?
    ensures CompleteSplitShardBegin(s, id, key).Accepted? && Has(s.shards, id)
  {}

  lemma MigrationTarget(s: State, q: nat, src: nat, dst: nat)
    requires OnMessage(s, ShardMigrationComplete(q, src, dst)).Ok? && Has(s.shards, src)
    ensures Has(s.quorums, q)
  {}

  lemma SettleStates(s: State, m: Message, id: nat)
    requires m.TruncateTableComplete? || m.SplitShardComplete?
    requires WellFormed(s) && CompleteMessage(s, m).Accepted? && OnMessage(s, m).Ok?
    ensures AsMap(OnMessage(s, m).value.shards).Keys == AsMap(s.shards).Keys
    ensures id in AsMap(s.shards) ==>
              AsMap(OnMessage(s, m).value.shards)[id].state == if Settles(s, m, id) then SHARD_NORMAL else AsMap(s.shards)[id].state
  {
    hide WellFormed, OnMessage, IndexOf, AsMap, Elsewhere;
    var x;
    if m.SplitShardComplete? {
      SplitEndEntry(s, m.shardID);
      x := m.shardID;
    } else {
      TruncateEndEntry(s, m.tableID);
      x := Get(s.tables, m.tableID).shards[0];
      ShardsOfTable(s, m.tableID);
    }
    var s' := OnMessage(s, m).value;
    SameKeysElsewhere(s.shards, s'.shards, x);
    if id in AsMap(s.shards) && id != x { ElsewhereMap(s.shards, s'.shards, x, id); }
  }

  lemma NoShardMessage(s: State, m: Message)
    requires OnMessage(s, m).Ok?
    requires !m.DeleteTable? && !m.DeleteDatabase? && !m.TruncateTableBegin? && !m.FreezeDatabase? && !m.UnfreezeDatabase?
    requires !m.CreateTable? && !m.SplitShardBegin? && !m.ShardMigrationComplete? && !m.TruncateTableComplete? && !m.SplitShardComplete?
    ensures OnMessage(s, m).value.shards == s.shards
  {
    hide AsMap, IndexOf, Remove, AddSorted, QuorumNamed, DatabaseNamed, TableNamed;
  }

  // Main result: the state of a shard changes exactly at the end that belongs to its creation, and is
  // settled then.
  lemma ShardStateStep(s: State, m: Message, id: nat)
    requires WellFormed(s) && Checked(s, m) && OnMessage(s, m).Ok? && Reserved(s, m)
    requires id in AsMap(s.shards) && id in AsMap(OnMessage(s, m).value.shards)
    ensures AsMap(OnMessage(s, m).value.shards)[id].state == if Settles(s, m, id) then SHARD_NORMAL else AsMap(s.shards)[id].state
  {
    hide WellFormed, CompleteMessage, OnMessage, AsMap, IndexOf, Reserved;
    var s' := OnMessage(s, m).value;
    if m.DeleteTable? || m.DeleteDatabase? || m.TruncateTableBegin? || m.FreezeDatabase? || m.UnfreezeDatabase? {
      DeletionStates(s, m);
    } else if m.CreateTable? || m.SplitShardBegin? || m.ShardMigrationComplete? {
      ShardEntryStates(s, m);
    } else if m.TruncateTableComplete? || m.SplitShardComplete? {
      SettleStates(s, m, id);
    } else {
      NoShardMessage(s, m);
    }
  }
}
