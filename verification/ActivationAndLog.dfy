// What entries of the log do to activations: they carry them on or, when the activation itself is
// applied, end them; so the phases, the watch and the backoff hold in every reachable state.

module ActivationAndLog {
  import opened KeyedLists
  import opened ConfigMessages
  import opened Schema
  import opened Runs
  import opened Membership
  import opened Activation

  predicate SameActivation(q: Quorum, q': Quorum) {
    && q'.isActivatingNode == q.isActivatingNode && q'.isWatchingPaxosID == q.isWatchingPaxosID
    && q'.isReplicatingActivation == q.isReplicatingActivation && q'.activatingNodeID == q.activatingNodeID
    && q'.activationExpireTime == q.activationExpireTime
  }

  // In the same configuration the activation goes on, or is over.
  predicate Carried(q: Quorum, q': Quorum) { q'.configID == q.configID && (SameActivation(q, q') || Idle(q')) }

  // Every quorum is new and idle or was there before and is carried on.
  predicate AllCarried(quorums: seq<Keyed<Quorum>>, quorums': seq<Keyed<Quorum>>) {
    forall id :: id in AsMap(quorums') ==>
      if id in AsMap(quorums) then Carried(AsMap(quorums)[id], AsMap(quorums')[id])
      else Idle(AsMap(quorums')[id]) && AsMap(quorums')[id].configID == 0
  }

  lemma PutCarried(s: State, id: nat, q: Quorum)
    requires Has(s.quorums, id) && Carried(Get(s.quorums, id), q)
    ensures AllCarried(s.quorums, PutQuorum(s, id, q).quorums)
  {}

  lemma MemberMessageCarries(s: State, m: Message)
    requires OnMessage(s, m).Ok?
    requires m.AddShardServerToQuorum? || m.RemoveShardServerFromQuorum? || m.ActivateShardServer? || m.DeactivateShardServer?
    ensures AllCarried(s.quorums, OnMessage(s, m).value.quorums)
  {
    hide AllCarried, AddSorted, Remove;
    var q, n := Get(s.quorums, m.quorumID), m.nodeID;
    if m.AddShardServerToQuorum? {
      PutCarried(s, m.quorumID, q.(inactiveNodes := AddSorted(q.inactiveNodes, n)));
    } else if m.RemoveShardServerFromQuorum? {
      PutCarried(s, m.quorumID, q.(activeNodes := Remove(q.activeNodes, n)));
      PutCarried(s, m.quorumID, q.(inactiveNodes := Remove(q.inactiveNodes, n)));
    } else if m.ActivateShardServer? {
      var q' := q.(inactiveNodes := Remove(q.inactiveNodes, n), activeNodes := AddSorted(q.activeNodes, n));
      PutCarried(s, m.quorumID, q');
      PutCarried(s, m.quorumID, q'.ClearActivation());
    } else {
      PutCarried(s, m.quorumID, q.(activeNodes := Remove(q.activeNodes, n), inactiveNodes := AddSorted(q.inactiveNodes, n)));
    }
  }

  lemma NewQuorumCarries(s: State, m: Message)
    requires !Has(s.quorums, s.nextQuorumID) && m.CreateQuorum?
    ensures AllCarried(s.quorums, OnMessage(s, m).value.quorums)
  {
    hide AddAll, DefaultQuorumName;
  }

  lemma KeptCarries(s: State, s': State)
    requires MembersKept(s, s')
    ensures AllCarried(s.quorums, s'.quorums)
  {}

  lemma EntryCarries(s: State, m: Message)
    requires Unique(s.quorums) && !Has(s.quorums, s.nextQuorumID) && OnMessage(s, m).Ok?
    ensures AllCarried(s.quorums, OnMessage(s, m).value.quorums)
  {
    hide AllCarried, OnMessage, MembersKept;
    if m.CreateQuorum? {
      NewQuorumCarries(s, m);
    } else if ChangesMembers(m) {
      MemberMessageCarries(s, m);
    } else {
      OthersKeepMembers(s, m);
      KeptCarries(s, OnMessage(s, m).value);
    }
  }

  // ---- phases and watch as properties of the map

  predicate AllPhased(quorums: seq<Keyed<Quorum>>) { forall id :: id in AsMap(quorums) ==> Phased(AsMap(quorums)[id]) }

  // Every activation was started, and every watch announced, by something that happened.
  ghost predicate AllAccounted(quorums: seq<Keyed<Quorum>>, happened: seq<Happening>) {
    forall id :: id in AsMap(quorums) ==> Accounted(id, AsMap(quorums)[id], happened)
  }

  lemma CarriedPhases(quorums: seq<Keyed<Quorum>>, quorums': seq<Keyed<Quorum>>)
    requires AllCarried(quorums, quorums')
    ensures AllPhased(quorums) ==> AllPhased(quorums')
  {}

  lemma CarriedAccounted(quorums: seq<Keyed<Quorum>>, quorums': seq<Keyed<Quorum>>, happened: seq<Happening>)
    requires AllCarried(quorums, quorums') && AllAccounted(quorums, happened)
    ensures AllAccounted(quorums', happened)
  {
    hide Accounted;
    forall id | id in AsMap(quorums') ensures Accounted(id, AsMap(quorums')[id], happened) {
      if id in AsMap(quorums) {
        NothingNew(id, AsMap(quorums)[id], AsMap(quorums')[id], happened);
      } else {
        NothingNew(id, NewQuorum, AsMap(quorums')[id], happened) by { NewAccounted(id, happened); }
      }
    }
  }

  lemma NewAccounted(id: nat, happened: seq<Happening>)
    ensures Accounted(id, NewQuorum, happened)
  {}

  // Main result: no entry takes a quorum out of the four phases ...
  lemma EntryKeepsPhases(s: State, m: Message)
    requires Unique(s.quorums) && !Has(s.quorums, s.nextQuorumID) && OnMessage(s, m).Ok? && AllPhased(s.quorums)
    ensures AllPhased(OnMessage(s, m).value.quorums)
  {
    hide AllCarried, AllPhased, OnMessage;
    EntryCarries(s, m);
    CarriedPhases(s.quorums, OnMessage(s, m).value.quorums);
  }

  // ... or makes it activate or watch what did not start or was not announced.
  lemma EntryKeepsAccounts(s: State, m: Message, happened: seq<Happening>)
    requires Unique(s.quorums) && !Has(s.quorums, s.nextQuorumID) && OnMessage(s, m).Ok? && AllAccounted(s.quorums, happened)
    ensures AllAccounted(OnMessage(s, m).value.quorums, happened)
  {
    hide AllCarried, AllAccounted, OnMessage;
    EntryCarries(s, m);
    CarriedAccounted(s.quorums, OnMessage(s, m).value.quorums, happened);
  }

  // ---- the servers

  predicate AllBackedOff(servers: seq<Keyed<ShardServer>>) {
    forall id :: id in AsMap(servers) ==> BackoffSound(AsMap(servers)[id])
  }

  lemma ServersOf(s: State, m: Message)
    requires OnMessage(s, m).Ok? && !m.RegisterShardServer? && !m.UnregisterShardServer? && !m.SetPriority?
    ensures OnMessage(s, m).value.shardServers == s.shardServers
  {
    hide EraseTable, EraseTables, SetFrozenAll, DeleteShardsOf, DeletedQuorum, AsMap, IndexOf, Remove, AddSorted;
    if m.DeleteTable? {
      EraseTableDeletes(s, m.tableID);
    } else if m.DeleteDatabase? {
      EraseTablesDeletes(s, Get(s.databases, m.databaseID).tables);
    } else if m.TruncateTableBegin? {
      DeleteShardsOfDeletes(s, m.tableID);
    } else if m.FreezeDatabase? || m.UnfreezeDatabase? {
      SetFrozenAllDeletes(s, Get(s.databases, m.databaseID).tables, m.FreezeDatabase?);
    }
  }

  lemma ServerMessageBacksOff(s: State, m: Message)
    requires Unique(s.shardServers) && !Has(s.shardServers, s.nextNodeID) && OnMessage(s, m).Ok? && AllBackedOff(s.shardServers)
    requires m.RegisterShardServer? || m.UnregisterShardServer? || m.SetPriority?
    ensures AllBackedOff(OnMessage(s, m).value.shardServers)
  {}

  lemma EntryKeepsBackoff(s: State, m: Message)
    requires Unique(s.shardServers) && !Has(s.shardServers, s.nextNodeID) && OnMessage(s, m).Ok? && AllBackedOff(s.shardServers)
    ensures AllBackedOff(OnMessage(s, m).value.shardServers)
  {
    hide OnMessage, AllBackedOff;
    if m.RegisterShardServer? || m.UnregisterShardServer? || m.SetPriority? {
      ServerMessageBacksOff(s, m);
    } else {
      ServersOf(s, m);
    }
  }

  // ---- what the manager's invariant says, in these terms

  lemma {:induction false} EachIsInMap<T>(l: seq<Keyed<T>>, x: Keyed<T>)
    requires Unique(l) && x in l
    ensures x.id in AsMap(l) && AsMap(l)[x.id] == x.obj
  {
    var j :| 0 <= j < |l| && l[j] == x;
    InMap(l, j);
  }

  lemma EachIsListed<T>(l: seq<Keyed<T>>, id: nat)
    requires id in AsMap(l)
    ensures Keyed(id, AsMap(l)[id]) in l
  {
    MapAgrees(l, id);
    assert l[IndexOf(l, id)] == Keyed(id, AsMap(l)[id]);
  }

  lemma PhasesAsLists(quorums: seq<Keyed<Quorum>>, happened: seq<Happening>)
    requires Unique(quorums)
    ensures AllPhased(quorums) <==> forall q :: q in quorums ==> Phased(q.obj)
    ensures AllAccounted(quorums, happened) <==> ListAccounted(quorums, happened)
  {
    hide Accounted, Phased, Unique;
    forall q | q in quorums ensures q.id in AsMap(quorums) && AsMap(quorums)[q.id] == q.obj { EachIsInMap(quorums, q); }
    forall id | id in AsMap(quorums) ensures Keyed(id, AsMap(quorums)[id]) in quorums { EachIsListed(quorums, id); }
  }

  lemma BackoffAsLists(servers: seq<Keyed<ShardServer>>)
    requires Unique(servers)
    ensures AllBackedOff(servers) <==> forall v :: v in servers ==> BackoffSound(v.obj)
  {
    forall v | v in servers ensures v.id in AsMap(servers) && AsMap(servers)[v.id] == v.obj { EachIsInMap(servers, v); }
    forall id | id in AsMap(servers) ensures Keyed(id, AsMap(servers)[id]) in servers { EachIsListed(servers, id); }
  }

  // Main result: an entry keeps all that the manager relies on.
  lemma EntryKeepsManager(s: State, m: Message, happened: seq<Happening>)
    requires Unique(s.quorums) && !Has(s.quorums, s.nextQuorumID) && Unique(s.shardServers) && !Has(s.shardServers, s.nextNodeID)
    requires OnMessage(s, m).Ok? && Unique(OnMessage(s, m).value.quorums) && Unique(OnMessage(s, m).value.shardServers)
    requires (forall q :: q in s.quorums ==> Phased(q.obj)) && ListAccounted(s.quorums, happened)
    requires forall v :: v in s.shardServers ==> BackoffSound(v.obj)
    ensures var s' := OnMessage(s, m).value;
            (forall q :: q in s'.quorums ==> Phased(q.obj)) && ListAccounted(s'.quorums, happened)
            && forall v :: v in s'.shardServers ==> BackoffSound(v.obj)
  {
    hide OnMessage, Phased, BackoffSound, AllPhased, AllAccounted, ListAccounted, AllBackedOff, Unique;
    var s' := OnMessage(s, m).value;
    PhasesAsLists(s.quorums, happened);
    PhasesAsLists(s'.quorums, happened);
    BackoffAsLists(s.shardServers);
    BackoffAsLists(s'.shardServers);
    EntryKeepsPhases(s, m);
    EntryKeepsAccounts(s, m, happened);
    EntryKeepsBackoff(s, m);
  }
}
