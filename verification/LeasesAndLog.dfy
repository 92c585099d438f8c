// Entries of the log never give a quorum a primary, so they keep the link between the primaries
// shown and the leases listed.

module LeasesAndLog {
  import opened KeyedLists
  import opened ConfigMessages
  import opened Schema
  import opened Runs
  import opened Membership
  import opened PrimaryLeases

  lemma PutKeepsPrimaries(s: State, id: nat, q: Quorum)
    requires Has(s.quorums, id) && q.hasPrimary == Get(s.quorums, id).hasPrimary && q.primaryID == Get(s.quorums, id).primaryID
    ensures PrimariesKept(s.quorums, PutQuorum(s, id, q).quorums)
  {}

  lemma MemberMessageKeepsPrimaries(s: State, m: Message)
    requires OnMessage(s, m).Ok?
    requires m.AddShardServerToQuorum? || m.RemoveShardServerFromQuorum? || m.ActivateShardServer? || m.DeactivateShardServer?
    ensures PrimariesKept(s.quorums, OnMessage(s, m).value.quorums)
  {
    hide PrimariesKept, AddSorted, Remove;
    var q, n := Get(s.quorums, m.quorumID), m.nodeID;
    if m.AddShardServerToQuorum? {
      PutKeepsPrimaries(s, m.quorumID, q.(inactiveNodes := AddSorted(q.inactiveNodes, n)));
    } else if m.RemoveShardServerFromQuorum? {
      PutKeepsPrimaries(s, m.quorumID, q.(activeNodes := Remove(q.activeNodes, n)));
      PutKeepsPrimaries(s, m.quorumID, q.(inactiveNodes := Remove(q.inactiveNodes, n)));
    } else if m.ActivateShardServer? {
      var q' := q.(inactiveNodes := Remove(q.inactiveNodes, n), activeNodes := AddSorted(q.activeNodes, n));
      PutKeepsPrimaries(s, m.quorumID, q');
      PutKeepsPrimaries(s, m.quorumID, q'.ClearActivation());
    } else {
      PutKeepsPrimaries(s, m.quorumID, q.(activeNodes := Remove(q.activeNodes, n), inactiveNodes := AddSorted(q.inactiveNodes, n)));
    }
  }

  lemma NewQuorumKeepsPrimaries(s: State, m: Message)
    requires !Has(s.quorums, s.nextQuorumID) && m.CreateQuorum?
    ensures PrimariesKept(s.quorums, OnMessage(s, m).value.quorums)
  {}

  lemma KeptPrimaries(s: State, s': State)
    requires MembersKept(s, s')
    ensures PrimariesKept(s.quorums, s'.quorums)
  {}

  // Main result: whatever entry is applied, every primary shown still has its lease.
  lemma EntryKeepsPrimaries(s: State, m: Message, leases: seq<PrimaryLease>)
    requires Unique(s.quorums) && !Has(s.quorums, s.nextQuorumID) && OnMessage(s, m).Ok?
    requires PrimariesListed(s.quorums, leases)
    ensures PrimariesListed(OnMessage(s, m).value.quorums, leases)
  {
    hide PrimariesKept, PrimariesListed, OnMessage, MembersKept;
    if m.CreateQuorum? {
      NewQuorumKeepsPrimaries(s, m);
    } else if ChangesMembers(m) {
      MemberMessageKeepsPrimaries(s, m);
    } else {
      OthersKeepMembers(s, m);
      KeptPrimaries(s, OnMessage(s, m).value);
    }
    KeptAreListed(s.quorums, OnMessage(s, m).value.quorums, leases);
  }
}
