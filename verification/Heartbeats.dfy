// Heartbeats of shard servers (src/Application/ConfigServer/ConfigHeartbeatManager.cpp): a list in
// order of expiry, the flags of the servers, and the primaries that a silent node loses.

module Heartbeats {
  import opened KeyedLists
  import opened Schema
  import opened ConfigStates
  import opened Lookups
  import opened PrimaryLeases

  datatype Heartbeat = Heartbeat(nodeID: nat, expireTime: nat)

  predicate BeatsInOrder(l: seq<Heartbeat>) {
    l == [] || ((forall y :: y in l[1..] ==> l[0].expireTime <= y.expireTime) && BeatsInOrder(l[1..]))
  }

  // At most one heartbeat for each node.
  predicate OneEach(l: seq<Heartbeat>) {
    l == [] || ((forall y :: y in l[1..] ==> y.nodeID != l[0].nodeID) && OneEach(l[1..]))
  }

  ghost predicate Beats(l: seq<Heartbeat>, nodeID: nat) { exists x :: x in l && x.nodeID == nodeID }

  function AddBeat(l: seq<Heartbeat>, x: Heartbeat): (r: seq<Heartbeat>)
    ensures forall y :: y in r <==> y in l || y == x
    ensures BeatsInOrder(l) ==> BeatsInOrder(r)
    ensures OneEach(l) && (forall y :: y in l ==> y.nodeID != x.nodeID) ==> OneEach(r)
  {
    if l == [] then [x] else if x.expireTime < l[0].expireTime then [x] + l else [l[0]] + AddBeat(l[1..], x)
  }

  function WithoutNode(l: seq<Heartbeat>, nodeID: nat): (r: seq<Heartbeat>)
    ensures forall y :: y in r ==> y in l
    ensures forall y :: y in l && y.nodeID != nodeID ==> y in r
    ensures OneEach(l) ==> OneEach(r) && forall y :: y in r ==> y.nodeID != nodeID
    ensures BeatsInOrder(l) ==> BeatsInOrder(r)
  {
    if l == [] then [] else if l[0].nodeID == nodeID then l[1..] else [l[0]] + WithoutNode(l[1..], nodeID)
  }

  // The heartbeats that are not over, as a filter of the whole list.
  function Recent(l: seq<Heartbeat>, now: nat): (r: seq<Heartbeat>)
    ensures forall y :: y in r <==> y in l && y.expireTime > now
  {
    if l == [] then [] else (if l[0].expireTime <= now then [] else [l[0]]) + Recent(l[1..], now)
  }

  lemma {:induction false} AllRecent(l: seq<Heartbeat>, now: nat)
    requires BeatsInOrder(l) && (l != [] ==> l[0].expireTime > now)
    ensures Recent(l, now) == l
  {
    if l != [] {
      assert l == [l[0]] + l[1..];
      if |l| > 1 { assert l[1..][0] in l[1..]; }
      AllRecent(l[1..], now);
    }
  }

  // ---- quorums and servers

  function LosePrimary(q: Quorum, nodeID: nat): Quorum {
    if q.hasPrimary && q.primaryID == nodeID then q.(hasPrimary := false, primaryID := 0) else q
  }

  function WithoutPrimary(quorums: seq<Keyed<Quorum>>, nodeID: nat): (r: seq<Keyed<Quorum>>)
    ensures |r| == |quorums|
    ensures forall i :: 0 <= i < |r| ==> r[i] == Keyed(quorums[i].id, LosePrimary(quorums[i].obj, nodeID))
  {
    seq(|quorums|, i requires 0 <= i < |quorums| => Keyed(quorums[i].id, LosePrimary(quorums[i].obj, nodeID)))
  }

  lemma {:induction false} WithoutPrimaryMap(quorums: seq<Keyed<Quorum>>, nodeID: nat)
    ensures AsMap(WithoutPrimary(quorums, nodeID)) == map q | q in AsMap(quorums) :: LosePrimary(AsMap(quorums)[q], nodeID)
  {
    if quorums != [] {
      WithoutPrimaryMap(quorums[1..], nodeID);
      assert WithoutPrimary(quorums, nodeID)[1..] == WithoutPrimary(quorums[1..], nodeID);
    }
  }

  function SetFlag(servers: seq<Keyed<ShardServer>>, nodeID: nat, flag: bool): seq<Keyed<ShardServer>> {
    if Has(servers, nodeID) then Put(servers, nodeID, Get(servers, nodeID).(hasHeartbeat := flag)) else servers
  }

  // The flag of every registered server says whether its node is on the list.
  ghost predicate FlagsMatch(servers: seq<Keyed<ShardServer>>, l: seq<Heartbeat>) {
    forall v :: v in AsMap(servers) ==> (AsMap(servers)[v].hasHeartbeat <==> Beats(l, v))
  }

  // What a server reports of itself.
  function Reported(servers: seq<Keyed<ShardServer>>, nodeID: nat, infos: seq<QuorumInfo>, httpPort: nat, sdbpPort: nat)
    : seq<Keyed<ShardServer>>
  {
    if Has(servers, nodeID) then
      Put(servers, nodeID, Get(servers, nodeID).(quorumInfos := infos, httpPort := httpPort, sdbpPort := sdbpPort, hasHeartbeat := true))
    else servers
  }

  lemma ReportedFlags(servers: seq<Keyed<ShardServer>>, l: seq<Heartbeat>, nodeID: nat, infos: seq<QuorumInfo>, httpPort: nat, sdbpPort: nat)
    requires FlagsMatch(SetFlag(servers, nodeID, true), l)
    ensures FlagsMatch(Reported(servers, nodeID, infos, httpPort, sdbpPort), l)
  {
    hide Beats;
  }

  // The position of a quorum is the highest that was reported.
  function RaiseOne(quorums: seq<Keyed<Quorum>>, info: QuorumInfo): seq<Keyed<Quorum>> {
    if Has(quorums, info.quorumID) && Get(quorums, info.quorumID).paxosID < info.paxosID then
      Put(quorums, info.quorumID, Get(quorums, info.quorumID).(paxosID := info.paxosID))
    else quorums
  }

  function RaiseAll(quorums: seq<Keyed<Quorum>>, infos: seq<QuorumInfo>): seq<Keyed<Quorum>>
    decreases |infos|
  {
    if infos == [] then quorums else RaiseAll(RaiseOne(quorums, infos[0]), infos[1..])
  }

  // Positions only rise, to no less than any report and to nothing that was not reported.
  lemma {:induction false} RaiseMeans(quorums: seq<Keyed<Quorum>>, infos: seq<QuorumInfo>, q: nat)
    requires Has(quorums, q)
    ensures Has(RaiseAll(quorums, infos), q)
    ensures var a, b := Get(quorums, q), Get(RaiseAll(quorums, infos), q);
            b == a.(paxosID := b.paxosID) && b.paxosID >= a.paxosID
            && (forall x :: x in infos && x.quorumID == q ==> b.paxosID >= x.paxosID)
            && (b.paxosID == a.paxosID || exists x :: x in infos && x.quorumID == q && x.paxosID == b.paxosID)
    decreases |infos|
  {
    if infos != [] {
      RaiseMeans(RaiseOne(quorums, infos[0]), infos[1..], q);
      assert infos[0] in infos && forall x :: x in infos <==> x == infos[0] || x in infos[1..];
    }
  }

  datatype Silence = Silence(heartbeats: seq<Heartbeat>, servers: seq<Keyed<ShardServer>>, quorums: seq<Keyed<Quorum>>)

  // The loop over the heartbeats that are over.
  function DropSilent(l: seq<Heartbeat>, servers: seq<Keyed<ShardServer>>, quorums: seq<Keyed<Quorum>>, now: nat): Silence {
    if l == [] || l[0].expireTime > now then Silence(l, servers, quorums)
    else DropSilent(l[1..], SetFlag(servers, l[0].nodeID, false), WithoutPrimary(quorums, l[0].nodeID), now)
  }

  lemma DropFirstFlags(l: seq<Heartbeat>, servers: seq<Keyed<ShardServer>>)
    requires l != [] && OneEach(l) && FlagsMatch(servers, l)
    ensures FlagsMatch(SetFlag(servers, l[0].nodeID, false), l[1..])
  {
    var servers' := SetFlag(servers, l[0].nodeID, false);
    forall v | v in AsMap(servers') ensures AsMap(servers')[v].hasHeartbeat <==> Beats(l[1..], v) {
      if v != l[0].nodeID {
        assert AsMap(servers')[v] == AsMap(servers)[v];
        if Beats(l, v) {
          var x :| x in l && x.nodeID == v;
          assert x in l[1..];
        }
      }
    }
  }

  // Main result: stopping at the first heartbeat that is not over equals filtering the list; the
  // nodes dropped have no flag and are shown as primary nowhere, all other primaries stay.
  lemma {:induction false} DropSilentIsFilter(
      l: seq<Heartbeat>, servers: seq<Keyed<ShardServer>>, quorums: seq<Keyed<Quorum>>, now: nat)
    requires BeatsInOrder(l) && OneEach(l) && FlagsMatch(servers, l)
    ensures var r := DropSilent(l, servers, quorums, now);
            r.heartbeats == Recent(l, now) && BeatsInOrder(r.heartbeats) && OneEach(r.heartbeats)
            && FlagsMatch(r.servers, r.heartbeats)
    ensures var r := DropSilent(l, servers, quorums, now);
            AsMap(r.quorums).Keys == AsMap(quorums).Keys
            && forall q :: q in AsMap(quorums) ==>
                 AsMap(r.quorums)[q] == if AsMap(quorums)[q].hasPrimary && Silent(l, AsMap(quorums)[q].primaryID, now)
                                        then AsMap(quorums)[q].(hasPrimary := false, primaryID := 0)
                                        else AsMap(quorums)[q]
  {
    hide FlagsMatch, SetFlag, WithoutPrimary;
    if l == [] || l[0].expireTime > now {
      AllRecent(l, now);
      forall n ensures !Silent(l, n, now) { NotSilent(l, n, now); }
    } else {
      DropFirstFlags(l, servers);
      WithoutPrimaryMap(quorums, l[0].nodeID);
      DropSilentIsFilter(l[1..], SetFlag(servers, l[0].nodeID, false), WithoutPrimary(quorums, l[0].nodeID), now);
      forall n ensures Silent(l, n, now) <==> n == l[0].nodeID || Silent(l[1..], n, now) { FirstSilent(l, n, now); }
      hide Silent, LosePrimary;
      forall q | q in AsMap(quorums)
        ensures var r := DropSilent(l, servers, quorums, now);
                AsMap(r.quorums)[q] == if AsMap(quorums)[q].hasPrimary && Silent(l, AsMap(quorums)[q].primaryID, now)
                                       then AsMap(quorums)[q].(hasPrimary := false, primaryID := 0) else AsMap(quorums)[q]
      {
        TwoLosses(AsMap(quorums)[q], l, now);
      }
    }
  }

  ghost predicate Silent(l: seq<Heartbeat>, nodeID: nat, now: nat) {
    exists x :: x in l && x.nodeID == nodeID && x.expireTime <= now
  }

  lemma NotSilent(l: seq<Heartbeat>, nodeID: nat, now: nat)
    requires BeatsInOrder(l) && (l == [] || l[0].expireTime > now)
    ensures !Silent(l, nodeID, now)
  {
    forall x | x in l ensures x.expireTime > now {
      if x != l[0] { assert x in l[1..]; }
    }
  }

  lemma FirstSilent(l: seq<Heartbeat>, nodeID: nat, now: nat)
    requires l != [] && l[0].expireTime <= now
    ensures Silent(l, nodeID, now) <==> nodeID == l[0].nodeID || Silent(l[1..], nodeID, now)
  {
    if Silent(l, nodeID, now) && nodeID != l[0].nodeID {
      var x :| x in l && x.nodeID == nodeID && x.expireTime <= now;
      assert x in l[1..];
    }
    if nodeID == l[0].nodeID { assert l[0] in l; }
    if Silent(l[1..], nodeID, now) {
      var x :| x in l[1..] && x.nodeID == nodeID && x.expireTime <= now;
      assert x in l;
    }
  }

  lemma TwoLosses(q: Quorum, l: seq<Heartbeat>, now: nat)
    requires l != []
    requires forall n :: Silent(l, n, now) <==> n == l[0].nodeID || Silent(l[1..], n, now)
    ensures var q1 := LosePrimary(q, l[0].nodeID);
            (if q1.hasPrimary && Silent(l[1..], q1.primaryID, now) then q1.(hasPrimary := false, primaryID := 0) else q1)
            == if q.hasPrimary && Silent(l, q.primaryID, now) then q.(hasPrimary := false, primaryID := 0) else q
  {}

  // Losing a primary leaves its lease listed, so the link between the two is kept.
  lemma SilenceKeepsPrimaries(l: seq<Heartbeat>, servers: seq<Keyed<ShardServer>>, quorums: seq<Keyed<Quorum>>, now: nat)
    requires BeatsInOrder(l) && OneEach(l) && FlagsMatch(servers, l)
    ensures PrimariesKept(quorums, DropSilent(l, servers, quorums, now).quorums)
  {
    DropSilentIsFilter(l, servers, quorums, now);
  }

  lemma BeatFlags(servers: seq<Keyed<ShardServer>>, l: seq<Heartbeat>, nodeID: nat, expireTime: nat)
    requires OneEach(l) && FlagsMatch(servers, l)
    ensures FlagsMatch(SetFlag(servers, nodeID, true), AddBeat(WithoutNode(l, nodeID), Heartbeat(nodeID, expireTime)))
  {
    var x := Heartbeat(nodeID, expireTime);
    var l', servers' := AddBeat(WithoutNode(l, nodeID), x), SetFlag(servers, nodeID, true);
    assert x in l';
    forall v | v in AsMap(servers') ensures AsMap(servers')[v].hasHeartbeat <==> Beats(l', v) {
      if v != nodeID {
        assert AsMap(servers')[v] == AsMap(servers)[v];
        if Beats(l, v) {
          var y :| y in l && y.nodeID == v;
          assert y in l';
        }
        if Beats(l', v) {
          var y :| y in l' && y.nodeID == v;
          assert y in l;
        }
      }
    }
  }

  class ConfigHeartbeatManager {
    const config: ConfigState
    const heartbeatExpireTimeout: nat
    var heartbeats: seq<Heartbeat>

    ghost predicate Valid()
      reads this, config
    {
      BeatsInOrder(heartbeats) && OneEach(heartbeats) && FlagsMatch(config.shardServers, heartbeats)
    }

    constructor (config: ConfigState, heartbeatExpireTimeout: nat)
      requires FlagsMatch(config.shardServers, [])
      ensures this.config == config && Valid() && heartbeats == []
    {
      this.config, this.heartbeatExpireTimeout, heartbeats := config, heartbeatExpireTimeout, [];
    }

    method HasHeartbeat(nodeID: nat) returns (found: bool)
      ensures found <==> Beats(heartbeats, nodeID)
    {
      for k := 0 to |heartbeats|
        invariant forall j :: 0 <= j < k ==> heartbeats[j].nodeID != nodeID
      {
        if heartbeats[k].nodeID == nodeID { return true; }
      }
      return false;
    }

    // Takes the entry of the node out, if there is one, and puts it back with its new expiry.
    method RegisterHeartbeat(nodeID: nat, now: nat)
      requires BeatsInOrder(heartbeats) && OneEach(heartbeats)
      modifies this`heartbeats
      ensures heartbeats == AddBeat(WithoutNode(old(heartbeats), nodeID), Heartbeat(nodeID, now + heartbeatExpireTimeout))
      ensures BeatsInOrder(heartbeats) && OneEach(heartbeats)
    {
      var k := FindBeat(heartbeats, nodeID);
      var rest := if k < |heartbeats| then heartbeats[..k] + heartbeats[k + 1..] else heartbeats;
      heartbeats := AddBeat(rest, Heartbeat(nodeID, now + heartbeatExpireTimeout));
    }

    // A message of a server: what it reports is noted and the positions of the quorums follow it.
    method OnHeartbeatMessage(nodeID: nat, infos: seq<QuorumInfo>, httpPort: nat, sdbpPort: nat, now: nat)
      requires Valid()
      modifies this`heartbeats, config`shardServers, config`quorums
      ensures Valid()
      ensures heartbeats == if Has(old(config.shardServers), nodeID)
                            then AddBeat(WithoutNode(old(heartbeats), nodeID), Heartbeat(nodeID, now + heartbeatExpireTimeout))
                            else old(heartbeats)
      ensures config.shardServers == Reported(old(config.shardServers), nodeID, infos, httpPort, sdbpPort)
      ensures config.quorums == if Has(old(config.shardServers), nodeID) then RaiseAll(old(config.quorums), infos) else old(config.quorums)
    {
      var v := Find(config.shardServers, nodeID);
      if v == |config.shardServers| { return; }
      BeatFlags(config.shardServers, heartbeats, nodeID, now + heartbeatExpireTimeout);
      ReportedFlags(config.shardServers, AddBeat(WithoutNode(heartbeats, nodeID), Heartbeat(nodeID, now + heartbeatExpireTimeout)),
                    nodeID, infos, httpPort, sdbpPort);
      hide FlagsMatch;
      RegisterHeartbeat(nodeID, now);
      RaisePositions(infos);
      config.shardServers := config.shardServers[v := Keyed(nodeID,
        config.shardServers[v].obj.(quorumInfos := infos, httpPort := httpPort, sdbpPort := sdbpPort, hasHeartbeat := true))];
    }

    method RaisePositions(infos: seq<QuorumInfo>)
      modifies config`quorums
      ensures config.quorums == RaiseAll(old(config.quorums), infos)
    {
      for k := 0 to |infos|
        invariant RaiseAll(old(config.quorums), infos) == RaiseAll(config.quorums, infos[k..])
      {
        assert infos[k..][1..] == infos[k + 1..];
        var q := Find(config.quorums, infos[k].quorumID);
        if q < |config.quorums| && config.quorums[q].obj.paxosID < infos[k].paxosID {
          config.quorums := config.quorums[q := Keyed(infos[k].quorumID, config.quorums[q].obj.(paxosID := infos[k].paxosID))];
        }
      }
    }

    // The part of OnHeartbeatTimeout that drops the silent nodes.
    method OnHeartbeatTimeout(now: nat)
      requires Valid()
      modifies this`heartbeats, config`shardServers, config`quorums
      ensures Valid() && heartbeats == Recent(old(heartbeats), now)
      ensures Silence(heartbeats, config.shardServers, config.quorums)
              == DropSilent(old(heartbeats), old(config.shardServers), old(config.quorums), now)
      ensures PrimariesKept(old(config.quorums), config.quorums)
    {
      DropSilentIsFilter(heartbeats, config.shardServers, config.quorums, now);
      SilenceKeepsPrimaries(heartbeats, config.shardServers, config.quorums, now);
      hide FlagsMatch, PrimariesKept, Recent;
      while heartbeats != [] && heartbeats[0].expireTime <= now
        invariant DropSilent(heartbeats, config.shardServers, config.quorums, now)
                  == DropSilent(old(heartbeats), old(config.shardServers), old(config.quorums), now)
        decreases |heartbeats|
      {
        var nodeID := heartbeats[0].nodeID;
        var v := Find(config.shardServers, nodeID);
        if v < |config.shardServers| {
          config.shardServers := config.shardServers[v := Keyed(nodeID, config.shardServers[v].obj.(hasHeartbeat := false))];
        }
        ClearPrimaries(nodeID);
        heartbeats := heartbeats[1..];
      }
    }

    method ClearPrimaries(nodeID: nat)
      modifies config`quorums
      ensures config.quorums == WithoutPrimary(old(config.quorums), nodeID)
    {
      for k := 0 to |config.quorums|
        invariant |config.quorums| == |old(config.quorums)|
        invariant forall j :: 0 <= j < k ==> config.quorums[j] == Keyed(old(config.quorums)[j].id, LosePrimary(old(config.quorums)[j].obj, nodeID))
        invariant forall j :: k <= j < |config.quorums| ==> config.quorums[j] == old(config.quorums)[j]
      {
        var q := config.quorums[k];
        if q.obj.hasPrimary && q.obj.primaryID == nodeID {
          config.quorums := config.quorums[k := Keyed(q.id, q.obj.(hasPrimary := false, primaryID := 0))];
        }
      }
    }
  }

  method FindBeat(l: seq<Heartbeat>, nodeID: nat) returns (k: nat)
    ensures k <= |l| && (k == |l| ==> WithoutNode(l, nodeID) == l)
    ensures k < |l| ==> WithoutNode(l, nodeID) == l[..k] + l[k + 1..]
  {
    hide OneEach, BeatsInOrder;
    k := 0;
    while k < |l| && l[k].nodeID != nodeID
      invariant k <= |l| && WithoutNode(l, nodeID) == l[..k] + WithoutNode(l[k..], nodeID)
    {
      StepOver(l, k, nodeID);
      k := k + 1;
    }
    if k < |l| { assert l[k..][1..] == l[k + 1..]; }
  }

  lemma StepOver(l: seq<Heartbeat>, k: nat, nodeID: nat)
    requires k < |l| && l[k].nodeID != nodeID
    ensures l[..k] + WithoutNode(l[k..], nodeID) == l[..k + 1] + WithoutNode(l[k + 1..], nodeID)
  {
    assert l[k..][1..] == l[k + 1..];
    assert l[..k + 1] == l[..k] + [l[k]];
  }
}
