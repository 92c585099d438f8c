// Bringing inactive shard servers back into their quorums
// (src/Application/ConfigServer/ConfigActivationManager.cpp, src/Application/ConfigState/ConfigQuorum.cpp).

module Activation {
  import opened KeyedLists
  import opened Schema
  import opened ConfigStates
  import opened Lookups

  // ---- the phases of an activation

  predicate Idle(q: Quorum) {
    !q.isActivatingNode && !q.isWatchingPaxosID && !q.isReplicatingActivation && q.activatingNodeID == 0
    && q.activationExpireTime == 0
  }

  predicate Activating(q: Quorum) {
    q.isActivatingNode && !q.isWatchingPaxosID && !q.isReplicatingActivation && q.activationExpireTime > 0
  }

  predicate Watching(q: Quorum) {
    q.isActivatingNode && q.isWatchingPaxosID && !q.isReplicatingActivation && q.activationExpireTime > 0
  }

  predicate Replicating(q: Quorum) {
    q.isActivatingNode && !q.isWatchingPaxosID && q.isReplicatingActivation && q.activationExpireTime == 0
  }

  predicate Phased(q: Quorum) { Idle(q) || Activating(q) || Watching(q) || Replicating(q) }

  function OnActivationStart(q: Quorum, nodeID: nat, expireTime: nat): Quorum {
    q.(isActivatingNode := true, activatingNodeID := nodeID, isWatchingPaxosID := false, isReplicatingActivation := false,
       configID := q.configID + 1, activationExpireTime := expireTime)
  }

  function OnActivationMonitoring(q: Quorum, paxosID: nat): Quorum {
    q.(isWatchingPaxosID := true, activationPaxosID := paxosID)
  }

  function OnActivationReplication(q: Quorum): Quorum {
    q.(isWatchingPaxosID := false, isReplicatingActivation := true, activationExpireTime := 0)
  }

  // Each transition leads from its phase to the next one; an activation can be given up in any.
  lemma PhaseTransitions(q: Quorum, nodeID: nat, expireTime: nat, paxosID: nat)
    requires Phased(q)
    ensures Idle(q) && expireTime > 0 ==>
              Activating(OnActivationStart(q, nodeID, expireTime)) && OnActivationStart(q, nodeID, expireTime).configID > q.configID
    ensures Activating(q) ==> Watching(OnActivationMonitoring(q, paxosID)) && OnActivationMonitoring(q, paxosID).configID == q.configID
    ensures Watching(q) ==> Replicating(OnActivationReplication(q)) && OnActivationReplication(q).configID == q.configID
    ensures Idle(q.ClearActivation()) && q.ClearActivation().configID == q.configID
    ensures !q.isActivatingNode <==> Idle(q)
  {}

  // The quorum of an activation under way may send a node to the active nodes as well.
  function VolatileActiveNodes(q: Quorum): seq<nat> {
    if q.isActivatingNode then AddSorted(q.activeNodes, q.activatingNodeID) else q.activeNodes
  }

  // What an activation under way shows to clients is what its log entry makes lasting: the entry
  // does not change the list, which is the active nodes with the new one, in order.
  lemma VolatileBecomesActive(s: State, quorumID: nat)
    requires Has(s.quorums, quorumID) && Get(s.quorums, quorumID).isActivatingNode
    requires OnActivateShardServer(s, quorumID, Get(s.quorums, quorumID).activatingNodeID).Ok?
    ensures var q := Get(s.quorums, quorumID);
            var q' := Get(OnActivateShardServer(s, quorumID, q.activatingNodeID).value.quorums, quorumID);
            Idle(q') && q'.activeNodes == VolatileActiveNodes(q) && VolatileActiveNodes(q') == VolatileActiveNodes(q)
            && (forall n :: n in VolatileActiveNodes(q) <==> n in q.activeNodes || n == q.activatingNodeID)
            && (Sorted(q.activeNodes) ==> Sorted(VolatileActiveNodes(q)))
            && |VolatileActiveNodes(q)| == |q.activeNodes| + 1
  {
    var q := Get(s.quorums, quorumID);
    AddedLength(q.activeNodes, q.activatingNodeID);
    if Sorted(q.activeNodes) { AddSortedSorted(q.activeNodes, q.activatingNodeID); }
  }

  lemma {:induction false} AddedLength(l: seq<nat>, x: nat)
    ensures |AddSorted(l, x)| == |l| + 1
  {
    if l != [] { AddedLength(l[1..], x); }
  }

  // ---- the manager

  // A request to activate or deactivate a node, with the configuration in which it was made.
  datatype Queued = Queued(activate: bool, quorumID: nat, nodeID: nat, force: bool, configID: nat)

  // A primary's request to extend its lease.
  datatype Extend = Extend(quorumID: nat, nodeID: nat, configID: nat, paxosID: nat, duration: nat)

  // What has happened to activations so far: the start of one, with its node and its configuration, and
  // the extensions of leases.
  datatype Happening =
    | Start(quorumID: nat, nodeID: nat, configID: nat)
    | Extending(extend: Extend)

  function Power(k: nat): (p: nat)
    ensures p >= 1
  {
    if k == 0 then 1 else 2 * Power(k - 1)
  }

  function InfoFor(l: seq<QuorumInfo>, quorumID: nat): (r: Option<QuorumInfo>)
    ensures r.Some? ==> r.value in l && r.value.quorumID == quorumID
  {
    if l == [] then None else if l[0].quorumID == quorumID then Some(l[0]) else InfoFor(l[1..], quorumID)
  }

  // ---- what one step may do to a quorum

  // The primary's log is at most that many rounds ahead of the node's.
  predicate CloseEnough(primary: nat, node: nat, rounds: nat) { primary <= node + rounds }

  // When an activation starts: there is a primary, the server is not barred and not waiting after an
  // earlier attempt, unless both are disregarded, and its log is close enough.
  predicate Starts(q: Quorum, quorumID: nat, v: ShardServer, disregardPrevious: bool, now: nat, rounds: nat) {
    && q.hasPrimary
    && (disregardPrevious || (v.activationPhase != -1 && (v.activationPhase > 0 ==> now >= v.nextActivationTime)))
    && InfoFor(v.quorumInfos, quorumID).Some?
    && CloseEnough(q.paxosID, InfoFor(v.quorumInfos, quorumID).value.paxosID, rounds)
  }

  // The server's attempts, and when the next one may be; each attempt doubles the wait.
  function Backoff(v: ShardServer, disregardPrevious: bool, starts: bool, now: nat, interval: nat): ShardServer {
    var v1 := if disregardPrevious then v.(activationPhase := 0, nextActivationTime := 0) else v;
    if starts && v1.activationPhase >= 0 then
      v1.(activationPhase := v1.activationPhase + 1, nextActivationTime := now + interval * Power(v1.activationPhase + 1))
    else v1
  }

  // A server that has been tried knows when it may be tried again.
  predicate BackoffSound(v: ShardServer) { v.activationPhase >= -1 && (v.activationPhase > 0 ==> v.nextActivationTime > 0) }

  lemma BackoffStaysSound(v: ShardServer, disregardPrevious: bool, starts: bool, now: nat, interval: nat)
    requires BackoffSound(v) && interval > 0
    ensures BackoffSound(Backoff(v, disregardPrevious, starts, now, interval))
  {
    var phase: int := if disregardPrevious then 1 else v.activationPhase + 1;
    if phase >= 1 { WaitPositive(interval, Power(phase)); }
  }

  lemma WaitPositive(a: nat, b: nat)
    requires a > 0 && b > 0
    ensures a * b > 0
  {}

  // An attempt on one quorum, on all of them in turn, what it queues and what it starts.
  datatype Attempt = Attempt(quorums: seq<Keyed<Quorum>>, server: ShardServer, queued: seq<Queued>, started: seq<Happening>)

  predicate Concerned(q: Quorum, nodeID: nat) { !q.isActivatingNode && q.IsInactiveMember(nodeID) }

  function AttemptOne(
      q: Keyed<Quorum>, nodeID: nat, v: ShardServer, disregardPrevious: bool, force: bool, now: nat, interval: nat, rounds: nat): Attempt
  {
    if force then
      Attempt([Keyed(q.id, q.obj.(paxosID := 1))], v, [Queued(true, q.id, nodeID, true, q.obj.configID)], [])
    else
      var starts := Starts(q.obj, q.id, v, disregardPrevious, now, rounds);
      Attempt([Keyed(q.id, if starts then OnActivationStart(q.obj, nodeID, now + interval) else q.obj)],
              Backoff(v, disregardPrevious, starts, now, interval), [],
              if starts then [Start(q.id, nodeID, q.obj.configID + 1)] else [])
  }

  function AttemptAll(
      l: seq<Keyed<Quorum>>, nodeID: nat, v: ShardServer, disregardPrevious: bool, force: bool, now: nat, interval: nat, rounds: nat)
    : (a: Attempt)
    ensures |a.quorums| == |l|
  {
    if l == [] then Attempt([], v, [], [])
    else if !Concerned(l[0].obj, nodeID) then
      var rest := AttemptAll(l[1..], nodeID, v, disregardPrevious, force, now, interval, rounds);
      Attempt([l[0]] + rest.quorums, rest.server, rest.queued, rest.started)
    else
      var one := AttemptOne(l[0], nodeID, v, disregardPrevious, force, now, interval, rounds);
      var rest := AttemptAll(l[1..], nodeID, one.server, disregardPrevious, force, now, interval, rounds);
      Attempt(one.quorums + rest.quorums, rest.server, one.queued + rest.queued, one.started + rest.started)
  }

  // What attempts do: a quorum is left as it was, or it was idle with the node inactive and starts an
  // activation in a new configuration; a forced request only queues activations.
  lemma {:induction false} AttemptMeans(
      l: seq<Keyed<Quorum>>, nodeID: nat, v: ShardServer, disregardPrevious: bool, force: bool, now: nat, interval: nat, rounds: nat)
    requires (forall q :: q in l ==> Phased(q.obj)) && BackoffSound(v) && interval > 0
    ensures var a := AttemptAll(l, nodeID, v, disregardPrevious, force, now, interval, rounds);
            && BackoffSound(a.server) && OnlyBackoff(v, a.server)
            && (forall j :: 0 <= j < |l| ==> Tried(l[j], a.quorums[j], nodeID, force))
            && (forall x :: x in a.queued ==> force && x.activate && x.force)
  {
    if l != [] {
      var one := if Concerned(l[0].obj, nodeID) then AttemptOne(l[0], nodeID, v, disregardPrevious, force, now, interval, rounds)
                 else Attempt([l[0]], v, [], []);
      assert l[0] in l && forall q :: q in l[1..] ==> q in l;
      TriedOne(l[0], nodeID, v, disregardPrevious, force, now, interval, rounds);
      AttemptMeans(l[1..], nodeID, one.server, disregardPrevious, force, now, interval, rounds);
    }
  }

  predicate OnlyBackoff(v: ShardServer, v': ShardServer) {
    v' == v.(activationPhase := v'.activationPhase, nextActivationTime := v'.nextActivationTime)
  }

  predicate Tried(q: Keyed<Quorum>, q': Keyed<Quorum>, nodeID: nat, force: bool) {
    q'.id == q.id && Phased(q'.obj) &&
    (q'.obj == q.obj
     || (force && q'.obj == q.obj.(paxosID := 1))
     || (!force && Idle(q.obj) && q.obj.hasPrimary && nodeID in q.obj.inactiveNodes && Activating(q'.obj)
         && q'.obj.activatingNodeID == nodeID && q'.obj.configID == q.obj.configID + 1
         && q'.obj == OnActivationStart(q.obj, nodeID, q'.obj.activationExpireTime)))
  }

  lemma TriedOne(
      q: Keyed<Quorum>, nodeID: nat, v: ShardServer, disregardPrevious: bool, force: bool, now: nat, interval: nat, rounds: nat)
    requires Phased(q.obj) && BackoffSound(v) && interval > 0
    ensures Tried(q, q, nodeID, force)
    ensures Concerned(q.obj, nodeID) ==>
              var a := AttemptOne(q, nodeID, v, disregardPrevious, force, now, interval, rounds);
              |a.quorums| == 1 && Tried(q, a.quorums[0], nodeID, force) && BackoffSound(a.server) && OnlyBackoff(v, a.server)
              && forall x :: x in a.queued ==> force && x.activate && x.force
  {
    BackoffStaysSound(v, disregardPrevious, Starts(q.obj, q.id, v, disregardPrevious, now, rounds), now, interval);
    OnlyBackoffChanges(v, disregardPrevious, Starts(q.obj, q.id, v, disregardPrevious, now, rounds), now, interval);
    hide Backoff, BackoffSound, Starts, OnlyBackoff;
    SameBackoff(v);
  }

  lemma SameBackoff(v: ShardServer)
    ensures OnlyBackoff(v, v)
  {}

  lemma OnlyBackoffChanges(v: ShardServer, disregardPrevious: bool, starts: bool, now: nat, interval: nat)
    ensures OnlyBackoff(v, Backoff(v, disregardPrevious, starts, now, interval))
  {}

  // ---- extensions of leases

  // The extension comes from the primary of the configuration.
  predicate Reports(q: Quorum, e: Extend) { q.hasPrimary && e.nodeID == q.primaryID && e.configID == q.configID }

  // It says that the log of a watched configuration has grown.
  predicate Completes(q: Quorum, e: Extend) { Reports(q, e) && Watching(q) && e.duration % 1000 == 999 }

  function AfterExtension(q: Quorum, e: Extend): Quorum {
    if Reports(q, e) && Activating(q) then OnActivationMonitoring(q, e.paxosID)
    else if Completes(q, e) then OnActivationReplication(q)
    else q
  }

  function ActivationOf(q: Quorum, e: Extend): seq<Queued> {
    if Completes(q, e) then [Queued(true, e.quorumID, q.activatingNodeID, false, q.configID)] else []
  }

  // A server may be tried again at once.
  function ResetOne(servers: seq<Keyed<ShardServer>>, nodeID: nat): seq<Keyed<ShardServer>> {
    if Has(servers, nodeID) then
      Put(servers, nodeID, Get(servers, nodeID).(activationPhase := 0, nextActivationTime := 0))
    else servers
  }

  // ---- what has happened

  // The activation under way in the quorum is the last one that started there.
  predicate StartedAt(id: nat, q: Quorum, happened: seq<Happening>, a: nat) {
    a < |happened| && happened[a] == Start(id, q.activatingNodeID, q.configID)
    && forall p :: a < p < |happened| ==> !(happened[p].Start? && happened[p].quorumID == id)
  }

  predicate ExtensionOf(h: Happening, id: nat, configID: nat) {
    h.Extending? && h.extend.quorumID == id && h.extend.configID == configID
  }

  // A quorum that activates a node started that, and one that is watched was extended since.
  ghost predicate Accounted(id: nat, q: Quorum, happened: seq<Happening>) {
    && (q.isActivatingNode ==> exists a :: StartedAt(id, q, happened, a))
    && (q.isWatchingPaxosID ==> exists a, b :: WatchedAt(id, q, happened, a, b))
  }

  predicate WatchedAt(id: nat, q: Quorum, happened: seq<Happening>, a: nat, b: nat) {
    StartedAt(id, q, happened, a) && a < b < |happened| && ExtensionOf(happened[b], id, q.configID)
  }

  ghost predicate ListAccounted(quorums: seq<Keyed<Quorum>>, happened: seq<Happening>) {
    forall q :: q in quorums ==> Accounted(q.id, q.obj, happened)
  }

  // The request asks for the node whose activation started in its configuration at a, was watched from b
  // on, and was reported to have progressed at c; nothing else started in the quorum in between.
  predicate Causes(x: Queued, happened: seq<Happening>, a: nat, b: nat, c: nat) {
    && a < b < c < |happened| && happened[a] == Start(x.quorumID, x.nodeID, x.configID)
    && ExtensionOf(happened[b], x.quorumID, x.configID) && ExtensionOf(happened[c], x.quorumID, x.configID)
    && happened[c].extend.duration % 1000 == 999
    && forall p :: a < p <= c ==> !(happened[p].Start? && happened[p].quorumID == x.quorumID)
  }

  // An activation that was not forced has its causes.
  ghost predicate Justified(x: Queued, happened: seq<Happening>) {
    x.activate && !x.force ==> exists a, b, c :: Causes(x, happened, a, b, c)
  }

  ghost predicate AllJustified(queued: seq<Queued>, happened: seq<Happening>) {
    forall i :: 0 <= i < |queued| ==> Justified(queued[i], happened)
  }

  lemma JustifiedStays(x: Queued, happened: seq<Happening>, more: seq<Happening>)
    requires Justified(x, happened)
    ensures Justified(x, happened + more)
  {
    if x.activate && !x.force {
      var a, b, c :| Causes(x, happened, a, b, c);
      assert Causes(x, happened + more, a, b, c);
    }
  }

  lemma AllJustifiedStays(queued: seq<Queued>, happened: seq<Happening>, more: seq<Happening>)
    requires AllJustified(queued, happened)
    ensures AllJustified(queued, happened + more)
  {
    forall i | 0 <= i < |queued| ensures Justified(queued[i], happened + more) { JustifiedStays(queued[i], happened, more); }
  }

  lemma OneMoreJustified(queued: seq<Queued>, x: Queued, happened: seq<Happening>)
    requires AllJustified(queued, happened) && Justified(x, happened)
    ensures AllJustified(queued + [x], happened)
  {
    hide Justified;
  }

  // What happens elsewhere leaves the account of a quorum as it is.
  predicate Elsewhere(id: nat, more: seq<Happening>) {
    forall p :: 0 <= p < |more| ==> !(more[p].Start? && more[p].quorumID == id)
  }

  lemma AccountStays(id: nat, q: Quorum, happened: seq<Happening>, more: seq<Happening>)
    requires Accounted(id, q, happened) && Elsewhere(id, more)
    ensures Accounted(id, q, happened + more)
  {
    if q.isActivatingNode {
      var a :| StartedAt(id, q, happened, a);
      assert StartedAt(id, q, happened + more, a);
    }
    if q.isWatchingPaxosID {
      var a, b :| WatchedAt(id, q, happened, a, b);
      assert WatchedAt(id, q, happened + more, a, b);
    }
  }

  // A start is the last one of its quorum.
  lemma StartAccounts(id: nat, q: Quorum, happened: seq<Happening>)
    requires q.isActivatingNode && !q.isWatchingPaxosID
    ensures Accounted(id, q, happened + [Start(id, q.activatingNodeID, q.configID)])
  {
    assert StartedAt(id, q, happened + [Start(id, q.activatingNodeID, q.configID)], |happened|);
  }

  // The extension with which the watch begins.
  lemma WatchAccounts(id: nat, q: Quorum, q': Quorum, happened: seq<Happening>, e: Extend)
    requires q.isActivatingNode && Accounted(id, q, happened) && e.quorumID == id && e.configID == q.configID
    requires q'.activatingNodeID == q.activatingNodeID && q'.configID == q.configID
    ensures Accounted(id, q', happened + [Extending(e)])
  {
    var a :| StartedAt(id, q, happened, a);
    assert StartedAt(id, q', happened + [Extending(e)], a);
    assert WatchedAt(id, q', happened + [Extending(e)], a, |happened|);
  }

  // The extension that reports progress in a watched configuration.
  lemma ReportJustifies(id: nat, q: Quorum, happened: seq<Happening>, e: Extend)
    requires q.isWatchingPaxosID && Accounted(id, q, happened) && e.quorumID == id && e.configID == q.configID && e.duration % 1000 == 999
    ensures Justified(Queued(true, id, q.activatingNodeID, false, q.configID), happened + [Extending(e)])
  {
    var a, b :| WatchedAt(id, q, happened, a, b);
    assert Causes(Queued(true, id, q.activatingNodeID, false, q.configID), happened + [Extending(e)], a, b, |happened|);
  }

  // The same activation, or none, in the same configuration.
  predicate NoNewActivation(q: Quorum, q': Quorum) {
    && (q'.isActivatingNode ==> q.isActivatingNode && q'.activatingNodeID == q.activatingNodeID && q'.configID == q.configID)
    && (q'.isWatchingPaxosID ==> q.isWatchingPaxosID && q'.activatingNodeID == q.activatingNodeID && q'.configID == q.configID)
  }

  lemma NothingNew(id: nat, q: Quorum, q': Quorum, happened: seq<Happening>)
    requires Accounted(id, q, happened) && NoNewActivation(q, q')
    ensures Accounted(id, q', happened)
  {
    if q'.isActivatingNode {
      var a :| StartedAt(id, q, happened, a);
      assert StartedAt(id, q', happened, a);
    }
    if q'.isWatchingPaxosID {
      var a, b :| WatchedAt(id, q, happened, a, b);
      assert WatchedAt(id, q', happened, a, b);
    }
  }

  // ---- the same for the list of quorums

  lemma ExtensionHappens(quorums: seq<Keyed<Quorum>>, queued: seq<Queued>, happened: seq<Happening>, e: Extend)
    requires ListAccounted(quorums, happened) && AllJustified(queued, happened)
    ensures ListAccounted(quorums, happened + [Extending(e)]) && AllJustified(queued, happened + [Extending(e)])
  {
    AllJustifiedStays(queued, happened, [Extending(e)]);
    forall q | q in quorums ensures Accounted(q.id, q.obj, happened + [Extending(e)]) {
      AccountStays(q.id, q.obj, happened, [Extending(e)]);
    }
  }

  lemma OneReplaced(quorums: seq<Keyed<Quorum>>, i: nat, q: Quorum, happened: seq<Happening>)
    requires i < |quorums| && ListAccounted(quorums, happened) && Accounted(quorums[i].id, q, happened) && Unique(quorums)
    ensures ListAccounted(quorums[i := Keyed(quorums[i].id, q)], happened) && Unique(quorums[i := Keyed(quorums[i].id, q)])
  {
    hide Accounted;
    var quorums' := quorums[i := Keyed(quorums[i].id, q)];
    forall x | x in quorums' ensures Accounted(x.id, x.obj, happened) {
      if x != Keyed(quorums[i].id, q) { assert x in quorums; }
    }
  }

  lemma OneSame(quorums: seq<Keyed<Quorum>>, i: nat, q: Quorum, happened: seq<Happening>)
    requires i < |quorums| && ListAccounted(quorums, happened) && Unique(quorums) && NoNewActivation(quorums[i].obj, q)
    ensures ListAccounted(quorums[i := Keyed(quorums[i].id, q)], happened) && Unique(quorums[i := Keyed(quorums[i].id, q)])
  {
    hide Accounted, NoNewActivation, Unique;
    assert quorums[i] in quorums;
    NothingNew(quorums[i].id, quorums[i].obj, q, happened);
    OneReplaced(quorums, i, q, happened);
  }

  lemma OneStarts(quorums: seq<Keyed<Quorum>>, i: nat, q: Quorum, happened: seq<Happening>)
    requires i < |quorums| && ListAccounted(quorums, happened) && Unique(quorums) && q.isActivatingNode && !q.isWatchingPaxosID
    ensures var happened' := happened + [Start(quorums[i].id, q.activatingNodeID, q.configID)];
            ListAccounted(quorums[i := Keyed(quorums[i].id, q)], happened') && Unique(quorums[i := Keyed(quorums[i].id, q)])
  {
    hide Accounted;
    var start := Start(quorums[i].id, q.activatingNodeID, q.configID);
    var quorums' := quorums[i := Keyed(quorums[i].id, q)];
    StartAccounts(quorums[i].id, q, happened);
    forall x | x in quorums' ensures Accounted(x.id, x.obj, happened + [start]) {
      var j :| 0 <= j < |quorums'| && quorums'[j] == x;
      if j != i {
        assert x in quorums;
        AccountStays(x.id, x.obj, happened, [start]);
      }
    }
  }

  // The attempt on the first quorum of a list.
  function FirstAttempt(
      q: Keyed<Quorum>, nodeID: nat, v: ShardServer, disregardPrevious: bool, force: bool, now: nat, interval: nat, rounds: nat): Attempt
  {
    if Concerned(q.obj, nodeID) then AttemptOne(q, nodeID, v, disregardPrevious, force, now, interval, rounds)
    else Attempt([q], v, [], [])
  }

  lemma AttemptUnfolds(
      l: seq<Keyed<Quorum>>, nodeID: nat, v: ShardServer, disregardPrevious: bool, force: bool, now: nat, interval: nat, rounds: nat)
    requires l != []
    ensures var a, one := AttemptAll(l, nodeID, v, disregardPrevious, force, now, interval, rounds),
                          FirstAttempt(l[0], nodeID, v, disregardPrevious, force, now, interval, rounds);
            var rest := AttemptAll(l[1..], nodeID, one.server, disregardPrevious, force, now, interval, rounds);
            |one.quorums| == 1 && a.quorums == one.quorums + rest.quorums && a.started == one.started + rest.started
  {
    hide AttemptOne;
    OneQuorum(l[0], nodeID, v, disregardPrevious, force, now, interval, rounds);
    assert [] + AttemptAll(l[1..], nodeID, v, disregardPrevious, force, now, interval, rounds).started
           == AttemptAll(l[1..], nodeID, v, disregardPrevious, force, now, interval, rounds).started;
  }

  lemma FirstAccounts(
      q: Keyed<Quorum>, nodeID: nat, v: ShardServer, disregardPrevious: bool, force: bool, now: nat, interval: nat, rounds: nat,
      happened: seq<Happening>)
    requires Accounted(q.id, q.obj, happened) && Phased(q.obj)
    ensures var a := FirstAttempt(q, nodeID, v, disregardPrevious, force, now, interval, rounds);
            |a.quorums| == 1 && Accounted(q.id, a.quorums[0].obj, happened + a.started)
  {
    hide Starts, Accounted, Backoff;
    assert happened + [] == happened;
    if Concerned(q.obj, nodeID) {
      if force {
        NothingNew(q.id, q.obj, q.obj.(paxosID := 1), happened);
      } else if Starts(q.obj, q.id, v, disregardPrevious, now, rounds) {
        StartAccounts(q.id, OnActivationStart(q.obj, nodeID, now + interval), happened);
      }
    }
  }

  lemma FirstElsewhere(
      q: Keyed<Quorum>, nodeID: nat, v: ShardServer, disregardPrevious: bool, force: bool, now: nat, interval: nat, rounds: nat, id: nat)
    requires id != q.id
    ensures Elsewhere(id, FirstAttempt(q, nodeID, v, disregardPrevious, force, now, interval, rounds).started)
  {
    hide Starts, Backoff;
  }

  lemma {:induction false} AttemptElsewhere(
      l: seq<Keyed<Quorum>>, nodeID: nat, v: ShardServer, disregardPrevious: bool, force: bool, now: nat, interval: nat, rounds: nat, id: nat)
    requires forall q :: q in l ==> q.id != id
    ensures Elsewhere(id, AttemptAll(l, nodeID, v, disregardPrevious, force, now, interval, rounds).started)
  {
    hide AttemptAll, FirstAttempt;
    if l == [] {
      NoQuorum(nodeID, v, disregardPrevious, force, now, interval, rounds);
    } else {
      AttemptUnfolds(l, nodeID, v, disregardPrevious, force, now, interval, rounds);
      FirstElsewhere(l[0], nodeID, v, disregardPrevious, force, now, interval, rounds, id);
      var one := FirstAttempt(l[0], nodeID, v, disregardPrevious, force, now, interval, rounds);
      AttemptElsewhere(l[1..], nodeID, one.server, disregardPrevious, force, now, interval, rounds, id);
    }
  }

  // Attempts on all quorums in turn: what started is on the account of its quorum, and of no other.
  lemma {:induction false} AttemptAccounts(
      l: seq<Keyed<Quorum>>, nodeID: nat, v: ShardServer, disregardPrevious: bool, force: bool, now: nat, interval: nat, rounds: nat,
      happened: seq<Happening>)
    requires Unique(l) && ListAccounted(l, happened) && forall q :: q in l ==> Phased(q.obj)
    ensures var a := AttemptAll(l, nodeID, v, disregardPrevious, force, now, interval, rounds);
            forall j :: 0 <= j < |l| ==> Accounted(l[j].id, a.quorums[j].obj, happened + a.started)
  {
    hide AttemptAll, FirstAttempt, Phased, Accounted, ListAccounted, Elsewhere;
    if l != [] {
      var one := FirstAttempt(l[0], nodeID, v, disregardPrevious, force, now, interval, rounds);
      var a, rest := AttemptAll(l, nodeID, v, disregardPrevious, force, now, interval, rounds),
                     AttemptAll(l[1..], nodeID, one.server, disregardPrevious, force, now, interval, rounds);
      AttemptUnfolds(l, nodeID, v, disregardPrevious, force, now, interval, rounds);
      ListedAccount(l, 0, happened);
      FirstAccounts(l[0], nodeID, v, disregardPrevious, force, now, interval, rounds, happened);
      forall id | id != l[0].id ensures Elsewhere(id, one.started) {
        FirstElsewhere(l[0], nodeID, v, disregardPrevious, force, now, interval, rounds, id);
      }
      RestAccounted(l, happened, one.started);
      AttemptAccounts(l[1..], nodeID, one.server, disregardPrevious, force, now, interval, rounds, happened + one.started);
      AttemptElsewhere(l[1..], nodeID, one.server, disregardPrevious, force, now, interval, rounds, l[0].id);
      AccountStays(l[0].id, one.quorums[0].obj, happened + one.started, rest.started);
      assert (happened + one.started) + rest.started == happened + a.started;
      forall j | 0 <= j < |l| ensures Accounted(l[j].id, a.quorums[j].obj, happened + a.started) {
        if j > 0 { assert l[1..][j - 1] == l[j] && a.quorums[j] == rest.quorums[j - 1]; }
      }
    }
  }

  lemma ListedAccount(quorums: seq<Keyed<Quorum>>, i: nat, happened: seq<Happening>)
    requires ListAccounted(quorums, happened) && i < |quorums|
    ensures Accounted(quorums[i].id, quorums[i].obj, happened)
  {}

  lemma RestAccounted(l: seq<Keyed<Quorum>>, happened: seq<Happening>, more: seq<Happening>)
    requires l != [] && Unique(l) && ListAccounted(l, happened) && forall id :: id != l[0].id ==> Elsewhere(id, more)
    ensures Unique(l[1..]) && ListAccounted(l[1..], happened + more) && forall q :: q in l[1..] ==> q in l && q.id != l[0].id
  {
    hide Accounted, Elsewhere;
    forall q | q in l[1..] ensures q in l && q.id != l[0].id && Accounted(q.id, q.obj, happened + more) {
      var j :| 0 <= j < |l[1..]| && l[1..][j] == q;
      assert l[j + 1] == q;
      AccountStays(q.id, q.obj, happened, more);
    }
  }

  // An activation that took too long is given up.
  function Late(q: Keyed<Quorum>, now: nat): Keyed<Quorum> {
    if q.obj.isActivatingNode && q.obj.activationExpireTime < now then Keyed(q.id, q.obj.ClearActivation()) else q
  }

  // What the loss of a node does to a quorum, and the deactivations that it causes.
  function GivenUp(q: Keyed<Quorum>, nodeID: nat): Keyed<Quorum> {
    if q.obj.isActivatingNode && (q.obj.activatingNodeID == nodeID || q.obj.IsActiveMember(nodeID))
    then Keyed(q.id, q.obj.ClearActivation()) else q
  }

  // The node that is being activated there is looked up.
  predicate CanGiveUp(servers: seq<Keyed<ShardServer>>, q: Quorum, nodeID: nat) {
    q.isActivatingNode && (q.activatingNodeID == nodeID || q.IsActiveMember(nodeID)) ==> Has(servers, q.activatingNodeID)
  }

  function DeactivationOf(q: Keyed<Quorum>, nodeID: nat, force: bool): seq<Queued> {
    if q.obj.IsActiveMember(nodeID) then [Queued(false, q.id, nodeID, force, q.obj.configID)] else []
  }

  function Deactivations(l: seq<Keyed<Quorum>>, nodeID: nat, force: bool): seq<Queued> {
    if l == [] then [] else DeactivationOf(l[0], nodeID, force) + Deactivations(l[1..], nodeID, force)
  }

  lemma DeactivationsStep(l: seq<Keyed<Quorum>>, i: nat, nodeID: nat, force: bool, q: seq<Queued>)
    requires i < |l|
    ensures |Deactivations(l[i..], nodeID, force)| == |DeactivationOf(l[i], nodeID, force)| + |Deactivations(l[i + 1..], nodeID, force)|
    ensures forall p: seq<Queued> :: q == p + DeactivationOf(l[i], nodeID, force) ==>
              p + Deactivations(l[i..], nodeID, force) == q + Deactivations(l[i + 1..], nodeID, force)
  {
    assert l[i..][1..] == l[i + 1..];
  }

  class ConfigActivationManager {
    const config: ConfigState
    const activationTimeoutInterval: nat
    const numRoundsTriggerActivation: nat
    var queued: seq<Queued>
    ghost var happened: seq<Happening>

    ghost predicate Valid()
      reads this, config
    {
      && activationTimeoutInterval > 0 && Unique(config.quorums)
      && (forall q :: q in config.quorums ==> Phased(q.obj))
      && (forall v :: v in config.shardServers ==> BackoffSound(v.obj))
      && ListAccounted(config.quorums, happened) && AllJustified(queued, happened)
    }

    constructor (config: ConfigState, activationTimeoutInterval: nat, numRoundsTriggerActivation: nat)
      requires activationTimeoutInterval > 0 && Unique(config.quorums) && (forall q :: q in config.quorums ==> Idle(q.obj))
      requires forall v :: v in config.shardServers ==> v.obj.activationPhase == 0
      ensures Valid() && this.config == config && queued == [] && happened == []
    {
      this.config := config;
      this.activationTimeoutInterval := activationTimeoutInterval;
      this.numRoundsTriggerActivation := numRoundsTriggerActivation;
      queued, happened := [], [];
    }

    method Enqueue(x: Queued)
      requires AllJustified(queued, happened) && Justified(x, happened)
      modifies this`queued
      ensures queued == old(queued) + [x] && AllJustified(queued, happened)
    {
      OneMoreJustified(queued, x, happened);
      queued := queued + [x];
    }

    // One quorum and one server; a forced activation is queued at once.
    method TryActivateInQuorum(i: nat, v: nat, disregardPrevious: bool, force: bool, now: nat) returns (started: bool)
      requires Valid() && i < |config.quorums| && v < |config.shardServers|
      requires Concerned(config.quorums[i].obj, config.shardServers[v].id)
      modifies this`queued, this`happened, config`quorums, config`shardServers
      ensures Valid()
      ensures var a := AttemptOne(old(config.quorums)[i], old(config.shardServers)[v].id, old(config.shardServers)[v].obj,
                                  disregardPrevious, force, now, activationTimeoutInterval, numRoundsTriggerActivation);
              config.quorums == old(config.quorums)[i := a.quorums[0]]
              && config.shardServers == old(config.shardServers)[v := Keyed(old(config.shardServers)[v].id, a.server)]
              && queued == old(queued) + a.queued && happened == old(happened) + a.started
      ensures started <==> !force && Starts(old(config.quorums)[i].obj, old(config.quorums)[i].id, old(config.shardServers)[v].obj,
                                            disregardPrevious, now, numRoundsTriggerActivation)
    {
      hide Phased, ListAccounted, Justified, AllJustified, Unique;
      started := false;
      var q, server := config.quorums[i], config.shardServers[v];
      assert Phased(q.obj) && BackoffSound(server.obj);
      assert server.id == config.shardServers[v].id && config.shardServers[v := server] == config.shardServers;
      IdleWhenPhased(q.obj);
      if force {
        SamePhase(q.obj, q.obj.(paxosID := 1));
        OneSame(config.quorums, i, q.obj.(paxosID := 1), happened);
        config.quorums := config.quorums[i := Keyed(q.id, q.obj.(paxosID := 1))];
        ForcedIsJustified(Queued(true, q.id, server.id, true, q.obj.configID), happened);
        Enqueue(Queued(true, q.id, server.id, true, q.obj.configID));
        assert happened + [] == happened;
        return;
      }
      assert config.quorums[i := q] == config.quorums && queued + [] == queued && happened + [] == happened;
      if !disregardPrevious && server.obj.activationPhase == -1 { return; }
      if disregardPrevious {
        server := Keyed(server.id, server.obj.(activationPhase := 0, nextActivationTime := 0));
        config.shardServers := config.shardServers[v := server];
      }
      if !q.obj.hasPrimary { return; }
      if server.obj.activationPhase > 0 {
        assert server.obj.nextActivationTime > 0;
        if now < server.obj.nextActivationTime { return; }
      }
      var info := InfoFor(server.obj.quorumInfos, q.id);
      if info.None? { return; }
      if q.obj.paxosID >= info.value.paxosID {
        if q.obj.paxosID - info.value.paxosID > numRoundsTriggerActivation { return; }
      }
      var q' := OnActivationStart(q.obj, server.id, now + activationTimeoutInterval);
      StartPhase(q.obj, server.id, now + activationTimeoutInterval);
      OneStarts(config.quorums, i, q', happened);
      AllJustifiedStays(queued, happened, [Start(q.id, server.id, q.obj.configID + 1)]);
      happened := happened + [Start(q.id, server.id, q.obj.configID + 1)];
      config.quorums := config.quorums[i := Keyed(q.id, q')];
      var phase: nat := server.obj.activationPhase + 1;
      WaitPositive(activationTimeoutInterval, Power(phase));
      var wait := activationTimeoutInterval * Power(phase);
      config.shardServers := config.shardServers[v := Keyed(server.id, server.obj.(activationPhase := phase, nextActivationTime := now + wait))];
      started := true;
    }

    // Every quorum in which the node is inactive and no activation is under way, in turn.  The node is
    // looked up, and has to be registered if there is such a quorum.
    method TryActivateShardServer(nodeID: nat, disregardPrevious: bool, force: bool, hasHeartbeat: bool, now: nat) returns (ok: bool)
      requires Valid()
      modifies this`queued, this`happened, config`quorums, config`shardServers
      ensures ok <==> !hasHeartbeat || Has(old(config.shardServers), nodeID)
                      || forall q :: q in old(config.quorums) ==> !Concerned(q.obj, nodeID)
      ensures ok ==> Valid()
      ensures ok && (!hasHeartbeat || !Has(old(config.shardServers), nodeID)) ==>
                config.quorums == old(config.quorums) && config.shardServers == old(config.shardServers) && queued == old(queued)
                && happened == old(happened)
      ensures ok && hasHeartbeat && Has(old(config.shardServers), nodeID) ==>
                var a := AttemptAll(old(config.quorums), nodeID, Get(old(config.shardServers), nodeID), disregardPrevious, force, now,
                                    activationTimeoutInterval, numRoundsTriggerActivation);
                config.quorums == a.quorums && config.shardServers == Put(old(config.shardServers), nodeID, a.server)
                && queued == old(queued) + a.queued && happened == old(happened) + a.started
    {
      if !hasHeartbeat { return true; }
      var v := Find(config.shardServers, nodeID);
      if v == |config.shardServers| {
        ok := NoneConcerned(nodeID);
      } else {
        TryActivateServer(v, disregardPrevious, force, now);
        ok := true;
      }
    }

    method TryActivateServer(v: nat, disregardPrevious: bool, force: bool, now: nat)
      requires Valid() && v < |config.shardServers|
      modifies this`queued, this`happened, config`quorums, config`shardServers
      ensures Valid()
      ensures var server := old(config.shardServers)[v];
              var a := AttemptAll(old(config.quorums), server.id, server.obj, disregardPrevious, force, now,
                                  activationTimeoutInterval, numRoundsTriggerActivation);
              config.quorums == a.quorums && config.shardServers == old(config.shardServers)[v := Keyed(server.id, a.server)]
              && queued == old(queued) + a.queued && happened == old(happened) + a.started
    {
      hide Valid, Concerned, AttemptOne, AttemptAll, Joined;
      ghost var l, servers, before, past := config.quorums, config.shardServers, queued, happened;
      ghost var doneQueued: seq<Queued> := [];
      ghost var doneStarts: seq<Happening> := [];
      var nodeID := config.shardServers[v].id;
      ghost var server := servers[v].obj;
      assert servers[v := Keyed(nodeID, server)] == servers && before + [] == before && past + [] == past && l[0..] == l && l[..0] == [];
      JoinNothing(AttemptAll(l, nodeID, server, disregardPrevious, force, now, activationTimeoutInterval, numRoundsTriggerActivation));
      for i := 0 to |config.quorums|
        invariant Valid() && |config.quorums| == |l| && config.quorums[i..] == l[i..]
        invariant config.shardServers == servers[v := Keyed(nodeID, server)] && queued == before + doneQueued
        invariant happened == past + doneStarts
        invariant AttemptAll(l, nodeID, servers[v].obj, disregardPrevious, force, now, activationTimeoutInterval, numRoundsTriggerActivation)
                  == Joined(config.quorums[..i], doneQueued, doneStarts,
                            AttemptAll(l[i..], nodeID, server, disregardPrevious, force, now, activationTimeoutInterval, numRoundsTriggerActivation))
      {
        var q := config.quorums[i];
        assert q == config.quorums[i..][0] == l[i];
        ghost var done, rest := config.quorums[..i], l[i + 1..];
        assert config.quorums[i..][1..] == l[i..][1..] == rest;
        ghost var one := Attempt([q], server, [], []);
        ConcernedIs(q.obj, nodeID);
        if !q.obj.isActivatingNode && q.obj.IsInactiveMember(nodeID) {
          one := AttemptOne(q, nodeID, server, disregardPrevious, force, now, activationTimeoutInterval, numRoundsTriggerActivation);
          OneQuorum(q, nodeID, server, disregardPrevious, force, now, activationTimeoutInterval, numRoundsTriggerActivation);
          var started := TryActivateInQuorum(i, v, disregardPrevious, force, now);
        }
        NextAttempt(l, i, nodeID, server, disregardPrevious, force, now, activationTimeoutInterval, numRoundsTriggerActivation,
                    done, doneQueued, doneStarts, one);
        assert config.quorums[..i + 1] == done + one.quorums && config.quorums[i + 1..] == rest;
        assert before + (doneQueued + one.queued) == (before + doneQueued) + one.queued;
        assert past + (doneStarts + one.started) == (past + doneStarts) + one.started;
        server, doneQueued, doneStarts := one.server, doneQueued + one.queued, doneStarts + one.started;
      }
      assert l[|l|..] == [] && config.quorums[..|l|] == config.quorums;
      NoQuorum(nodeID, server, disregardPrevious, force, now, activationTimeoutInterval, numRoundsTriggerActivation);
      JoinLast(config.quorums, doneQueued, doneStarts, server);
    }

    // The loop for a node that is not registered.
    method NoneConcerned(nodeID: nat) returns (ok: bool)
      ensures ok <==> forall q :: q in config.quorums ==> !Concerned(q.obj, nodeID)
    {
      for i := 0 to |config.quorums|
        invariant forall j :: 0 <= j < i ==> !Concerned(config.quorums[j].obj, nodeID)
      {
        var q := config.quorums[i].obj;
        if !q.isActivatingNode && q.IsInactiveMember(nodeID) {
          assert config.quorums[i] in config.quorums && Concerned(config.quorums[i].obj, nodeID);
          return false;
        }
      }
      return true;
    }

    // The primary of a quorum extends its lease: the first time in a configuration its log is
    // watched, and once it says that the log has grown the activation is sent to the log.
    method OnExtendLease(e: Extend) returns (ok: bool)
      requires Valid() && Has(config.quorums, e.quorumID)
      modifies this`queued, this`happened, config`quorums, config`shardServers
      ensures var q := Get(old(config.quorums), e.quorumID);
              ok <==> (Completes(q, e) ==> Has(old(config.shardServers), q.activatingNodeID))
      ensures ok ==> Valid() && happened == old(happened) + [Extending(e)]
      ensures ok ==>
                var q := Get(old(config.quorums), e.quorumID);
                config.quorums == Put(old(config.quorums), e.quorumID, AfterExtension(q, e))
                && queued == old(queued) + ActivationOf(q, e)
                && config.shardServers == (if Completes(q, e) then ResetOne(old(config.shardServers), q.activatingNodeID)
                                           else old(config.shardServers))
    {
      hide ListAccounted, Accounted, Justified, AllJustified, AsMap, Unique;
      var i := Find(config.quorums, e.quorumID);
      var q := config.quorums[i].obj;
      ghost var before := happened;
      assert config.quorums[i] in config.quorums && Phased(q);
      assert Accounted(e.quorumID, q, before) by { ListedAccount(config.quorums, i, before); }
      ExtensionHappens(config.quorums, queued, happened, e);
      happened := happened + [Extending(e)];
      assert config.quorums[i := Keyed(e.quorumID, q)] == config.quorums && queued + [] == queued;
      if !q.hasPrimary || e.nodeID != q.primaryID { return true; }
      if !q.isActivatingNode || q.isReplicatingActivation || e.configID != q.configID { return true; }
      if !q.isWatchingPaxosID {
        WatchAccounts(e.quorumID, q, OnActivationMonitoring(q, e.paxosID), before, e);
        OneReplaced(config.quorums, i, OnActivationMonitoring(q, e.paxosID), happened);
        config.quorums := config.quorums[i := Keyed(e.quorumID, OnActivationMonitoring(q, e.paxosID))];
      } else if e.duration % 1000 == 999 {
        ReportJustifies(e.quorumID, q, before, e);
        OneSame(config.quorums, i, OnActivationReplication(q), happened);
        config.quorums := config.quorums[i := Keyed(e.quorumID, OnActivationReplication(q))];
        Enqueue(Queued(true, e.quorumID, q.activatingNodeID, false, q.configID));
        var v := Find(config.shardServers, q.activatingNodeID);
        if v == |config.shardServers| { return false; }
        config.shardServers := config.shardServers[v :=
          Keyed(q.activatingNodeID, config.shardServers[v].obj.(activationPhase := 0, nextActivationTime := 0))];
      }
      return true;
    }

    method ClearAt(i: nat)
      requires Valid() && i < |config.quorums|
      modifies config`quorums
      ensures Valid()
      ensures config.quorums == old(config.quorums)[i := Keyed(old(config.quorums)[i].id, old(config.quorums)[i].obj.ClearActivation())]
    {
      hide ListAccounted, AllJustified, Unique;
      OneSame(config.quorums, i, config.quorums[i].obj.ClearActivation(), happened);
      config.quorums := config.quorums[i := Keyed(config.quorums[i].id, config.quorums[i].obj.ClearActivation())];
    }

    // A node that is gone: activations that it takes part in are given up, and it is deactivated in
    // every quorum of which it is an active member.  The nodes that were being activated are looked up.
    method TryDeactivateShardServer(nodeID: nat, force: bool) returns (ok: bool)
      requires Valid()
      modifies this`queued, config`quorums, config`shardServers
      ensures ok <==> forall q :: q in old(config.quorums) ==> CanGiveUp(old(config.shardServers), q.obj, nodeID)
      ensures ok ==> Valid() && |config.quorums| == |old(config.quorums)|
      ensures ok ==> forall j :: 0 <= j < |config.quorums| ==> config.quorums[j] == GivenUp(old(config.quorums)[j], nodeID)
      ensures ok ==> queued == old(queued) + Deactivations(old(config.quorums), nodeID, force)
      ensures ok ==> config.shardServers == ResetOne(old(config.shardServers), nodeID)
    {
      hide Valid, GivenUp, CanGiveUp, AsMap, DeactivationOf;
      for i := 0 to |config.quorums|
        invariant Valid() && |config.quorums| == |old(config.quorums)| && config.shardServers == old(config.shardServers)
        invariant forall j :: i <= j < |config.quorums| ==> config.quorums[j] == old(config.quorums[j])
        invariant forall j :: 0 <= j < i ==> config.quorums[j] == GivenUp(old(config.quorums)[j], nodeID)
        invariant forall j :: 0 <= j < i ==> CanGiveUp(config.shardServers, old(config.quorums)[j].obj, nodeID)
        invariant old(queued) + Deactivations(old(config.quorums), nodeID, force)
                  == queued + Deactivations(old(config.quorums)[i..], nodeID, force)
      {
        ok := DeactivateIn(i, nodeID, force);
        if !ok {
          assert old(config.quorums)[i] in old(config.quorums);
          return;
        }
        DeactivationsStep(old(config.quorums), i, nodeID, force, queued);
      }
      ResetServer(nodeID);
      ok := true;
    }

    method DeactivateIn(i: nat, nodeID: nat, force: bool) returns (ok: bool)
      requires Valid() && i < |config.quorums|
      modifies this`queued, config`quorums
      ensures ok <==> CanGiveUp(config.shardServers, old(config.quorums)[i].obj, nodeID)
      ensures ok ==> Valid() && config.quorums == old(config.quorums)[i := GivenUp(old(config.quorums)[i], nodeID)]
      ensures ok ==> queued == old(queued) + DeactivationOf(old(config.quorums)[i], nodeID, force)
    {
      hide Phased, ListAccounted, Justified, AllJustified, AsMap, Unique;
      var q := config.quorums[i];
      assert config.quorums[i := q] == config.quorums && queued + [] == queued;
      if q.obj.isActivatingNode && q.obj.activatingNodeID == nodeID {
        var v := Find(config.shardServers, q.obj.activatingNodeID);
        if v == |config.shardServers| { return false; }
        ClearAt(i);
      }
      if q.obj.IsActiveMember(nodeID) {
        if config.quorums[i].obj.isActivatingNode {
          var v := Find(config.shardServers, q.obj.activatingNodeID);
          if v == |config.shardServers| { return false; }
          ClearAt(i);
        }
        var x := Queued(false, q.id, nodeID, force, q.obj.configID);
        ForcedIsJustified(x, happened);
        Enqueue(x);
      }
      return true;
    }

    method ResetServer(nodeID: nat)
      requires Valid()
      modifies config`shardServers
      ensures Valid() && config.shardServers == ResetOne(old(config.shardServers), nodeID)
    {
      hide Phased, ListAccounted, AllJustified, Unique;
      var v := Find(config.shardServers, nodeID);
      if v < |config.shardServers| {
        config.shardServers := config.shardServers[v := Keyed(nodeID,
          config.shardServers[v].obj.(activationPhase := 0, nextActivationTime := 0))];
      }
    }

    // Gives up the activations that took too long.  A replicating activation has expiry zero, so it
    // fails the assertions here: the handler survives exactly if there is none.
    method OnActivationTimeout(now: nat) returns (ok: bool)
      requires Valid() && now > 0
      modifies config`quorums
      ensures ok <==> forall q :: q in old(config.quorums) ==> !Replicating(q.obj)
      ensures ok ==> Valid() && |config.quorums| == |old(config.quorums)|
      ensures ok ==> forall j :: 0 <= j < |config.quorums| ==> config.quorums[j] == Late(old(config.quorums)[j], now)
    {
      ghost var before := config.quorums;
      hide Valid;
      for i := 0 to |config.quorums|
        invariant Valid() && |config.quorums| == |before|
        invariant forall j :: i <= j < |before| ==> config.quorums[j] == before[j]
        invariant forall j :: 0 <= j < i ==> !Replicating(before[j].obj)
        invariant forall j :: 0 <= j < i ==> config.quorums[j] == Late(before[j], now)
      {
        var q := config.quorums[i].obj;
        KnownPhase(i);
        if q.isActivatingNode && q.activationExpireTime < now {
          if q.activationExpireTime == 0 || q.isReplicatingActivation {
            assert before[i] in before && Replicating(before[i].obj);
            return false;
          }
          ClearAt(i);
        }
      }
      return true;
    }

    lemma KnownPhase(i: nat)
      requires Valid() && i < |config.quorums|
      ensures Phased(config.quorums[i].obj)
    {}
  }

  // ---- the loop over the quorums

  function Joined(done: seq<Keyed<Quorum>>, queued: seq<Queued>, started: seq<Happening>, a: Attempt): Attempt {
    Attempt(done + a.quorums, a.server, queued + a.queued, started + a.started)
  }

  lemma JoinNothing(a: Attempt)
    ensures Joined([], [], [], a) == a
  {
    assert [] + a.quorums == a.quorums && [] + a.queued == a.queued && [] + a.started == a.started;
  }

  lemma JoinLast(done: seq<Keyed<Quorum>>, queued: seq<Queued>, started: seq<Happening>, v: ShardServer)
    ensures Joined(done, queued, started, Attempt([], v, [], [])) == Attempt(done, v, queued, started)
  {
    assert done + [] == done && queued + [] == queued && started + [] == started;
  }

  lemma NoQuorum(nodeID: nat, v: ShardServer, disregardPrevious: bool, force: bool, now: nat, interval: nat, rounds: nat)
    ensures AttemptAll([], nodeID, v, disregardPrevious, force, now, interval, rounds) == Attempt([], v, [], [])
  {}

  lemma ConcernedIs(q: Quorum, nodeID: nat)
    ensures Concerned(q, nodeID) <==> !q.isActivatingNode && q.IsInactiveMember(nodeID)
  {}

  lemma OneQuorum(
      q: Keyed<Quorum>, nodeID: nat, v: ShardServer, disregardPrevious: bool, force: bool, now: nat, interval: nat, rounds: nat)
    ensures var a := AttemptOne(q, nodeID, v, disregardPrevious, force, now, interval, rounds);
            |a.quorums| == 1 && a.quorums[0].id == q.id
  {}

  lemma NextAttempt(
      l: seq<Keyed<Quorum>>, i: nat, nodeID: nat, v: ShardServer, disregardPrevious: bool, force: bool, now: nat, interval: nat,
      rounds: nat, done: seq<Keyed<Quorum>>, queued: seq<Queued>, started: seq<Happening>, one: Attempt)
    requires i < |l|
    requires one == if Concerned(l[i].obj, nodeID) then AttemptOne(l[i], nodeID, v, disregardPrevious, force, now, interval, rounds)
                    else Attempt([l[i]], v, [], [])
    ensures Joined(done, queued, started, AttemptAll(l[i..], nodeID, v, disregardPrevious, force, now, interval, rounds))
            == Joined(done + one.quorums, queued + one.queued, started + one.started,
                      AttemptAll(l[i + 1..], nodeID, one.server, disregardPrevious, force, now, interval, rounds))
  {
    assert l[i..][1..] == l[i + 1..] && l[i..][0] == l[i];
    var rest := AttemptAll(l[i + 1..], nodeID, one.server, disregardPrevious, force, now, interval, rounds);
    assert done + (one.quorums + rest.quorums) == (done + one.quorums) + rest.quorums;
    assert queued + (one.queued + rest.queued) == (queued + one.queued) + rest.queued;
    assert (started + one.started) + rest.started == started + (one.started + rest.started);
    assert [] + rest.queued == rest.queued && [] + rest.started == rest.started;
  }

  lemma IdleWhenPhased(q: Quorum)
    requires Phased(q) && !q.isActivatingNode
    ensures Idle(q)
  {}

  lemma SamePhase(q: Quorum, q': Quorum)
    requires Phased(q) && q' == q.(paxosID := q'.paxosID)
    ensures Phased(q')
  {}

  lemma StartPhase(q: Quorum, nodeID: nat, expireTime: nat)
    requires Idle(q) && expireTime > 0
    ensures Phased(OnActivationStart(q, nodeID, expireTime))
  {}

  lemma ForcedIsJustified(x: Queued, happened: seq<Happening>)
    requires !x.activate || x.force
    ensures Justified(x, happened)
  {}
}
