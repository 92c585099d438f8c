// What the events of a controller do to leases, primaries and activations, stated on the moments before and
// after them: which lease, which quorum and which server changes, and that nothing else does.

module ManagerEffects {
  import opened KeyedLists
  import opened ConfigMessages
  import opened Schema
  import opened PrimaryLeases
  import opened Heartbeats
  import opened Activation
  import opened ActivationAndLog
  import opened ControllerRuns
  import Runs
  import opened EntryEffects

  // ---- leases

  // A lease lasts as long as asked for, and three seconds at most.
  lemma LengthBounded(duration: nat)
    ensures Length(duration) <= duration && Length(duration) <= 3000
    ensures Length(duration) == duration || Length(duration) == 3000
  {}

  lemma {:induction false} AddedLease(l: seq<PrimaryLease>, x: PrimaryLease)
    ensures multiset(AddLease(l, x)) == multiset(l) + multiset{x}
  {
    if l != [] && x.expireTime >= l[0].expireTime {
      AddedLease(l[1..], x);
      assert l == [l[0]] + l[1..];
    }
  }

  lemma {:induction false} RemovedLease(l: seq<PrimaryLease>, q: nat)
    ensures multiset(RemoveFirst(l, q)) == if FirstOf(l, q).Some? then multiset(l) - multiset{FirstOf(l, q).value} else multiset(l)
  {
    if l != [] {
      assert l == [l[0]] + l[1..];
      if l[0].quorumID != q { RemovedLease(l[1..], q); }
    }
  }

  // A request that is granted as an assignment adds one lease and shows the node as primary; an extension
  // moves the expiry of the first lease of the quorum.
  lemma LeaseEffect(l: seq<PrimaryLease>, periods: seq<Period>, quorums: seq<Keyed<Quorum>>, q: nat, n: nat, end: nat)
    ensures multiset(Assigned(l, periods, q, n, end)) == multiset(l) + multiset{PrimaryLease(q, n, end, |periods|)}
    ensures Has(quorums, q) ==> Replaced(quorums, SetPrimary(quorums, q, n), q, Get(quorums, q).(hasPrimary := true, primaryID := n))
    ensures FirstOf(l, q).Some? ==>
              var x := FirstOf(l, q).value;
              x in l && x.quorumID == q && multiset(Extended(l, q, end)) == multiset(l) - multiset{x} + multiset{x.(expireTime := end)}
  {
    hide AsMap, IndexOf, AddLease, RemoveFirst;
    AddedLease(l, PrimaryLease(q, n, end, |periods|));
    RemovedLease(l, q);
    if Has(quorums, q) { PutReplaces(quorums, q, Get(quorums, q).(hasPrimary := true, primaryID := n)); }
    if FirstOf(l, q).Some? { AddedLease(RemoveFirst(l, q), FirstOf(l, q).value.(expireTime := end)); }
  }

  // A lease of the quorum is over.
  predicate Over(l: seq<PrimaryLease>, q: nat, now: nat) { exists x :: x in l && x.quorumID == q && x.expireTime < now }

  lemma NoneOver(l: seq<PrimaryLease>, now: nat)
    requires InOrder(l) && (l == [] || l[0].expireTime >= now)
    ensures forall q :: !Over(l, q, now)
  {
    forall x | x in l ensures x.expireTime >= now {
      if x != l[0] { assert x in l[1..]; }
    }
  }

  lemma FirstOver(l: seq<PrimaryLease>, q: nat, now: nat)
    requires l != [] && l[0].expireTime < now
    ensures Over(l, q, now) <==> q == l[0].quorumID || Over(l[1..], q, now)
  {
    if x :| x in l && x.quorumID == q && x.expireTime < now && q != l[0].quorumID { assert x in l[1..]; }
    if q == l[0].quorumID { assert l[0] in l; }
    if x :| x in l[1..] && x.quorumID == q && x.expireTime < now { assert x in l; }
  }

  lemma ClearedMap(quorums: seq<Keyed<Quorum>>, id: nat, q: nat)
    ensures q in AsMap(ClearPrimary(quorums, id)) <==> q in AsMap(quorums)
    ensures q in AsMap(quorums) ==>
              AsMap(ClearPrimary(quorums, id))[q] == if q == id then AsMap(quorums)[q].(hasPrimary := false, primaryID := 0) else AsMap(quorums)[q]
  {}

  // Main result: when leases run out, exactly the quorums of which one is over lose their primary, nothing
  // else of any quorum changes, and a migration is given up exactly if its target or its source is one of them.
  lemma {:induction false} ExpiryEffect(
      l: seq<PrimaryLease>, quorums: seq<Keyed<Quorum>>, migrating: bool, src: Option<nat>, dst: nat, now: nat, q: nat)
    requires InOrder(l) && ExpireAll(l, quorums, migrating, src, dst, now).Ok?
    ensures var r := ExpireAll(l, quorums, migrating, src, dst, now).value;
            && (q in AsMap(r.quorums) <==> q in AsMap(quorums))
            && (q in AsMap(quorums) ==>
                  AsMap(r.quorums)[q] ==
                    if Over(l, q, now) then AsMap(quorums)[q].(hasPrimary := false, primaryID := 0) else AsMap(quorums)[q])
            && (r.migrating <==> migrating && !Over(l, dst, now) && (src.Some? ==> !Over(l, src.value, now)))
  {
    hide AsMap, IndexOf, ClearPrimary, Over;
    if l == [] || l[0].expireTime >= now {
      NoneOver(l, now);
    } else {
      var id := l[0].quorumID;
      var still := migrating && dst != id && src != Some(id);
      ClearedMap(quorums, id, q);
      FirstOver(l, q, now);
      FirstOver(l, dst, now);
      if src.Some? { FirstOver(l, src.value, now); }
      ExpiryEffect(l[1..], ClearPrimary(quorums, id), still, src, dst, now, q);
    }
  }

  // ---- servers and heartbeats

  // A report is noted of its server alone; a node that is lost loses its mark; and a server whose activation
  // is over or was given up may be tried again at once.
  lemma ServerEffects(servers: seq<Keyed<ShardServer>>, n: nat, infos: seq<QuorumInfo>, httpPort: nat, sdbpPort: nat)
    requires Has(servers, n)
    ensures Replaced(servers, Reported(servers, n, infos, httpPort, sdbpPort), n,
                     Get(servers, n).(quorumInfos := infos, httpPort := httpPort, sdbpPort := sdbpPort, hasHeartbeat := true))
    ensures Replaced(servers, SetFlag(servers, n, false), n, Get(servers, n).(hasHeartbeat := false))
    ensures Replaced(servers, ResetOne(servers, n), n, Get(servers, n).(activationPhase := 0, nextActivationTime := 0))
  {
    hide AsMap, IndexOf;
    var v := Get(servers, n);
    PutReplaces(servers, n, v.(quorumInfos := infos, httpPort := httpPort, sdbpPort := sdbpPort, hasHeartbeat := true));
    PutReplaces(servers, n, v.(hasHeartbeat := false));
    PutReplaces(servers, n, v.(activationPhase := 0, nextActivationTime := 0));
  }

  // A heartbeat puts the node's one entry in order of expiry and keeps all others.
  lemma {:induction false} BeatEffect(l: seq<Heartbeat>, x: Heartbeat)
    requires OneEach(l)
    ensures forall y :: y in AddBeat(WithoutNode(l, x.nodeID), x) <==> y == x || (y in l && y.nodeID != x.nodeID)
  {}

  // ---- extensions and activations

  // Main result: what an extension means for the quorum.  Coming from the primary and in its configuration,
  // it begins the watch of an activation that is not watched yet, and ends the watch if it reports progress;
  // exactly then the activation of that node is sent to the log.
  lemma ExtensionEffect(w: World, e: Extend)
    requires Has(w.s.quorums, e.quorumID) && Phased(Get(w.s.quorums, e.quorumID)) && Extends(w, e).Some?
    ensures var q, w' := Get(w.s.quorums, e.quorumID), Extends(w, e).value;
            var heard := q.hasPrimary && q.primaryID == e.nodeID && q.configID == e.configID && q.isActivatingNode && !q.isReplicatingActivation;
            && Has(w'.s.quorums, e.quorumID)
            && Replaced(w.s.quorums, w'.s.quorums, e.quorumID,
                 if heard && !q.isWatchingPaxosID then q.(isWatchingPaxosID := true, activationPaxosID := e.paxosID)
                 else if heard && e.duration % 1000 == 999 then
                   q.(isWatchingPaxosID := false, isReplicatingActivation := true, activationExpireTime := 0)
                 else q)
            && w'.queued == w.queued + (if heard && q.isWatchingPaxosID && e.duration % 1000 == 999
                                        then [Queued(true, e.quorumID, q.activatingNodeID, false, q.configID)] else [])
            && w'.happened == w.happened + [Extending(e)]
            && w' == w.(s := w.s.(quorums := w'.s.quorums, shardServers := w'.s.shardServers), queued := w'.queued, happened := w'.happened)
  {
    hide AsMap, IndexOf, ResetOne;
    var q := Get(w.s.quorums, e.quorumID);
    PutReplaces(w.s.quorums, e.quorumID, AfterExtension(q, e));
  }
  // Main result: in a run, whenever the lease of a quorum is extended by its primary in the configuration in
  // which a node is watched, with a duration that reports progress, the activation of that node is queued.
  lemma ProgressIsQueued(
      c: Settings, log: seq<Message>, states: seq<State>, histories: seq<Runs.History>, worlds: seq<World>, events: seq<Event>, i: nat,
      isMaster: bool, e: Extend, alive: set<nat>)
    requires Runs.Run(log, states, histories) && ControllerRun(c, log, states, worlds, events) && i < |events| < |worlds|
    requires var w := worlds[i];
             events[i] == Ask(isMaster, e, alive) && Granted(isMaster, w.s, w.leases, e.quorumID, e.nodeID, alive) == Some(Extension)
    requires var s := worlds[i].s;
             Has(s.quorums, e.quorumID) && Get(s.quorums, e.quorumID).isWatchingPaxosID && Get(s.quorums, e.quorumID).configID == e.configID
    requires e.duration % 1000 == 999
    ensures var q := Get(worlds[i].s.quorums, e.quorumID);
            worlds[i + 1].queued == worlds[i].queued + [Queued(true, e.quorumID, q.activatingNodeID, false, q.configID)]
            && Has(worlds[i + 1].s.quorums, e.quorumID) && Replicating(Get(worlds[i + 1].s.quorums, e.quorumID))
  {
    hide Runs.Run, Granted, Asked, Extends, AsMap, IndexOf, LeasesSafe, InStep, AllAccounted, AllJustified, AllBackedOff;
    AlwaysSafe(c, log, states, histories, worlds, events, i);
    var w := worlds[i];
    var w1 := Asked(w, e.quorumID, e.nodeID, w.now + Length(e.duration), Extension);
    PhaseOf(w.s.quorums, e.quorumID);
    GrantedFor(isMaster, w, e.quorumID, e.nodeID, alive);
    ExtensionKeepsState(w, e.quorumID, e.nodeID, w.now + Length(e.duration));
    AskedKeepsQueue(w, e.quorumID, e.nodeID, w.now + Length(e.duration));
    assert ControllerRuns.Step(c, log, states, w, events[i]) == Some(worlds[i + 1]);
    ExtensionEffect(w1.value, e);
  }

  lemma AskedKeepsQueue(w: World, quorumID: nat, nodeID: nat, end: nat)
    ensures Asked(w, quorumID, nodeID, end, Extension).Some? ==> Asked(w, quorumID, nodeID, end, Extension).value.queued == w.queued
  {}

  // ---- attempts to activate a node

  predicate FirstFor(infos: seq<QuorumInfo>, id: nat, i: nat) {
    i < |infos| && infos[i].quorumID == id && forall j :: 0 <= j < i ==> infos[j].quorumID != id
  }

  // The node is inactive in the quorum, which has a primary and no activation under way, and the node's log
  // is close enough to the primary's.
  predicate CanStart(q: Keyed<Quorum>, n: nat, infos: seq<QuorumInfo>, rounds: nat) {
    && !q.obj.isActivatingNode && n in q.obj.inactiveNodes && q.obj.hasPrimary
    && exists i :: 0 <= i < |infos| && FirstFor(infos, q.id, i) && q.obj.paxosID <= infos[i].paxosID + rounds
  }

  lemma {:induction false} FirstIsFound(infos: seq<QuorumInfo>, id: nat, i: nat)
    requires FirstFor(infos, id, i)
    ensures InfoFor(infos, id) == Some(infos[i])
  {
    if i > 0 {
      assert forall j :: 0 <= j < i - 1 ==> infos[1..][j] == infos[j + 1];
      FirstIsFound(infos[1..], id, i - 1);
    }
  }

  lemma {:induction false} FoundIsFirst(infos: seq<QuorumInfo>, id: nat) returns (i: nat)
    requires InfoFor(infos, id).Some?
    ensures FirstFor(infos, id, i) && InfoFor(infos, id) == Some(infos[i])
  {
    if infos[0].quorumID == id {
      i := 0;
    } else {
      i := FoundIsFirst(infos[1..], id);
      assert forall j :: 0 < j <= i ==> infos[j] == infos[1..][j - 1];
      i := i + 1;
    }
  }

  lemma FirstInfo(infos: seq<QuorumInfo>, id: nat, position: nat, rounds: nat)
    ensures (InfoFor(infos, id).Some? && position <= InfoFor(infos, id).value.paxosID + rounds) <==>
              exists i :: 0 <= i < |infos| && FirstFor(infos, id, i) && position <= infos[i].paxosID + rounds
  {
    if InfoFor(infos, id).Some? { var i := FoundIsFirst(infos, id); }
    forall i: nat | i < |infos| && FirstFor(infos, id, i) ensures InfoFor(infos, id) == Some(infos[i]) { FirstIsFound(infos, id, i); }
  }

  // The server is not barred and does not wait after an earlier attempt.
  predicate MayTry(v: ShardServer, now: nat) { v.activationPhase != -1 && (v.activationPhase > 0 ==> now >= v.nextActivationTime) }

  lemma StartsMeans(q: Keyed<Quorum>, n: nat, v: ShardServer, disregardPrevious: bool, now: nat, rounds: nat)
    ensures Concerned(q.obj, n) && Starts(q.obj, q.id, v, disregardPrevious, now, rounds) <==>
              CanStart(q, n, v.quorumInfos, rounds) && (disregardPrevious || MayTry(v, now))
  {
    FirstInfo(v.quorumInfos, q.id, q.obj.paxosID, rounds);
  }

  // How a quorum starts an activation.
  predicate Started(q: Quorum, q': Quorum, n: nat, now: nat, interval: nat) {
    q' == q.(isActivatingNode := true, activatingNodeID := n, isWatchingPaxosID := false, isReplicatingActivation := false,
             configID := q.configID + 1, activationExpireTime := now + interval)
  }

  lemma OneStarts(q: Keyed<Quorum>, n: nat, v: ShardServer, disregardPrevious: bool, now: nat, interval: nat, rounds: nat)
    ensures var a := FirstAttempt(q, n, v, disregardPrevious, false, now, interval, rounds);
            |a.quorums| == 1 && a.quorums[0].id == q.id && a.server.quorumInfos == v.quorumInfos &&
            if CanStart(q, n, v.quorumInfos, rounds) && (disregardPrevious || MayTry(v, now)) then
              Started(q.obj, a.quorums[0].obj, n, now, interval)
              && (!disregardPrevious && interval > 0 && v.activationPhase >= -1 ==>
                    a.server.activationPhase == v.activationPhase + 1
                    && a.server.nextActivationTime == now + interval * Power(v.activationPhase + 1) && !MayTry(a.server, now))
            else a.quorums[0] == q && (!disregardPrevious ==> a.server == v)
  {
    hide Starts, CanStart;
    StartsMeans(q, n, v, disregardPrevious, now, rounds);
    if !disregardPrevious && v.activationPhase >= 0 && interval > 0 { WaitPositive(interval, Power(v.activationPhase + 1)); }
  }

  // Main result: an attempt that is not forced starts an activation in the first quorum in which it can, if
  // the server may be tried at all, and in all of them where earlier attempts are disregarded.
  lemma {:induction false} AttemptsStart(
      l: seq<Keyed<Quorum>>, n: nat, v: ShardServer, disregardPrevious: bool, now: nat, interval: nat, rounds: nat, i: nat)
    requires i < |l| && interval > 0 && v.activationPhase >= -1
    ensures var a := AttemptAll(l, n, v, disregardPrevious, false, now, interval, rounds);
            if CanStart(l[i], n, v.quorumInfos, rounds)
               && (disregardPrevious
                   || (MayTry(v, now) && forall j :: 0 <= j < i ==> !CanStart(l[j], n, v.quorumInfos, rounds)))
            then a.quorums[i].id == l[i].id && Started(l[i].obj, a.quorums[i].obj, n, now, interval)
            else a.quorums[i] == l[i]
  {
    hide AttemptAll, FirstAttempt, CanStart, MayTry, Started;
    var one := FirstAttempt(l[0], n, v, disregardPrevious, false, now, interval, rounds);
    AttemptUnfolds(l, n, v, disregardPrevious, false, now, interval, rounds);
    OneStarts(l[0], n, v, disregardPrevious, now, interval, rounds);
    if i > 0 {
      PhaseStays(l[0], n, v, disregardPrevious, now, interval, rounds);
      AttemptsStart(l[1..], n, one.server, disregardPrevious, now, interval, rounds, i - 1);
      assert forall j :: 0 < j <= i ==> l[j] == l[1..][j - 1];
      assert (forall j :: 0 <= j < i ==> !CanStart(l[j], n, v.quorumInfos, rounds)) <==>
             !CanStart(l[0], n, v.quorumInfos, rounds)
             && forall j :: 0 <= j < i - 1 ==> !CanStart(l[1..][j], n, v.quorumInfos, rounds);
    }
  }

  lemma PhaseStays(q: Keyed<Quorum>, n: nat, v: ShardServer, disregardPrevious: bool, now: nat, interval: nat, rounds: nat)
    requires v.activationPhase >= -1
    ensures FirstAttempt(q, n, v, disregardPrevious, false, now, interval, rounds).server.activationPhase >= -1
  {
    hide Starts;
  }

  // The wait after an attempt doubles with each one.
  lemma {:induction false} WaitDoubles(k: nat)
    ensures Power(k + 1) == 2 * Power(k) && Power(0) == 1
  {}

  // ---- a node that is gone, and activations that are late

  // Main result: after the loss of a node no quorum activates it, and none of which it is an active member
  // activates any; all other activations go on.
  lemma LossEffect(w: World, n: nat, force: bool, i: nat)
    requires Deactivated(w, n, force).Some? && i < |w.s.quorums|
    ensures var w' := Deactivated(w, n, force).value;
            |w'.s.quorums| == |w.s.quorums| && w'.s.quorums[i].id == w.s.quorums[i].id &&
            var q, q' := w.s.quorums[i].obj, w'.s.quorums[i].obj;
            if q.isActivatingNode && (q.activatingNodeID == n || n in q.activeNodes) then
              q' == q.(isActivatingNode := false, isWatchingPaxosID := false, isReplicatingActivation := false,
                       activatingNodeID := 0, activationPaxosID := 0, activationExpireTime := 0)
            else q' == q
  {
    hide CanGiveUp, Deactivations, ResetOne;
  }

  // It is deactivated exactly in the quorums of which it is an active member, once in each.
  lemma {:induction false} LossQueues(l: seq<Keyed<Quorum>>, n: nat, force: bool, x: Queued)
    ensures x in Deactivations(l, n, force) <==>
              exists i :: 0 <= i < |l| && n in l[i].obj.activeNodes && x == Queued(false, l[i].id, n, force, l[i].obj.configID)
    ensures |Deactivations(l, n, force)| <= |l|
  {
    if l != [] {
      LossQueues(l[1..], n, force, x);
      if i :| 0 <= i < |l| && n in l[i].obj.activeNodes && x == Queued(false, l[i].id, n, force, l[i].obj.configID) && i > 0 {
        assert l[1..][i - 1] == l[i];
      }
      if i :| 0 <= i < |l[1..]| && n in l[1..][i].obj.activeNodes && x == Queued(false, l[1..][i].id, n, force, l[1..][i].obj.configID) {
        assert l[i + 1] == l[1..][i];
      }
    }
  }

  // Main result: after the timer of activations none is late, and exactly those that were are given up.
  lemma LateEffect(w: World, i: nat)
    requires i < |w.s.quorums|
    ensures var l := LateAll(w.s.quorums, w.now);
            |l| == |w.s.quorums| && l[i].id == w.s.quorums[i].id && !(l[i].obj.isActivatingNode && l[i].obj.activationExpireTime < w.now) &&
            var q := w.s.quorums[i].obj;
            if q.isActivatingNode && q.activationExpireTime < w.now then
              l[i].obj == q.(isActivatingNode := false, isWatchingPaxosID := false, isReplicatingActivation := false,
                             activatingNodeID := 0, activationPaxosID := 0, activationExpireTime := 0)
            else l[i].obj == q
  {}
}
