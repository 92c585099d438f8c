// Whole runs of one controller: proposals, log entries, requests for leases and their reports on activations,
// leases and activations running out, servers reporting, falling silent and being tried again,
// mastership coming and going, and catching up, in any order.

module ControllerRuns {
  import opened KeyedLists
  import opened ConfigMessages
  import opened Schema
  import opened SchemaInvariant
  import opened SchemaSteps
  import opened Replication
  import opened Controllers
  import opened Runs
  import opened Membership
  import opened StateCodec
  import opened Catchup
  import opened PrimaryLeases
  import opened LeasesAndLog
  import opened Heartbeats
  import opened Activation
  import opened ActivationAndLog

  // How long an activation may take, and how far behind a node may be that is activated.
  datatype Settings = Settings(interval: nat, rounds: nat)

  // A controller with its leases, the activations it asked for, the number of entries it has applied,
  // and the time.  periods and happened record the past.
  datatype World = World(
    s: State,
    leases: seq<PrimaryLease>,
    periods: seq<Period>,
    queued: seq<Queued>,
    happened: seq<Happening>,
    applied: nat,
    now: nat)

  const NewWorld: World := World(EmptyState, [], [], [], [], 0, 0)

  datatype Event =
    | Wait(until: nat)
    | Ask(isMaster: bool, request: Extend, alive: set<nat>)
    | LeaseTimeout
    | NodeLost(nodeID: nat)
    | Report(nodeID: nat, infos: seq<QuorumInfo>, httpPort: nat, sdbpPort: nat)
    | TryActivate(nodeID: nat, disregardPrevious: bool, force: bool)
    | TryDeactivate(nodeID: nat, force: bool)
    | ActivationTimeout
    | Propose(message: Message)
    | Entry(isLeader: bool)
    | Mastership(hasMaster: bool, masterID: nat, paxosID: nat)
    | CatchUp(sender: State, count: nat)

  // ---- what may happen

  function Asked(w: World, quorumID: nat, nodeID: nat, end: nat, grant: Grant): Option<World>
    requires grant == Assignment ==> Has(w.s.quorums, quorumID)
  {
    match grant
    case Ignored => Some(w)
    case Assignment =>
      Some(w.(s := w.s.(quorums := SetPrimary(w.s.quorums, quorumID, nodeID)),
              leases := Assigned(w.leases, w.periods, quorumID, nodeID, end),
              periods := w.periods + [Period(quorumID, nodeID, w.now, end)]))
    case Extension =>
      var x := FirstOf(w.leases, quorumID);
      if x.None? || x.value.serial >= |w.periods| then None
      else Some(w.(leases := Extended(w.leases, quorumID, end), periods := ExtendedPeriods(w.periods, x.value, end)))
  }

  // The part of an extension that concerns an activation; the activated node is looked up.
  function Extends(w: World, e: Extend): Option<World> {
    if !Has(w.s.quorums, e.quorumID) then None
    else
      var q := Get(w.s.quorums, e.quorumID);
      if Completes(q, e) && !Has(w.s.shardServers, q.activatingNodeID) then None
      else
        Some(w.(s := w.s.(quorums := Put(w.s.quorums, e.quorumID, AfterExtension(q, e)),
                          shardServers := if Completes(q, e) then ResetOne(w.s.shardServers, q.activatingNodeID) else w.s.shardServers),
                queued := w.queued + ActivationOf(q, e), happened := w.happened + [Extending(e)]))
  }

  function TimedOut(w: World): Option<World> {
    var r := ExpireAll(w.leases, w.s.quorums, w.s.isMigrating, SourceOf(w.s), w.s.migrateQuorumID, w.now);
    if r.Stopped? then None
    else
      var s1 := w.s.(quorums := r.value.quorums);
      Some(w.(leases := r.value.leases, s := if w.s.isMigrating && !r.value.migrating then AbortShardMigration(s1) else s1))
  }

  function TriedAll(c: Settings, w: World, nodeID: nat, disregardPrevious: bool, force: bool): Option<World> {
    if !Has(w.s.shardServers, nodeID) then
      if forall q :: q in w.s.quorums ==> !Concerned(q.obj, nodeID) then Some(w) else None
    else
      var a := AttemptAll(w.s.quorums, nodeID, Get(w.s.shardServers, nodeID), disregardPrevious, force, w.now, c.interval, c.rounds);
      Some(w.(s := w.s.(quorums := a.quorums, shardServers := Put(w.s.shardServers, nodeID, a.server)),
              queued := w.queued + a.queued, happened := w.happened + a.started))
  }

  function GivenUpAll(l: seq<Keyed<Quorum>>, nodeID: nat): (r: seq<Keyed<Quorum>>)
    ensures |r| == |l| && forall i :: 0 <= i < |l| ==> r[i] == GivenUp(l[i], nodeID)
  {
    seq(|l|, i requires 0 <= i < |l| => GivenUp(l[i], nodeID))
  }

  function LateAll(l: seq<Keyed<Quorum>>, now: nat): (r: seq<Keyed<Quorum>>)
    ensures |r| == |l| && forall i :: 0 <= i < |l| ==> r[i] == Late(l[i], now)
  {
    seq(|l|, i requires 0 <= i < |l| => Late(l[i], now))
  }

  function Deactivated(w: World, nodeID: nat, force: bool): Option<World> {
    if exists q :: q in w.s.quorums && !CanGiveUp(w.s.shardServers, q.obj, nodeID) then None
    else
      var x := Deactivations(w.s.quorums, nodeID, force);
      Some(w.(s := w.s.(quorums := GivenUpAll(w.s.quorums, nodeID), shardServers := ResetOne(w.s.shardServers, nodeID)),
              queued := w.queued + x))
  }

  function ReportedBy(w: World, nodeID: nat, infos: seq<QuorumInfo>, httpPort: nat, sdbpPort: nat): World {
    if !Has(w.s.shardServers, nodeID) then w
    else w.(s := w.s.(quorums := RaiseAll(w.s.quorums, infos),
                      shardServers := Reported(w.s.shardServers, nodeID, infos, httpPort, sdbpPort)))
  }

  // The sender has applied count entries of the same log.
  function CaughtUp(states: seq<State>, w: World, sender: State, count: nat): Option<World> {
    if count >= |states| || Shared(sender) != states[count] || !Numbered(sender) || !StateFits(sender) then None
    else
      var r := Restored(w.s, StateText(sender, false));
      if !r.Got? then None else Some(w.(s := r.value, applied := count))
  }

  // The step that an event causes; None where the controller stops or the event cannot happen.
  function Step(c: Settings, log: seq<Message>, states: seq<State>, w: World, e: Event): Option<World> {
    match e
    case Wait(t) => Some(w.(now := if t > w.now then t else w.now))
    case Ask(isMaster, x, alive) =>
      var g := Granted(isMaster, w.s, w.leases, x.quorumID, x.nodeID, alive);
      if g.None? then None
      else
        var w1 := Asked(w, x.quorumID, x.nodeID, w.now + Length(x.duration), g.value);
        if w1.Some? && g.value == Extension then Extends(w1.value, x) else w1
    case LeaseTimeout => TimedOut(w)
    case NodeLost(n) => Some(w.(s := w.s.(quorums := WithoutPrimary(w.s.quorums, n), shardServers := SetFlag(w.s.shardServers, n, false))))
    case Report(n, infos, httpPort, sdbpPort) => Some(ReportedBy(w, n, infos, httpPort, sdbpPort))
    case TryActivate(n, disregardPrevious, force) => TriedAll(c, w, n, disregardPrevious, force)
    case TryDeactivate(n, force) => Deactivated(w, n, force)
    case ActivationTimeout =>
      if w.now == 0 || exists q :: q in w.s.quorums && Replicating(q.obj) then None
      else Some(w.(s := w.s.(quorums := LateAll(w.s.quorums, w.now))))
    case Propose(m) =>
      match CompleteMessage(w.s, m) {
        case Accepted(s) => Some(w.(s := s))
        case Rejected => Some(w)
        case Aborted => None
      }
    case Entry(isLeader) =>
      if w.applied >= |log| then None
      else
        var r := OnAppend(w.s, w.applied + 1, log[w.applied], isLeader);
        if r.Stopped? then None else Some(w.(s := r.value, applied := w.applied + 1))
    case Mastership(has, master, paxosID) => Some(w.(s := w.s.(hasMaster := has, masterID := master, paxosID := paxosID)))
    case CatchUp(sender, count) => CaughtUp(states, w, sender, count)
  }

  // ---- what always holds

  // The controller is in step with the log.
  ghost predicate InStep(states: seq<State>, w: World) { w.applied < |states| && Shared(w.s) == states[w.applied] }

  // The leases are in order, no two periods of different nodes for one quorum overlap, and every
  // primary shown has a lease.
  ghost predicate LeasesSafe(w: World) {
    PrimaryLeases.Sound(w.leases, w.periods, w.now) && PrimariesListed(w.s.quorums, w.leases)
  }

  // Every quorum is in one of the four phases, activates and watches only what happened, and every
  // activation asked for without force has its causes; servers that were tried know when they may be again.
  ghost predicate ActivationsSafe(w: World) {
    && AllPhased(w.s.quorums) && AllAccounted(w.s.quorums, w.happened)
    && AllJustified(w.queued, w.happened) && AllBackedOff(w.s.shardServers)
  }

  ghost predicate Safe(states: seq<State>, w: World) { InStep(states, w) && LeasesSafe(w) && ActivationsSafe(w) }

  // ---- steps that touch the quorums one by one

  // Nothing replicated changes, and a primary can only be lost.
  predicate Internal(q: Keyed<Quorum>, q': Keyed<Quorum>) {
    q'.id == q.id && SharedQuorum(q'.obj) == SharedQuorum(q.obj)
    && (q'.obj.hasPrimary ==> q.obj.hasPrimary && q'.obj.primaryID == q.obj.primaryID)
  }

  predicate AllInternal(l: seq<Keyed<Quorum>>, l': seq<Keyed<Quorum>>) {
    |l'| == |l| && forall i :: 0 <= i < |l| ==> Internal(l[i], l'[i])
  }

  lemma InternalKept(l: seq<Keyed<Quorum>>, l': seq<Keyed<Quorum>>)
    requires AllInternal(l, l')
    ensures PrimariesKept(l, l') && MapObj(l', SharedQuorum) == MapObj(l, SharedQuorum)
  {
    forall id | id in AsMap(l') && AsMap(l')[id].hasPrimary
      ensures id in AsMap(l) && AsMap(l)[id].hasPrimary && AsMap(l)[id].primaryID == AsMap(l')[id].primaryID
    {
      SamePlace(l, l', id);
      assert Internal(l[IndexOf(l, id)], l'[IndexOf(l, id)]);
    }
    assert forall i :: 0 <= i < |l| ==> Internal(l[i], l'[i]);
  }

  lemma PutInternal(l: seq<Keyed<Quorum>>, id: nat, q: Quorum)
    requires Has(l, id) && Internal(Keyed(id, Get(l, id)), Keyed(id, q))
    ensures AllInternal(l, Put(l, id, q))
  {
    hide AsMap, SharedQuorum;
  }

  predicate ServersInternal(l: seq<Keyed<ShardServer>>, l': seq<Keyed<ShardServer>>) {
    |l'| == |l| && forall i :: 0 <= i < |l| ==> l'[i].id == l[i].id && SharedServer(l'[i].obj) == SharedServer(l[i].obj)
  }

  lemma PutServerInternal(l: seq<Keyed<ShardServer>>, id: nat, v: ShardServer)
    requires Has(l, id) && SharedServer(v) == SharedServer(Get(l, id))
    ensures ServersInternal(l, Put(l, id, v))
  {
    hide AsMap, SharedServer;
  }

  // Such steps keep the log and the leases.
  lemma InternalStep(states: seq<State>, w: World, w': World)
    requires InStep(states, w) && LeasesSafe(w) && w'.applied == w.applied
    requires AllInternal(w.s.quorums, w'.s.quorums) && ServersInternal(w.s.shardServers, w'.s.shardServers)
    requires w'.s.databases == w.s.databases && w'.s.tables == w.s.tables && w'.s.shards == w.s.shards && SameCounters(w.s, w'.s)
    requires w'.leases == w.leases && w'.periods == w.periods && w'.now == w.now
    ensures InStep(states, w') && LeasesSafe(w')
  {
    InternalKept(w.s.quorums, w'.s.quorums);
    assert MapObj(w'.s.shardServers, SharedServer) == MapObj(w.s.shardServers, SharedServer);
    hide PrimaryLeases.Sound, PrimariesListed, PrimariesKept, AllInternal, ServersInternal;
    KeptAreListed(w.s.quorums, w'.s.quorums, w.leases);
  }

  // ---- activations

  // What an activation step may do to a quorum.
  predicate Moved(q: Quorum, q': Quorum) {
    q'.configID >= q.configID && (Phased(q) ==> Phased(q')) && NoNewActivation(q, q')
  }

  predicate AllMoved(l: seq<Keyed<Quorum>>, l': seq<Keyed<Quorum>>) {
    |l'| == |l| && forall i :: 0 <= i < |l| ==> l'[i].id == l[i].id && Moved(l[i].obj, l'[i].obj)
  }

  // No quorum that stays falls back to an earlier configuration.
  predicate NoEarlier(l: seq<Keyed<Quorum>>, l': seq<Keyed<Quorum>>) {
    forall id :: id in AsMap(l) && id in AsMap(l') ==> AsMap(l')[id].configID >= AsMap(l)[id].configID
  }

  lemma MovedAt(l: seq<Keyed<Quorum>>, l': seq<Keyed<Quorum>>, id: nat)
    requires AllMoved(l, l')
    ensures id in AsMap(l') <==> id in AsMap(l)
    ensures id in AsMap(l) ==> Moved(AsMap(l)[id], AsMap(l')[id])
  {
    hide Moved;
    SamePlace(l, l', id);
  }

  lemma MovedSound(l: seq<Keyed<Quorum>>, l': seq<Keyed<Quorum>>, happened: seq<Happening>)
    requires AllMoved(l, l')
    ensures AllPhased(l) ==> AllPhased(l')
    ensures AllAccounted(l, happened) ==> AllAccounted(l', happened)
    ensures NoEarlier(l, l')
  {
    hide AllMoved, Phased, AsMap, Accounted, NoNewActivation;
    forall id ensures id in AsMap(l') <==> id in AsMap(l)
              ensures id in AsMap(l) ==> Moved(AsMap(l)[id], AsMap(l')[id])
              ensures id in AsMap(l) && Accounted(id, AsMap(l)[id], happened) ==> Accounted(id, AsMap(l')[id], happened)
    {
      MovedAt(l, l', id);
      if id in AsMap(l) && Accounted(id, AsMap(l)[id], happened) { NothingNew(id, AsMap(l)[id], AsMap(l')[id], happened); }
    }
  }

  lemma MoreRequests(w: World, x: seq<Queued>)
    requires AllJustified(w.queued, w.happened) && forall y :: y in x ==> !y.activate || y.force
    ensures AllJustified(w.queued + x, w.happened)
  {
    hide Causes;
    var queued := w.queued + x;
    forall i | 0 <= i < |queued| ensures Justified(queued[i], w.happened) {
      if i < |w.queued| {
        assert Justified(w.queued[i], w.happened);
      } else {
        assert queued[i] in x;
      }
    }
  }

  // ---- requests for leases

  lemma PutMoved(l: seq<Keyed<Quorum>>, id: nat, q: Quorum)
    requires Has(l, id) && Moved(Get(l, id), q)
    ensures AllMoved(l, Put(l, id, q))
  {
    hide AsMap, Phased;
  }

  lemma SetPrimaryShared(s: State, quorumID: nat, nodeID: nat)
    requires Has(s.quorums, quorumID)
    ensures var quorums' := SetPrimary(s.quorums, quorumID, nodeID);
            Shared(s.(quorums := quorums')) == Shared(s) && AllMoved(s.quorums, quorums')
  {
    var q := Get(s.quorums, quorumID).(hasPrimary := true, primaryID := nodeID);
    PutSharedQuorum(s, quorumID, q);
    PutMoved(s.quorums, quorumID, q);
    hide AsMap, AllMoved;
    SharedLookups(s, quorumID);
    assert PutQuorum(Shared(s), quorumID, SharedQuorum(q)).quorums == Shared(s).quorums;
  }

  lemma GrantedFor(isMaster: bool, w: World, q: nat, n: nat, alive: set<nat>)
    ensures var g := Granted(isMaster, w.s, w.leases, q, n, alive);
            && (g == Some(Assignment) ==> Has(w.s.quorums, q) && NoOther(w.leases, q, n))
            && (g == Some(Extension) ==>
                  Has(w.s.quorums, q) && NoOther(w.leases, q, n) && Get(w.s.quorums, q).hasPrimary && Get(w.s.quorums, q).primaryID == n)
  {
    hide MeetsUnknown, Yields, PriorityOf, NoOther;
  }

  lemma AskedIsSafe(states: seq<State>, w: World, isMaster: bool, q: nat, n: nat, duration: nat, alive: set<nat>)
    requires Safe(states, w) && Granted(isMaster, w.s, w.leases, q, n, alive).Some?
    ensures var grant := Granted(isMaster, w.s, w.leases, q, n, alive).value;
            (grant == Assignment ==> Has(w.s.quorums, q)) &&
            var r := Asked(w, q, n, w.now + Length(duration), grant);
            r.Some? && Safe(states, r.value) && NoEarlier(w.s.quorums, r.value.s.quorums)
  {
    hide PrimaryLeases.Sound, PrimariesListed, Shared, Granted, NoOther, AllPhased, AllAccounted, AllMoved;
    GrantedFor(isMaster, w, q, n, alive);
    var end, grant := w.now + Length(duration), Granted(isMaster, w.s, w.leases, q, n, alive).value;
    if grant == Assignment {
      AssignSound(w.leases, w.periods, w.now, q, n, end);
      AssignPrimaries(w.s.quorums, w.leases, PrimaryLease(q, n, end, |w.periods|));
      SetPrimaryShared(w.s, q, n);
      MovedSound(w.s.quorums, SetPrimary(w.s.quorums, q, n), w.happened);
    } else if grant == Extension {
      ShownIsListed(w.s.quorums, w.leases, q);
      ExtendStep(w.leases, w.periods, w.s.quorums, w.now, q, n, end);
    }
  }

  lemma ExtensionInternal(q: Quorum, e: Extend)
    ensures Internal(Keyed(e.quorumID, q), Keyed(e.quorumID, AfterExtension(q, e)))
    ensures Phased(q) ==> Phased(AfterExtension(q, e))
    ensures AfterExtension(q, e).configID == q.configID
  {}

  lemma PutNoEarlier(l: seq<Keyed<Quorum>>, id: nat, q: Quorum)
    requires Has(l, id) && q.configID >= Get(l, id).configID
    ensures NoEarlier(l, Put(l, id, q))
  {}

  lemma ResetInternal(servers: seq<Keyed<ShardServer>>, nodeID: nat)
    ensures ServersInternal(servers, ResetOne(servers, nodeID)) && (AllBackedOff(servers) ==> AllBackedOff(ResetOne(servers, nodeID)))
  {
    if Has(servers, nodeID) {
      PutServerInternal(servers, nodeID, Get(servers, nodeID).(activationPhase := 0, nextActivationTime := 0));
    }
  }

  lemma SameInternal(l: seq<Keyed<ShardServer>>)
    ensures ServersInternal(l, l)
  {}

  // An extension happens; then one quorum may move on.
  lemma ExtensionAccounts(quorums: seq<Keyed<Quorum>>, queued: seq<Queued>, happened: seq<Happening>, e: Extend)
    requires AllAccounted(quorums, happened) && AllJustified(queued, happened)
    ensures AllAccounted(quorums, happened + [Extending(e)]) && AllJustified(queued, happened + [Extending(e)])
  {
    hide Accounted;
    AllJustifiedStays(queued, happened, [Extending(e)]);
    forall id | id in AsMap(quorums) ensures Accounted(id, AsMap(quorums)[id], happened + [Extending(e)]) {
      AccountStays(id, AsMap(quorums)[id], happened, [Extending(e)]);
    }
  }

  lemma PutAccounted(quorums: seq<Keyed<Quorum>>, id: nat, q: Quorum, happened: seq<Happening>)
    requires Has(quorums, id) && AllAccounted(quorums, happened) && Accounted(id, q, happened)
    ensures AllAccounted(Put(quorums, id, q), happened)
  {
    hide Accounted;
  }

  lemma PutPhased(quorums: seq<Keyed<Quorum>>, id: nat, q: Quorum)
    requires Has(quorums, id) && AllPhased(quorums) && Phased(q)
    ensures AllPhased(Put(quorums, id, q))
  {
    hide Phased;
  }

  // An extension begins a watch, completes an activation or does neither.
  lemma ExtensionIsAccounted(w: World, e: Extend)
    requires ActivationsSafe(w) && Has(w.s.quorums, e.quorumID)
    ensures var q' := AfterExtension(Get(w.s.quorums, e.quorumID), e);
            Accounted(e.quorumID, q', w.happened + [Extending(e)]) && Phased(q')
    ensures var q := Get(w.s.quorums, e.quorumID); AllJustified(w.queued + ActivationOf(q, e), w.happened + [Extending(e)])
  {
    hide AllAccounted, AllJustified, AllPhased, AllBackedOff, Accounted, Justified;
    var q, happened' := Get(w.s.quorums, e.quorumID), w.happened + [Extending(e)];
    AccountOf(w.s.quorums, e.quorumID, w.happened);
    ExtensionAccounts(w.s.quorums, w.queued, w.happened, e);
    AccountOf(w.s.quorums, e.quorumID, happened');
    PhaseOf(w.s.quorums, e.quorumID);
    assert w.queued + [] == w.queued;
    if Reports(q, e) && Activating(q) {
      WatchAccounts(e.quorumID, q, OnActivationMonitoring(q, e.paxosID), w.happened, e);
    } else if Completes(q, e) {
      ReportJustifies(e.quorumID, q, w.happened, e);
      OneMoreJustified(w.queued, Queued(true, e.quorumID, q.activatingNodeID, false, q.configID), happened');
      NothingNew(e.quorumID, q, OnActivationReplication(q), happened');
    }
  }

  lemma AccountOf(quorums: seq<Keyed<Quorum>>, id: nat, happened: seq<Happening>)
    requires AllAccounted(quorums, happened) && Has(quorums, id)
    ensures Accounted(id, Get(quorums, id), happened)
  {
    hide Accounted;
  }

  lemma PhaseOf(quorums: seq<Keyed<Quorum>>, id: nat)
    requires AllPhased(quorums) && Has(quorums, id)
    ensures Phased(Get(quorums, id))
  {
    hide Phased;
  }

  lemma ExtensionActivations(w: World, e: Extend)
    requires ActivationsSafe(w) && Extends(w, e).Some?
    ensures ActivationsSafe(Extends(w, e).value)
  {
    hide AllAccounted, AllJustified, AllPhased, AllBackedOff, Accounted, Phased, AfterExtension, ActivationOf, Completes, Reports, ResetOne,
      AsMap, IndexOf;
    var q := Get(w.s.quorums, e.quorumID);
    ExtensionIsAccounted(w, e);
    ExtensionAccounts(w.s.quorums, w.queued, w.happened, e);
    PutAccounted(w.s.quorums, e.quorumID, AfterExtension(q, e), w.happened + [Extending(e)]);
    PutPhased(w.s.quorums, e.quorumID, AfterExtension(q, e));
    ResetInternal(w.s.shardServers, q.activatingNodeID);
  }

  lemma ExtendsIsSafe(states: seq<State>, w: World, e: Extend)
    requires Safe(states, w) && Extends(w, e).Some?
    ensures Safe(states, Extends(w, e).value)
    ensures NoEarlier(w.s.quorums, Extends(w, e).value.s.quorums)
  {
    hide InStep, LeasesSafe, ActivationsSafe, AfterExtension, Completes, Reports, Activating, Internal, AllInternal, ServersInternal;
    var q := Get(w.s.quorums, e.quorumID);
    ExtensionInternal(q, e);
    PutInternal(w.s.quorums, e.quorumID, AfterExtension(q, e));
    PutNoEarlier(w.s.quorums, e.quorumID, AfterExtension(q, e));
    ResetInternal(w.s.shardServers, q.activatingNodeID);
    SameInternal(w.s.shardServers);
    InternalStep(states, w, Extends(w, e).value);
    ExtensionActivations(w, e);
  }

  // ---- steps inside the controller

  // A step that keeps the replicated part, loses primaries at most, and moves activations.
  lemma QuorumsStep(states: seq<State>, w: World, quorums: seq<Keyed<Quorum>>, servers: seq<Keyed<ShardServer>>, x: seq<Queued>)
    requires Safe(states, w) && AllInternal(w.s.quorums, quorums) && AllMoved(w.s.quorums, quorums)
    requires ServersInternal(w.s.shardServers, servers) && AllBackedOff(servers)
    requires forall y :: y in x ==> !y.activate || y.force
    ensures Safe(states, w.(s := w.s.(quorums := quorums, shardServers := servers), queued := w.queued + x))
    ensures NoEarlier(w.s.quorums, quorums)
  {
    hide AllInternal, AllMoved, ServersInternal, AllBackedOff, AllPhased, AllAccounted, AllJustified, InStep, LeasesSafe;
    var w' := w.(s := w.s.(quorums := quorums, shardServers := servers), queued := w.queued + x);
    InternalStep(states, w, w');
    MovedSound(w.s.quorums, quorums, w.happened);
    MoreRequests(w, x);
  }

  lemma QuietStep(states: seq<State>, w: World, quorums: seq<Keyed<Quorum>>, servers: seq<Keyed<ShardServer>>)
    requires Safe(states, w) && AllInternal(w.s.quorums, quorums) && AllMoved(w.s.quorums, quorums)
    requires ServersInternal(w.s.shardServers, servers) && AllBackedOff(servers)
    ensures Safe(states, w.(s := w.s.(quorums := quorums, shardServers := servers)))
    ensures NoEarlier(w.s.quorums, quorums)
  {
    assert w.queued + [] == w.queued;
    hide Safe, AllInternal, AllMoved, ServersInternal, AllBackedOff;
    QuorumsStep(states, w, quorums, servers, []);
  }

  // Only the primary goes, or only the position rises.
  predicate Slight(q: Keyed<Quorum>, q': Keyed<Quorum>) {
    q'.id == q.id && q'.obj == q.obj.(hasPrimary := q'.obj.hasPrimary, primaryID := q'.obj.primaryID, paxosID := q'.obj.paxosID)
    && (q'.obj.hasPrimary ==> q.obj.hasPrimary && q'.obj.primaryID == q.obj.primaryID)
  }

  predicate AllSlight(l: seq<Keyed<Quorum>>, l': seq<Keyed<Quorum>>) {
    |l'| == |l| && forall i :: 0 <= i < |l| ==> Slight(l[i], l'[i])
  }

  lemma SlightMeans(l: seq<Keyed<Quorum>>, l': seq<Keyed<Quorum>>)
    requires AllSlight(l, l')
    ensures AllInternal(l, l') && AllMoved(l, l')
  {}

  lemma SlightTwice(a: seq<Keyed<Quorum>>, b: seq<Keyed<Quorum>>, c: seq<Keyed<Quorum>>)
    requires AllSlight(a, b) && AllSlight(b, c)
    ensures AllSlight(a, c)
  {
    assert forall i :: 0 <= i < |a| ==> Slight(a[i], b[i]) && Slight(b[i], c[i]);
  }

  lemma PutSlight(l: seq<Keyed<Quorum>>, id: nat, q: Quorum)
    requires Has(l, id) && Slight(Keyed(id, Get(l, id)), Keyed(id, q))
    ensures AllSlight(l, Put(l, id, q))
  {
    hide AsMap;
  }

  lemma {:induction false} ExpirySlight(
      l: seq<PrimaryLease>, quorums: seq<Keyed<Quorum>>, migrating: bool, src: Option<nat>, dst: nat, now: nat)
    requires ExpireAll(l, quorums, migrating, src, dst, now).Ok?
    ensures AllSlight(quorums, ExpireAll(l, quorums, migrating, src, dst, now).value.quorums)
  {
    hide AsMap, IndexOf, Slight;
    if l == [] || l[0].expireTime >= now {
      SameSlight(quorums);
    } else {
      var still := migrating && dst != l[0].quorumID && src != Some(l[0].quorumID);
      var next := ClearPrimary(quorums, l[0].quorumID);
      ClearSlight(quorums, l[0].quorumID);
      hide AllSlight, ClearPrimary;
      ExpirySlight(l[1..], next, still, src, dst, now);
      SlightTwice(quorums, next, ExpireAll(l, quorums, migrating, src, dst, now).value.quorums);
    }
  }

  lemma SameSlight(l: seq<Keyed<Quorum>>)
    ensures AllSlight(l, l)
  {}

  lemma ClearSlight(quorums: seq<Keyed<Quorum>>, quorumID: nat)
    ensures AllSlight(quorums, ClearPrimary(quorums, quorumID))
  {
    if Has(quorums, quorumID) {
      PutSlight(quorums, quorumID, Get(quorums, quorumID).(hasPrimary := false, primaryID := 0));
    }
  }

  lemma {:induction false} RaiseSlight(quorums: seq<Keyed<Quorum>>, infos: seq<QuorumInfo>)
    ensures AllSlight(quorums, RaiseAll(quorums, infos))
    decreases |infos|
  {
    hide AsMap, IndexOf, Slight;
    if infos == [] {
      SameSlight(quorums);
    } else {
      var next := RaiseOne(quorums, infos[0]);
      RaiseOneSlight(quorums, infos[0]);
      hide AllSlight, RaiseOne;
      RaiseSlight(next, infos[1..]);
      SlightTwice(quorums, next, RaiseAll(quorums, infos));
    }
  }

  lemma RaiseOneSlight(quorums: seq<Keyed<Quorum>>, info: QuorumInfo)
    ensures AllSlight(quorums, RaiseOne(quorums, info))
  {
    if Has(quorums, info.quorumID) {
      PutSlight(quorums, info.quorumID, Get(quorums, info.quorumID).(paxosID := info.paxosID));
    }
  }

  lemma TimeoutIsSafe(states: seq<State>, w: World)
    requires Safe(states, w) && TimedOut(w).Some?
    ensures Safe(states, TimedOut(w).value)
    ensures NoEarlier(w.s.quorums, TimedOut(w).value.s.quorums)
  {
    hide PrimaryLeases.Sound, PrimariesListed, Shared, ExpireAll, AllInternal, AllMoved, AllSlight, AllPhased, AllAccounted;
    var src, w' := SourceOf(w.s), TimedOut(w).value;
    ExpireAllIsFilter(w.leases, w.periods, w.s.quorums, w.s.isMigrating, src, w.s.migrateQuorumID, w.now);
    ExpirySlight(w.leases, w.s.quorums, w.s.isMigrating, src, w.s.migrateQuorumID, w.now);
    SlightMeans(w.s.quorums, w'.s.quorums);
    InternalShared(w.s, w'.s);
    MovedSound(w.s.quorums, w'.s.quorums, w.happened);
  }

  lemma InternalShared(s: State, s': State)
    requires AllInternal(s.quorums, s'.quorums) && s'.shardServers == s.shardServers
    requires s'.databases == s.databases && s'.tables == s.tables && s'.shards == s.shards && SameCounters(s, s')
    ensures Shared(s') == Shared(s)
  {
    InternalKept(s.quorums, s'.quorums);
  }

  lemma FlagInternal(servers: seq<Keyed<ShardServer>>, n: nat, flag: bool)
    ensures ServersInternal(servers, SetFlag(servers, n, flag)) && (AllBackedOff(servers) ==> AllBackedOff(SetFlag(servers, n, flag)))
  {
    if Has(servers, n) { PutServerInternal(servers, n, Get(servers, n).(hasHeartbeat := flag)); }
  }

  lemma ReportInternal(servers: seq<Keyed<ShardServer>>, n: nat, infos: seq<QuorumInfo>, httpPort: nat, sdbpPort: nat)
    ensures var servers' := Reported(servers, n, infos, httpPort, sdbpPort);
            ServersInternal(servers, servers') && (AllBackedOff(servers) ==> AllBackedOff(servers'))
  {
    if Has(servers, n) {
      PutServerInternal(servers, n, Get(servers, n).(quorumInfos := infos, httpPort := httpPort, sdbpPort := sdbpPort, hasHeartbeat := true));
    }
  }

  lemma LossIsSafe(states: seq<State>, w: World, n: nat)
    requires Safe(states, w)
    ensures Safe(states, w.(s := w.s.(quorums := WithoutPrimary(w.s.quorums, n), shardServers := SetFlag(w.s.shardServers, n, false))))
    ensures NoEarlier(w.s.quorums, WithoutPrimary(w.s.quorums, n))
  {
    assert AllSlight(w.s.quorums, WithoutPrimary(w.s.quorums, n));
    SlightMeans(w.s.quorums, WithoutPrimary(w.s.quorums, n));
    FlagInternal(w.s.shardServers, n, false);
    hide InStep, LeasesSafe, AllPhased, AllAccounted, AllJustified, AllInternal, AllMoved, ServersInternal, AllBackedOff, WithoutPrimary;
    QuietStep(states, w, WithoutPrimary(w.s.quorums, n), SetFlag(w.s.shardServers, n, false));
  }

  lemma ReportIsSafe(states: seq<State>, w: World, n: nat, infos: seq<QuorumInfo>, httpPort: nat, sdbpPort: nat)
    requires Safe(states, w)
    ensures Safe(states, ReportedBy(w, n, infos, httpPort, sdbpPort))
    ensures NoEarlier(w.s.quorums, ReportedBy(w, n, infos, httpPort, sdbpPort).s.quorums)
  {
    hide InStep, LeasesSafe, AllPhased, AllAccounted, AllJustified, AllInternal, AllMoved, ServersInternal, AllBackedOff,
      AllSlight, Reported, RaiseAll;
    RaiseSlight(w.s.quorums, infos);
    SlightMeans(w.s.quorums, RaiseAll(w.s.quorums, infos));
    ReportInternal(w.s.shardServers, n, infos, httpPort, sdbpPort);
    QuietStep(states, w, RaiseAll(w.s.quorums, infos), Reported(w.s.shardServers, n, infos, httpPort, sdbpPort));
  }

  // ---- activations tried, given up and late

  lemma TriedMeans(q: Keyed<Quorum>, q': Keyed<Quorum>, nodeID: nat, force: bool)
    requires Tried(q, q', nodeID, force)
    ensures Internal(q, q') && Phased(q'.obj) && q'.obj.configID >= q.obj.configID
  {}

  lemma LaterEverywhere(l: seq<Keyed<Quorum>>, l': seq<Keyed<Quorum>>)
    requires |l'| == |l| && forall i :: 0 <= i < |l| ==> l'[i].id == l[i].id && l'[i].obj.configID >= l[i].obj.configID
    ensures NoEarlier(l, l') && (Unique(l) ==> Unique(l'))
  {
    forall id | id in AsMap(l) && id in AsMap(l') ensures AsMap(l')[id].configID >= AsMap(l)[id].configID { SamePlace(l, l', id); }
  }

  // Attempts keep what is promised of activations.
  lemma TriedActivations(c: Settings, w: World, n: nat, disregardPrevious: bool, force: bool)
    requires ActivationsSafe(w) && c.interval > 0 && Unique(w.s.quorums) && Has(w.s.shardServers, n)
    ensures ActivationsSafe(TriedAll(c, w, n, disregardPrevious, force).value)
    ensures var w' := TriedAll(c, w, n, disregardPrevious, force).value;
            && AllInternal(w.s.quorums, w'.s.quorums) && NoEarlier(w.s.quorums, w'.s.quorums)
            && ServersInternal(w.s.shardServers, w'.s.shardServers)
  {
    hide AllPhased, AllAccounted, ListAccounted, Accounted, AllJustified, Phased, BackoffSound, Unique, AsMap, IndexOf, AttemptAll, Tried, Internal,
      NoEarlier;
    var v, l := Get(w.s.shardServers, n), w.s.quorums;
    PhasesAsLists(l, w.happened);
    assert BackoffSound(v);
    AttemptMeans(l, n, v, disregardPrevious, force, w.now, c.interval, c.rounds);
    AttemptAccounts(l, n, v, disregardPrevious, force, w.now, c.interval, c.rounds, w.happened);
    var a := AttemptAll(l, n, v, disregardPrevious, force, w.now, c.interval, c.rounds);
    forall i | 0 <= i < |l|
      ensures Internal(l[i], a.quorums[i]) && a.quorums[i].id == l[i].id && Phased(a.quorums[i].obj)
              && a.quorums[i].obj.configID >= l[i].obj.configID
    {
      TriedMeans(l[i], a.quorums[i], n, force);
      InternalID(l[i], a.quorums[i]);
    }
    LaterEverywhere(l, a.quorums);
    BackedOffPut(w.s.shardServers, n, a.server);
    AsList(a.quorums, l, w.happened + a.started);
    PhasesAsLists(a.quorums, w.happened + a.started);
    AllJustifiedStays(w.queued, w.happened, a.started);
    MoreRequests(w.(happened := w.happened + a.started), a.queued);
    hide AllBackedOff, OnlyBackoff, ServersInternal;
  }

  lemma AsList(l': seq<Keyed<Quorum>>, l: seq<Keyed<Quorum>>, happened: seq<Happening>)
    requires |l'| == |l| && forall i :: 0 <= i < |l| ==> l'[i].id == l[i].id && Accounted(l[i].id, l'[i].obj, happened) && Phased(l'[i].obj)
    ensures ListAccounted(l', happened) && forall q :: q in l' ==> Phased(q.obj)
  {
    hide Accounted, Phased;
    forall q | q in l' ensures Accounted(q.id, q.obj, happened) && Phased(q.obj) {
      var i :| 0 <= i < |l'| && l'[i] == q;
    }
  }

  lemma TriedIsSafe(c: Settings, states: seq<State>, w: World, n: nat, disregardPrevious: bool, force: bool)
    requires Safe(states, w) && c.interval > 0 && Unique(w.s.quorums) && TriedAll(c, w, n, disregardPrevious, force).Some?
    ensures Safe(states, TriedAll(c, w, n, disregardPrevious, force).value)
    ensures NoEarlier(w.s.quorums, TriedAll(c, w, n, disregardPrevious, force).value.s.quorums)
  {
    hide InStep, LeasesSafe, ActivationsSafe, AllInternal, ServersInternal, NoEarlier, Unique, AsMap, IndexOf, AttemptAll;
    if Has(w.s.shardServers, n) {
      TriedActivations(c, w, n, disregardPrevious, force);
      InternalStep(states, w, TriedAll(c, w, n, disregardPrevious, force).value);
    } else {
      SameNoEarlier(w.s.quorums);
    }
  }

  lemma InternalID(q: Keyed<Quorum>, q': Keyed<Quorum>)
    requires Internal(q, q')
    ensures q'.id == q.id
  {}

  lemma BackedOffPut(servers: seq<Keyed<ShardServer>>, n: nat, v: ShardServer)
    requires Has(servers, n) && OnlyBackoff(Get(servers, n), v) && BackoffSound(v) && AllBackedOff(servers)
    ensures ServersInternal(servers, Put(servers, n, v)) && AllBackedOff(Put(servers, n, v))
  {
    PutServerInternal(servers, n, v);
  }

  lemma {:induction false} DeactivationsAsk(l: seq<Keyed<Quorum>>, nodeID: nat, force: bool)
    ensures forall x :: x in Deactivations(l, nodeID, force) ==> !x.activate
  {
    if l != [] { DeactivationsAsk(l[1..], nodeID, force); }
  }

  lemma GivenUpMeans(q: Keyed<Quorum>, nodeID: nat, now: nat)
    ensures Internal(q, GivenUp(q, nodeID)) && Moved(q.obj, GivenUp(q, nodeID).obj) && GivenUp(q, nodeID).id == q.id
    ensures Internal(q, Late(q, now)) && Moved(q.obj, Late(q, now).obj) && Late(q, now).id == q.id
  {}

  lemma DeactivatedIsSafe(states: seq<State>, w: World, n: nat, force: bool)
    requires Safe(states, w) && Deactivated(w, n, force).Some?
    ensures Safe(states, Deactivated(w, n, force).value)
    ensures NoEarlier(w.s.quorums, Deactivated(w, n, force).value.s.quorums)
  {
    hide InStep, LeasesSafe, AllPhased, AllAccounted, AllJustified, Internal, Moved, GivenUp, ServersInternal, AllBackedOff,
      ResetOne;
    forall i | 0 <= i < |w.s.quorums|
      ensures var q := w.s.quorums[i]; Internal(q, GivenUp(q, n)) && Moved(q.obj, GivenUp(q, n).obj) && GivenUp(q, n).id == q.id
    {
      GivenUpMeans(w.s.quorums[i], n, 0);
    }
    DeactivationsAsk(w.s.quorums, n, force);
    ResetInternal(w.s.shardServers, n);
    QuorumsStep(states, w, GivenUpAll(w.s.quorums, n), ResetOne(w.s.shardServers, n), Deactivations(w.s.quorums, n, force));
  }

  lemma LateIsSafe(states: seq<State>, w: World)
    requires Safe(states, w)
    ensures Safe(states, w.(s := w.s.(quorums := LateAll(w.s.quorums, w.now))))
    ensures NoEarlier(w.s.quorums, LateAll(w.s.quorums, w.now))
  {
    hide InStep, LeasesSafe, AllPhased, AllAccounted, AllJustified, Internal, Moved, Late, ServersInternal, AllBackedOff;
    forall i | 0 <= i < |w.s.quorums|
      ensures var q := w.s.quorums[i]; Internal(q, Late(q, w.now)) && Moved(q.obj, Late(q, w.now).obj) && Late(q, w.now).id == q.id
    {
      GivenUpMeans(w.s.quorums[i], 0, w.now);
    }
    SameInternal(w.s.shardServers);
    QuietStep(states, w, LateAll(w.s.quorums, w.now), w.s.shardServers);
  }

  // ---- the log, the master and catching up

  lemma AppendParts(s: State, paxosID: nat, m: Message, isLeader: bool) returns (s1: State)
    requires OnAppend(s, paxosID, m, isLeader).Ok?
    ensures s1.quorums == s.quorums && s1.nextQuorumID == s.nextQuorumID
    ensures s1.shardServers == s.shardServers && s1.nextNodeID == s.nextNodeID && OnMessage(s1, m).Ok?
    ensures OnAppend(s, paxosID, m, isLeader).value.quorums == OnMessage(s1, m).value.quorums
    ensures OnAppend(s, paxosID, m, isLeader).value.shardServers == OnMessage(s1, m).value.shardServers
  {
    hide OnMessage;
    s1 := if m.ShardMigrationBegin? then OnShardMigrationBegin(s, m.quorumID, m.shardID, isLeader) else s;
    s1 := if m.ShardMigrationComplete? then BeforeMigrationComplete(s1, m, isLeader).value else s1;
    s1 := s1.(paxosID := paxosID);
  }

  lemma NodeNumberFree(s: State)
    requires WellFormed(s)
    ensures Unique(s.shardServers) && !Has(s.shardServers, s.nextNodeID)
  {
    assert Below(AsMap(s.shardServers), CONFIG_MIN_SHARD_NODE_ID, s.nextNodeID);
  }

  lemma CarriedNoEarlier(l: seq<Keyed<Quorum>>, l': seq<Keyed<Quorum>>)
    requires AllCarried(l, l')
    ensures NoEarlier(l, l')
  {}

  lemma EntryIsSafe(log: seq<Message>, states: seq<State>, histories: seq<History>, w: World, isLeader: bool)
    requires Run(log, states, histories) && Safe(states, w) && w.applied < |log|
    requires OnAppend(w.s, w.applied + 1, log[w.applied], isLeader).Ok?
    ensures var s' := OnAppend(w.s, w.applied + 1, log[w.applied], isLeader).value;
            Safe(states, w.(s := s', applied := w.applied + 1)) && NoEarlier(w.s.quorums, s'.quorums)
  {
    hide PrimaryLeases.Sound, PrimariesListed, Shared, OnAppend, OnMessage, WellFormed, AllPhased, AllAccounted, AllBackedOff, AllCarried,
      NoEarlier, AllJustified;
    var m := log[w.applied];
    ReachableWellFormed(log, states, histories, w.applied);
    WellFormedShared(w.s);
    NumberFree(w.s);
    NodeNumberFree(w.s);
    ControllerFollows(log, states, histories, w.applied, w.s, isLeader);
    var s1 := AppendParts(w.s, w.applied + 1, m, isLeader);
    EntryKeepsPrimaries(s1, m, w.leases);
    EntryKeepsPhases(s1, m);
    EntryKeepsAccounts(s1, m, w.happened);
    EntryKeepsBackoff(s1, m);
    EntryCarries(s1, m);
    CarriedNoEarlier(w.s.quorums, OnMessage(s1, m).value.quorums);
  }

  // A check changes the state by marking a split that it accepts, at most.
  lemma ProposalIsSafe(states: seq<State>, w: World, m: Message)
    requires Safe(states, w) && CompleteMessage(w.s, m).Accepted?
    ensures Safe(states, w.(s := CompleteMessage(w.s, m).state)) && CompleteMessage(w.s, m).state.quorums == w.s.quorums
  {
    hide CompleteMessage, PrimaryLeases.Sound, PrimariesListed, AllPhased, AllAccounted, AllJustified, AllBackedOff;
    CompleteMessageState(w.s, m);
  }

  lemma MastershipIsSafe(states: seq<State>, w: World, has: bool, master: nat, paxosID: nat)
    requires Safe(states, w)
    ensures Safe(states, w.(s := w.s.(hasMaster := has, masterID := master, paxosID := paxosID)))
  {
    hide PrimaryLeases.Sound, PrimariesListed, AllPhased, AllAccounted, AllJustified, AllBackedOff;
  }

  // A state that was read from a text shows no primary and no activation, and no server was tried.
  lemma FreshLists(sender: State, leases: seq<PrimaryLease>, happened: seq<Happening>)
    ensures PrimariesListed(Shared(sender).quorums, leases)
    ensures AllPhased(Shared(sender).quorums) && AllAccounted(Shared(sender).quorums, happened)
    ensures AllBackedOff(Shared(sender).shardServers)
  {
    MapObjMap(sender.quorums, SharedQuorum);
    MapObjMap(sender.shardServers, SharedServer);
    hide HasLease;
  }

  lemma CatchUpIsSafe(states: seq<State>, w: World, sender: State, count: nat)
    requires Safe(states, w) && CaughtUp(states, w, sender, count).Some?
    ensures Safe(states, CaughtUp(states, w, sender, count).value)
  {
    hide PrimaryLeases.Sound, PrimariesListed, Shared, Restored, StateText, Numbered, StateFits, AllPhased, AllAccounted, AllJustified, AllBackedOff;
    RestoredIsShared(w.s, sender);
    FreshLists(sender, w.leases, w.happened);
  }

  lemma WaitIsSafe(states: seq<State>, w: World, t: nat)
    requires Safe(states, w) && w.now <= t
    ensures Safe(states, w.(now := t))
  {
    hide PrimaryLeases.Sound, PrimariesListed, Shared, AllPhased, AllAccounted, AllJustified, AllBackedOff;
    TimePasses(w.leases, w.periods, w.now, t);
  }

  lemma UniqueInStep(log: seq<Message>, states: seq<State>, histories: seq<History>, w: World)
    requires Run(log, states, histories) && InStep(states, w)
    ensures Unique(w.s.quorums)
  {
    hide Run, Shared;
    assert w.applied <= |log| by { RunLength(log, states, histories); }
    ReachableWellFormed(log, states, histories, w.applied);
    WellFormedShared(w.s);
    hide WellFormed;
    NumberFree(w.s);
  }

  lemma RunLength(log: seq<Message>, states: seq<State>, histories: seq<History>)
    requires Run(log, states, histories)
    ensures |states| == |log| + 1
  {}

  lemma StepIsSafe(c: Settings, log: seq<Message>, states: seq<State>, histories: seq<History>, w: World, e: Event)
    requires Run(log, states, histories) && Safe(states, w) && c.interval > 0 && Step(c, log, states, w, e).Some?
    ensures Safe(states, Step(c, log, states, w, e).value)
    ensures !e.CatchUp? ==> NoEarlier(w.s.quorums, Step(c, log, states, w, e).value.s.quorums)
  {
    hide Safe, InStep, OnAppend, CompleteMessage, Granted, Asked, TimedOut, Run, Extends, TriedAll, Deactivated, ReportedBy, CaughtUp, NoEarlier, Unique,
      WithoutPrimary, SetFlag, LateAll;
    SameNoEarlier(w.s.quorums);
    match e
    case Wait(t) => WaitIsSafe(states, w, if t > w.now then t else w.now);
    case Ask(isMaster, x, alive) => AskIsSafe(c, log, states, w, isMaster, x, alive);
    case LeaseTimeout => TimeoutIsSafe(states, w);
    case NodeLost(n) => LossIsSafe(states, w, n);
    case Report(n, infos, httpPort, sdbpPort) => ReportIsSafe(states, w, n, infos, httpPort, sdbpPort);
    case TryActivate(n, disregardPrevious, force) =>
      SafeInStep(states, w);
      UniqueInStep(log, states, histories, w);
      TriedIsSafe(c, states, w, n, disregardPrevious, force);
    case TryDeactivate(n, force) => DeactivatedIsSafe(states, w, n, force);
    case ActivationTimeout => LateIsSafe(states, w);
    case Propose(m) => if CompleteMessage(w.s, m).Accepted? { ProposalIsSafe(states, w, m); }
    case Entry(isLeader) => EntryIsSafe(log, states, histories, w, isLeader);
    case Mastership(has, master, paxosID) => MastershipIsSafe(states, w, has, master, paxosID);
    case CatchUp(sender, count) => CatchUpIsSafe(states, w, sender, count);
  }

  lemma SameNoEarlier(l: seq<Keyed<Quorum>>)
    ensures NoEarlier(l, l)
  {}

  lemma SafeInStep(states: seq<State>, w: World)
    requires Safe(states, w)
    ensures InStep(states, w)
  {}

  lemma AskIsSafe(c: Settings, log: seq<Message>, states: seq<State>, w: World, isMaster: bool, x: Extend, alive: set<nat>)
    requires Safe(states, w) && Step(c, log, states, w, Ask(isMaster, x, alive)).Some?
    ensures Safe(states, Step(c, log, states, w, Ask(isMaster, x, alive)).value)
    ensures NoEarlier(w.s.quorums, Step(c, log, states, w, Ask(isMaster, x, alive)).value.s.quorums)
  {
    hide Safe, Granted, Asked, Extends, NoEarlier;
    AskedIsSafe(states, w, isMaster, x.quorumID, x.nodeID, x.duration, alive);
    GrantedFor(isMaster, w, x.quorumID, x.nodeID, alive);
    var w1 := Asked(w, x.quorumID, x.nodeID, w.now + Length(x.duration), Granted(isMaster, w.s, w.leases, x.quorumID, x.nodeID, alive).value);
    if Granted(isMaster, w.s, w.leases, x.quorumID, x.nodeID, alive) == Some(Extension) {
      ExtensionKeepsState(w, x.quorumID, x.nodeID, w.now + Length(x.duration));
      ExtendsIsSafe(states, w1.value, x);
    }
  }

  lemma ExtensionKeepsState(w: World, quorumID: nat, nodeID: nat, end: nat)
    ensures Asked(w, quorumID, nodeID, end, Extension).Some? ==> Asked(w, quorumID, nodeID, end, Extension).value.s == w.s
  {}

  // ---- runs

  // A run of the controller from its start.
  predicate ControllerRun(c: Settings, log: seq<Message>, states: seq<State>, worlds: seq<World>, events: seq<Event>) {
    c.interval > 0 && |worlds| == |events| + 1 && worlds[0] == NewWorld
    && forall i :: 0 <= i < |events| ==> Step(c, log, states, worlds[i], events[i]) == Some(worlds[i + 1])
  }

  // Main result: in every moment of a run the controller is in step with the log, its leases exclude
  // each other and its activations are in their phases, with their causes.
  lemma {:induction false} AlwaysSafe(
      c: Settings, log: seq<Message>, states: seq<State>, histories: seq<History>, worlds: seq<World>, events: seq<Event>, i: nat)
    requires Run(log, states, histories) && ControllerRun(c, log, states, worlds, events) && i <= |events|
    ensures Safe(states, worlds[i])
  {
    hide Step, Safe, Run;
    if i == 0 {
      StartIsSafe(log, states, histories);
    } else {
      AlwaysSafe(c, log, states, histories, worlds, events, i - 1);
      assert Step(c, log, states, worlds[i - 1], events[i - 1]) == Some(worlds[i]);
      StepIsSafe(c, log, states, histories, worlds[i - 1], events[i - 1]);
    }
  }

  lemma StartIsSafe(log: seq<Message>, states: seq<State>, histories: seq<History>)
    requires Run(log, states, histories)
    ensures Safe(states, NewWorld)
  {
    hide Runs.Step;
    assert MapObj(EmptyState.quorums, SharedQuorum) == [] && MapObj(EmptyState.shards, SharedShard) == [];
    assert MapObj(EmptyState.shardServers, SharedServer) == [];
  }

  // So two periods in which different nodes hold the lease of the same quorum never overlap, each
  // counted from its assignment to the last expiry set for it ...
  lemma NeverTwoHolders(
      c: Settings, log: seq<Message>, states: seq<State>, histories: seq<History>, worlds: seq<World>, events: seq<Event>,
      i: nat, a: nat, b: nat)
    requires Run(log, states, histories) && ControllerRun(c, log, states, worlds, events) && i <= |events|
    requires a < |worlds[i].periods| && b < |worlds[i].periods| && Rivals(worlds[i].periods[a], worlds[i].periods[b])
    ensures Apart(worlds[i].periods[a], worlds[i].periods[b])
  {
    assert i < |worlds|;
    hide Run, ControllerRun, ActivationsSafe, InStep;
    AlwaysSafe(c, log, states, histories, worlds, events, i);
    assert Exclusive(worlds[i].periods);
  }

  // ... and whatever quorum shows a primary, that node has a listed lease and no other node has one.
  lemma ShownPrimaryHoldsLease(
      c: Settings, log: seq<Message>, states: seq<State>, histories: seq<History>, worlds: seq<World>, events: seq<Event>,
      i: nat, q: nat)
    requires Run(log, states, histories) && ControllerRun(c, log, states, worlds, events) && i <= |events|
    requires Has(worlds[i].s.quorums, q) && Get(worlds[i].s.quorums, q).hasPrimary
    ensures HasLease(worlds[i].leases, q, Get(worlds[i].s.quorums, q).primaryID)
    ensures NoOther(worlds[i].leases, q, Get(worlds[i].s.quorums, q).primaryID)
  {
    assert i < |worlds|;
    hide Run, ControllerRun, ActivationsSafe, InStep;
    AlwaysSafe(c, log, states, histories, worlds, events, i);
    var w := worlds[i];
    ShownIsListed(w.s.quorums, w.leases, q);
    hide PrimaryLeases.Sound;
    var x :| x in w.leases && x.quorumID == q && x.nodeID == Get(w.s.quorums, q).primaryID;
    forall y | y in w.leases && y.quorumID == q ensures y.nodeID == x.nodeID {
      OneHolder(w.leases, w.periods, w.now, x, y);
    }
  }

  // Main result: every quorum is always in one of the four phases; the activation under way in it is the
  // last that started there, of this node and in this configuration, and one that is watched was announced
  // by an extension since ...
  lemma AlwaysInPhase(
      c: Settings, log: seq<Message>, states: seq<State>, histories: seq<History>, worlds: seq<World>, events: seq<Event>,
      i: nat, q: nat)
    requires Run(log, states, histories) && ControllerRun(c, log, states, worlds, events) && i <= |events|
    requires Has(worlds[i].s.quorums, q)
    ensures Phased(Get(worlds[i].s.quorums, q))
    ensures Get(worlds[i].s.quorums, q).isActivatingNode ==> exists a :: StartedAt(q, Get(worlds[i].s.quorums, q), worlds[i].happened, a)
    ensures Watching(Get(worlds[i].s.quorums, q)) ==> exists a, b :: WatchedAt(q, Get(worlds[i].s.quorums, q), worlds[i].happened, a, b)
  {
    assert i < |worlds|;
    hide Run, ControllerRun, LeasesSafe, InStep, AllJustified, AllBackedOff, Phased, StartedAt, WatchedAt;
    AlwaysSafe(c, log, states, histories, worlds, events, i);
    assert Accounted(q, Get(worlds[i].s.quorums, q), worlds[i].happened);
  }

  // ... an activation that was asked for without force names the node whose activation started in its
  // configuration; two extensions in that configuration followed, the later of which reports progress, and
  // nothing else started in the quorum until then ...
  lemma ActivationsHaveCauses(
      c: Settings, log: seq<Message>, states: seq<State>, histories: seq<History>, worlds: seq<World>, events: seq<Event>,
      i: nat, k: nat)
    requires Run(log, states, histories) && ControllerRun(c, log, states, worlds, events) && i <= |events|
    requires k < |worlds[i].queued| && worlds[i].queued[k].activate && !worlds[i].queued[k].force
    ensures exists a, b, c :: Causes(worlds[i].queued[k], worlds[i].happened, a, b, c)
  {
    assert i < |worlds|;
    hide Run, ControllerRun, LeasesSafe, InStep, AllBackedOff, AllPhased, AllAccounted, Causes;
    AlwaysSafe(c, log, states, histories, worlds, events, i);
    assert Justified(worlds[i].queued[k], worlds[i].happened);
  }

  // ... and the configuration of a quorum never goes back, except by catching up, which forgets it.
  lemma {:induction false} ConfigurationsGrow(
      c: Settings, log: seq<Message>, states: seq<State>, histories: seq<History>, worlds: seq<World>, events: seq<Event>,
      i: nat, j: nat, q: nat)
    requires Run(log, states, histories) && ControllerRun(c, log, states, worlds, events) && i <= j <= |events|
    requires forall k :: i <= k < j ==> !events[k].CatchUp?
    requires Has(worlds[i].s.quorums, q) && Has(worlds[j].s.quorums, q)
    ensures Get(worlds[j].s.quorums, q).configID >= Get(worlds[i].s.quorums, q).configID
    ensures worlds[i].applied <= worlds[j].applied
    decreases j - i
  {
    hide Step, Safe, Run, AsMap, IndexOf;
    if i < j {
      AlwaysSafe(c, log, states, histories, worlds, events, j - 1);
      assert Step(c, log, states, worlds[j - 1], events[j - 1]) == Some(worlds[j]);
      StepIsSafe(c, log, states, histories, worlds[j - 1], events[j - 1]);
      StillThere(c, log, states, histories, worlds, events, i, j, q);
      ConfigurationsGrow(c, log, states, histories, worlds, events, i, j - 1, q);
      AppliedGrows(c, log, states, worlds[j - 1], events[j - 1]);
      NoEarlierAt(worlds[j - 1].s.quorums, worlds[j].s.quorums, q);
    }
  }

  lemma NoEarlierAt(l: seq<Keyed<Quorum>>, l': seq<Keyed<Quorum>>, q: nat)
    requires NoEarlier(l, l') && Has(l, q) && Has(l', q)
    ensures Get(l', q).configID >= Get(l, q).configID
  {}

  lemma AppliedGrows(c: Settings, log: seq<Message>, states: seq<State>, w: World, e: Event)
    requires Step(c, log, states, w, e).Some? && !e.CatchUp?
    ensures w.applied <= Step(c, log, states, w, e).value.applied
  {
    hide OnAppend, CompleteMessage, Granted, ExpireAll, AttemptAll;
  }

  lemma {:induction false} AppliedInOrder(
      c: Settings, log: seq<Message>, states: seq<State>, worlds: seq<World>, events: seq<Event>, i: nat, j: nat)
    requires ControllerRun(c, log, states, worlds, events) && i <= j <= |events| && forall k :: i <= k < j ==> !events[k].CatchUp?
    ensures worlds[i].applied <= worlds[j].applied
    decreases j - i
  {
    hide Step;
    if i < j {
      AppliedInOrder(c, log, states, worlds, events, i, j - 1);
      assert Step(c, log, states, worlds[j - 1], events[j - 1]) == Some(worlds[j]);
      AppliedGrows(c, log, states, worlds[j - 1], events[j - 1]);
    }
  }

  // A quorum that is there at two moments is there in between, because its number is not given out
  // again.
  lemma StillThere(
      c: Settings, log: seq<Message>, states: seq<State>, histories: seq<History>, worlds: seq<World>, events: seq<Event>,
      i: nat, j: nat, q: nat)
    requires Run(log, states, histories) && ControllerRun(c, log, states, worlds, events) && i < j <= |events|
    requires forall k :: i <= k < j ==> !events[k].CatchUp?
    requires Has(worlds[i].s.quorums, q) && Has(worlds[j].s.quorums, q)
    ensures Has(worlds[j - 1].s.quorums, q)
  {
    hide Step, Run, LeasesSafe, ActivationsSafe, Shared;
    RunLength(log, states, histories);
    AlwaysSafe(c, log, states, histories, worlds, events, i);
    AlwaysSafe(c, log, states, histories, worlds, events, j - 1);
    AlwaysSafe(c, log, states, histories, worlds, events, j);
    AppliedInOrder(c, log, states, worlds, events, i, j - 1);
    AppliedInOrder(c, log, states, worlds, events, j - 1, j);
    SharedLookups(worlds[i].s, q);
    SharedLookups(worlds[j - 1].s, q);
    SharedLookups(worlds[j].s, q);
    CatalogNumbersNeverReused(log, states, histories, worlds[i].applied, worlds[j - 1].applied, worlds[j].applied);
  }
}
