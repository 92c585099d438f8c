// The managers of a controller at work on one state: each handler takes exactly the step that
// ControllerRuns has for its event, so the code runs as those runs say.  The responses to requests for
// leases are added (ConfigPrimaryLeaseManager::AssignPrimaryLease and ExtendPrimaryLease of
// src/Application/ConfigServer/ConfigPrimaryLeaseManager.cpp).

module ControllerCode {
  import opened KeyedLists
  import opened ConfigMessages
  import opened Schema
  import opened SchemaInvariant
  import opened ConfigStates
  import opened Runs
  import opened Membership
  import opened Replication
  import opened PrimaryLeases
  import opened Activation
  import opened ActivationAndLog
  import opened ControllerRuns

  // What every member of a quorum is told of a lease that was granted.
  datatype Told = ReceiveLease(
    to: nat, nodeID: nat, quorumID: nat, proposalID: nat, configID: nat, duration: nat, watchingPaxosID: bool,
    activeNodes: seq<nat>, shards: seq<nat>)

  function Members(q: Quorum): seq<nat> { VolatileActiveNodes(q) + q.inactiveNodes }

  function Announced(q: Quorum, e: Extend, proposalID: nat, watching: bool): (r: seq<Told>)
    ensures |r| == |Members(q)|
    ensures forall k :: 0 <= k < |r| ==>
              r[k] == ReceiveLease(Members(q)[k], e.nodeID, e.quorumID, proposalID, q.configID, Length(e.duration), watching,
                                   VolatileActiveNodes(q), q.shards)
  {
    seq(|Members(q)|, k requires 0 <= k < |Members(q)| =>
      ReceiveLease(Members(q)[k], e.nodeID, e.quorumID, proposalID, q.configID, Length(e.duration), watching,
                   VolatileActiveNodes(q), q.shards))
  }

  // All members are told, the activating node and the inactive ones included, and nobody else; each of
  // them for how long the lease is listed.
  lemma EveryMemberTold(q: Quorum, e: Extend, proposalID: nat, watching: bool, n: nat)
    ensures (exists t :: t in Announced(q, e, proposalID, watching) && t.to == n) <==>
              n in q.activeNodes || n in q.inactiveNodes || (q.isActivatingNode && n == q.activatingNodeID)
    ensures forall t :: t in Announced(q, e, proposalID, watching) ==>
              t.nodeID == e.nodeID && t.quorumID == e.quorumID && t.proposalID == proposalID && t.configID == q.configID
              && t.duration == Length(e.duration) && t.watchingPaxosID == watching && t.shards == q.shards
              && (n in t.activeNodes <==> n in q.activeNodes || (q.isActivatingNode && n == q.activatingNodeID))
  {
    var r, nodes := Announced(q, e, proposalID, watching), Members(q);
    assert n in nodes <==> n in VolatileActiveNodes(q) || n in q.inactiveNodes;
    if n in nodes {
      var k :| 0 <= k < |nodes| && nodes[k] == n;
      assert r[k] in r && r[k].to == n;
    }
  }

  // One message for each node in turn.
  method Announce(q: Quorum, e: Extend, proposalID: nat, watching: bool) returns (sent: seq<Told>)
    ensures sent == Announced(q, e, proposalID, watching)
  {
    sent := [];
    var nodes := VolatileActiveNodes(q) + q.inactiveNodes;
    for k := 0 to |nodes|
      invariant sent == Announced(q, e, proposalID, watching)[..k]
    {
      sent := sent + [ReceiveLease(nodes[k], e.nodeID, e.quorumID, proposalID, q.configID, Length(e.duration), watching,
                                   VolatileActiveNodes(q), q.shards)];
    }
  }

  // ---- the steps of the events, one by one

  lemma IgnoredStep(c: Settings, log: seq<Message>, states: seq<State>, w: World, isMaster: bool, e: Extend, alive: set<nat>)
    ensures Granted(isMaster, w.s, w.leases, e.quorumID, e.nodeID, alive).None? ==>
              ControllerRuns.Step(c, log, states, w, Ask(isMaster, e, alive)) == None
    ensures Granted(isMaster, w.s, w.leases, e.quorumID, e.nodeID, alive) == Some(Ignored) ==>
              ControllerRuns.Step(c, log, states, w, Ask(isMaster, e, alive)) == Some(w)
  {
    hide Granted;
  }

  function AfterAssignment(w: World, e: Extend): World
    requires Has(w.s.quorums, e.quorumID)
  {
    var end := w.now + Length(e.duration);
    w.(s := w.s.(quorums := SetPrimary(w.s.quorums, e.quorumID, e.nodeID)),
       leases := Assigned(w.leases, w.periods, e.quorumID, e.nodeID, end),
       periods := w.periods + [Period(e.quorumID, e.nodeID, w.now, end)])
  }

  lemma AssignedStep(c: Settings, log: seq<Message>, states: seq<State>, w: World, isMaster: bool, e: Extend, alive: set<nat>)
    requires Granted(isMaster, w.s, w.leases, e.quorumID, e.nodeID, alive) == Some(Assignment) && Has(w.s.quorums, e.quorumID)
    ensures ControllerRuns.Step(c, log, states, w, Ask(isMaster, e, alive)) == Some(AfterAssignment(w, e))
  {
    hide Granted, SetPrimary, Assigned;
  }

  // The quorum has a lease and the lease its period.
  predicate Extendable(w: World, quorumID: nat) {
    FirstOf(w.leases, quorumID).Some? && FirstOf(w.leases, quorumID).value.serial < |w.periods|
  }

  // The part of an extension that concerns the lease.
  function AfterRequest(w: World, e: Extend): World
    requires Extendable(w, e.quorumID)
  {
    var end := w.now + Length(e.duration);
    w.(leases := Extended(w.leases, e.quorumID, end),
       periods := ExtendedPeriods(w.periods, FirstOf(w.leases, e.quorumID).value, end))
  }

  lemma ExtendedStep(c: Settings, log: seq<Message>, states: seq<State>, w: World, isMaster: bool, e: Extend, alive: set<nat>)
    requires Granted(isMaster, w.s, w.leases, e.quorumID, e.nodeID, alive) == Some(Extension) && Extendable(w, e.quorumID)
    ensures ControllerRuns.Step(c, log, states, w, Ask(isMaster, e, alive)) == Extends(AfterRequest(w, e), e)
  {
    hide Granted, Extends, Extended, ExtendedPeriods, FirstOf;
  }

  function AfterTimeout(w: World): World { w.(s := w.s.(quorums := LateAll(w.s.quorums, w.now))) }

  lemma TimerSteps(c: Settings, log: seq<Message>, states: seq<State>, w: World)
    ensures ControllerRuns.Step(c, log, states, w, LeaseTimeout) == TimedOut(w)
    ensures w.now > 0 ==>
              ControllerRuns.Step(c, log, states, w, ActivationTimeout) ==
                if exists q :: q in w.s.quorums && Replicating(q.obj) then None
                else Some(AfterTimeout(w))
  {
    hide TimedOut, LateAll, Replicating;
  }

  lemma TrySteps(c: Settings, log: seq<Message>, states: seq<State>, w: World, n: nat, disregardPrevious: bool, force: bool)
    ensures ControllerRuns.Step(c, log, states, w, TryActivate(n, disregardPrevious, force)) == TriedAll(c, w, n, disregardPrevious, force)
    ensures ControllerRuns.Step(c, log, states, w, TryDeactivate(n, force)) == Deactivated(w, n, force)
  {
    hide TriedAll, Deactivated;
  }

  class Managers {
    const config: ConfigState
    const leases: ConfigPrimaryLeaseManager
    const activations: ConfigActivationManager

    ghost predicate Ready()
      reads this, leases
    {
      && leases.config == config && activations.config == config && activations.activationTimeoutInterval > 0
      && leases.TimerSet() && leases.created == |leases.periods|
    }

    ghost function Limits(): Settings { Settings(activations.activationTimeoutInterval, activations.numRoundsTriggerActivation) }

    ghost function AsWorld(applied: nat, now: nat): World
      reads config, leases, activations
    {
      World(config.View(), leases.primaryLeases, leases.periods, activations.queued, activations.happened, applied, now)
    }

    constructor (config: ConfigState, leases: ConfigPrimaryLeaseManager, activations: ConfigActivationManager)
      requires leases.config == config && activations.config == config && leases.Valid(0) && activations.Valid()
      ensures Ready() && this.config == config && this.leases == leases && this.activations == activations
    {
      this.config, this.leases, this.activations := config, leases, activations;
    }

    // In a run the managers keep their invariants.
    lemma SafeIsValid(log: seq<Message>, states: seq<State>, histories: seq<History>, applied: nat, now: nat)
      requires Ready() && Run(log, states, histories) && Safe(states, AsWorld(applied, now))
      ensures leases.Valid(now) && activations.Valid()
    {
      hide Run, WellFormed, Shared, PrimaryLeases.Sound, PrimariesListed, Phased, BackoffSound, AllPhased, AllAccounted, AllBackedOff,
        AllJustified, Unique;
      RunLength(log, states, histories);
      ReachableWellFormed(log, states, histories, applied);
      WellFormedShared(config.View());
      NumberFree(config.View());
      NodeNumberFree(config.View());
      PhasesAsLists(config.quorums, activations.happened);
      BackoffAsLists(config.shardServers);
    }

    // What an extension means for an activation.
    method OnExtendLease(e: Extend, ghost applied: nat, ghost now: nat) returns (ok: bool)
      requires activations.config == config && activations.Valid() && Has(config.quorums, e.quorumID)
      modifies activations, config`quorums, config`shardServers
      ensures Extends(old(AsWorld(applied, now)), e) == if ok then Some(AsWorld(applied, now)) else None
      ensures ok ==> Has(config.quorums, e.quorumID)
    {
      hide Completes, Reports, AfterExtension, ActivationOf, ResetOne, AsMap, Activating, Phased;
      ok := activations.OnExtendLease(e);
    }

    // Each of the managers' handlers, seen on the world.
    method RequestLease(isMaster: bool, e: Extend, alive: set<nat>, ghost applied: nat, now: nat) returns (ok: bool, grant: Grant)
      requires Ready() && leases.Valid(now)
      modifies leases, config`quorums
      ensures Granted(isMaster, old(config.View()), old(leases.primaryLeases), e.quorumID, e.nodeID, alive) == if ok then Some(grant) else None
      ensures ok ==> Ready() && (grant != Ignored ==> Has(config.quorums, e.quorumID))
      ensures ok && grant == Ignored ==> AsWorld(applied, now) == old(AsWorld(applied, now))
      ensures ok && grant == Assignment ==>
                Has(old(config.quorums), e.quorumID) && AsWorld(applied, now) == AfterAssignment(old(AsWorld(applied, now)), e)
      ensures ok && grant == Extension ==>
                Extendable(old(AsWorld(applied, now)), e.quorumID) && AsWorld(applied, now) == AfterRequest(old(AsWorld(applied, now)), e)
                && config.quorums == old(config.quorums)
    {
      hide Granted, AsMap, PrimaryLeases.Sound, PrimariesListed, Extended, ExtendedPeriods, Assigned, SetPrimary, FirstOf;
      ok, grant := leases.OnRequestPrimaryLease(isMaster, e.quorumID, e.nodeID, e.duration, alive, now, now);
    }

    method ExpireLeases(ghost applied: nat, now: nat) returns (ok: bool)
      requires Ready() && leases.Valid(now)
      modifies leases, config`quorums, config`isMigrating, config`migrateQuorumID, config`migrateSrcShardID, config`migrateDstShardID
      ensures TimedOut(old(AsWorld(applied, now))) == if ok then Some(AsWorld(applied, now)) else None
      ensures ok ==> Ready()
    {
      hide AsMap, PrimaryLeases.Sound, PrimariesListed, LosesTrack, ExpireAll, Unexpired, PrimariesKept;
      ok := leases.OnPrimaryLeaseTimeout(now, now);
    }

    method ExpireActivations(ghost applied: nat, now: nat) returns (ok: bool)
      requires Ready() && activations.Valid() && now > 0
      modifies config`quorums
      ensures ok <==> !exists q :: q in old(config.quorums) && Replicating(q.obj)
      ensures ok ==> AsWorld(applied, now) == AfterTimeout(old(AsWorld(applied, now)))
    {
      hide Late, Replicating;
      ghost var l := config.quorums;
      ok := activations.OnActivationTimeout(now);
      if ok { assert config.quorums == LateAll(l, now); }
    }

    method Activate(nodeID: nat, disregardPrevious: bool, force: bool, ghost applied: nat, now: nat) returns (ok: bool)
      requires Ready() && activations.Valid()
      modifies activations, config`quorums, config`shardServers
      ensures TriedAll(Limits(), old(AsWorld(applied, now)), nodeID, disregardPrevious, force)
              == if ok then Some(AsWorld(applied, now)) else None
    {
      hide Concerned, AttemptAll, AsMap;
      ok := activations.TryActivateShardServer(nodeID, disregardPrevious, force, true, now);
    }

    method Deactivate(nodeID: nat, force: bool, ghost applied: nat, ghost now: nat) returns (ok: bool)
      requires Ready() && activations.Valid()
      modifies activations, config`quorums, config`shardServers
      ensures Deactivated(old(AsWorld(applied, now)), nodeID, force) == if ok then Some(AsWorld(applied, now)) else None
    {
      hide CanGiveUp, GivenUp, AsMap, ResetOne, Deactivations;
      ghost var l := config.quorums;
      ok := activations.TryDeactivateShardServer(nodeID, force);
      if ok { assert config.quorums == GivenUpAll(l, nodeID); }
    }

    // Main results: in a run each handler takes the step of its event.
    method OnRequestPrimaryLease(
        isMaster: bool, e: Extend, proposalID: nat, alive: set<nat>, now: nat,
        ghost log: seq<Message>, ghost states: seq<State>, ghost histories: seq<History>, ghost applied: nat)
      returns (ok: bool, sent: seq<Told>)
      requires Ready() && Run(log, states, histories) && Safe(states, AsWorld(applied, now))
      modifies leases, activations, config`quorums, config`shardServers
      ensures ControllerRuns.Step(Limits(), log, states, old(AsWorld(applied, now)), Ask(isMaster, e, alive))
              == if ok then Some(AsWorld(applied, now)) else None
      ensures ok ==> Ready()
      ensures ok ==>
                var g := Granted(isMaster, old(config.View()), old(leases.primaryLeases), e.quorumID, e.nodeID, alive);
                if g == Some(Ignored) then sent == []
                else
                  Has(config.quorums, e.quorumID) &&
                  var q := Get(config.quorums, e.quorumID);
                  sent == Announced(q, e, proposalID, g == Some(Extension) && q.isWatchingPaxosID)
    {
      hide ControllerRuns.Step, Run, Safe, Granted, AsMap, PrimaryLeases.Sound, PrimariesListed, Announced, Phased, AfterAssignment, AfterRequest,
        Extends, FirstOf;
      SafeIsValid(log, states, histories, applied, now);
      ghost var w := AsWorld(applied, now);
      IgnoredStep(Limits(), log, states, w, isMaster, e, alive);
      sent := [];
      var grant;
      ok, grant := RequestLease(isMaster, e, alive, applied, now);
      if !ok || grant == Ignored { return; }
      if grant == Extension {
        ExtendedStep(Limits(), log, states, w, isMaster, e, alive);
        ok := OnExtendLease(e, applied, now);
        if !ok { return; }
      } else {
        AssignedStep(Limits(), log, states, w, isMaster, e, alive);
      }
      var q := Get(config.quorums, e.quorumID);
      sent := Announce(q, e, proposalID, grant == Extension && q.isWatchingPaxosID);
    }

    method OnPrimaryLeaseTimeout(
        now: nat, ghost log: seq<Message>, ghost states: seq<State>, ghost histories: seq<History>, ghost applied: nat)
      returns (ok: bool)
      requires Ready() && Run(log, states, histories) && Safe(states, AsWorld(applied, now))
      modifies leases, config`quorums, config`isMigrating, config`migrateQuorumID, config`migrateSrcShardID, config`migrateDstShardID
      ensures ControllerRuns.Step(Limits(), log, states, old(AsWorld(applied, now)), LeaseTimeout)
              == if ok then Some(AsWorld(applied, now)) else None
      ensures ok ==> Ready()
    {
      hide ControllerRuns.Step, Run, Safe, TimedOut, LateAll;
      SafeIsValid(log, states, histories, applied, now);
      TimerSteps(Limits(), log, states, AsWorld(applied, now));
      ok := ExpireLeases(applied, now);
    }

    method OnActivationTimeout(
        now: nat, ghost log: seq<Message>, ghost states: seq<State>, ghost histories: seq<History>, ghost applied: nat)
      returns (ok: bool)
      requires Ready() && Run(log, states, histories) && Safe(states, AsWorld(applied, now)) && now > 0
      modifies config`quorums
      ensures ControllerRuns.Step(Limits(), log, states, old(AsWorld(applied, now)), ActivationTimeout)
              == if ok then Some(AsWorld(applied, now)) else None
      ensures ok ==> Ready()
    {
      hide ControllerRuns.Step, Run, Safe, TimedOut, AfterTimeout, Replicating;
      SafeIsValid(log, states, histories, applied, now);
      TimerSteps(Limits(), log, states, AsWorld(applied, now));
      ok := ExpireActivations(applied, now);
    }

    method TryActivateShardServer(
        nodeID: nat, disregardPrevious: bool, force: bool, now: nat,
        ghost log: seq<Message>, ghost states: seq<State>, ghost histories: seq<History>, ghost applied: nat)
      returns (ok: bool)
      requires Ready() && Run(log, states, histories) && Safe(states, AsWorld(applied, now))
      modifies activations, config`quorums, config`shardServers
      ensures ControllerRuns.Step(Limits(), log, states, old(AsWorld(applied, now)), TryActivate(nodeID, disregardPrevious, force))
              == if ok then Some(AsWorld(applied, now)) else None
      ensures ok ==> Ready()
    {
      hide ControllerRuns.Step, Run, Safe, TriedAll, Deactivated;
      SafeIsValid(log, states, histories, applied, now);
      TrySteps(Limits(), log, states, AsWorld(applied, now), nodeID, disregardPrevious, force);
      ok := Activate(nodeID, disregardPrevious, force, applied, now);
    }

    method TryDeactivateShardServer(
        nodeID: nat, force: bool, now: nat,
        ghost log: seq<Message>, ghost states: seq<State>, ghost histories: seq<History>, ghost applied: nat)
      returns (ok: bool)
      requires Ready() && Run(log, states, histories) && Safe(states, AsWorld(applied, now))
      modifies activations, config`quorums, config`shardServers
      ensures ControllerRuns.Step(Limits(), log, states, old(AsWorld(applied, now)), TryDeactivate(nodeID, force))
              == if ok then Some(AsWorld(applied, now)) else None
      ensures ok ==> Ready()
    {
      hide ControllerRuns.Step, Run, Safe, TriedAll, Deactivated;
      SafeIsValid(log, states, histories, applied, now);
      TrySteps(Limits(), log, states, AsWorld(applied, now), nodeID, false, force);
      ok := Deactivate(nodeID, force, applied, now);
    }
  }
}
