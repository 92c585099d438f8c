// Primary leases of quorums (src/Application/ConfigServer/ConfigPrimaryLeaseManager.cpp): a list in
// order of expiry, the primaries shown in the state, and a timer.

module PrimaryLeases {
  import opened KeyedLists
  import opened Schema
  import opened ConfigStates
  import opened Lookups

  const PAXOSLEASE_MAX_LEASE_TIME: nat := 3000

  // serial stands for the identity of the object.
  datatype PrimaryLease = PrimaryLease(quorumID: nat, nodeID: nat, expireTime: nat, serial: nat)

  // The time from the assignment of a lease to the last expiry set for it; periods are numbered by
  // the serials of their leases.
  datatype Period = Period(quorumID: nat, nodeID: nat, start: nat, end: nat)

  // ---- the list

  predicate InOrder(l: seq<PrimaryLease>) {
    l == [] || ((forall y :: y in l[1..] ==> l[0].expireTime <= y.expireTime) && InOrder(l[1..]))
  }

  predicate Distinct(l: seq<PrimaryLease>) {
    l == [] || ((forall y :: y in l[1..] ==> y.serial != l[0].serial) && Distinct(l[1..]))
  }

  // InSortedList::Add: before the first larger element.
  function AddLease(l: seq<PrimaryLease>, x: PrimaryLease): (r: seq<PrimaryLease>)
    ensures forall y :: y in r <==> y in l || y == x
    ensures InOrder(l) ==> InOrder(r)
    ensures Distinct(l) && (forall y :: y in l ==> y.serial != x.serial) ==> Distinct(r)
  {
    if l == [] then [x]
    else if x.expireTime < l[0].expireTime then [x] + l
    else [l[0]] + AddLease(l[1..], x)
  }

  function FirstOf(l: seq<PrimaryLease>, quorumID: nat): (r: Option<PrimaryLease>)
    ensures r.Some? ==> r.value in l && r.value.quorumID == quorumID
    ensures r.None? ==> forall y :: y in l ==> y.quorumID != quorumID
  {
    if l == [] then None else if l[0].quorumID == quorumID then Some(l[0]) else FirstOf(l[1..], quorumID)
  }

  function RemoveFirst(l: seq<PrimaryLease>, quorumID: nat): (r: seq<PrimaryLease>)
    ensures forall y :: y in r ==> y in l
    ensures forall y :: y in l && FirstOf(l, quorumID) != Some(y) ==> y in r
    ensures InOrder(l) ==> InOrder(r)
    ensures Distinct(l) ==> Distinct(r)
    ensures Distinct(l) && FirstOf(l, quorumID).Some? ==> forall y :: y in r ==> y.serial != FirstOf(l, quorumID).value.serial
  {
    if l == [] then [] else if l[0].quorumID == quorumID then l[1..] else [l[0]] + RemoveFirst(l[1..], quorumID)
  }

  // The leases that are not over, as a filter of the whole list.
  function Unexpired(l: seq<PrimaryLease>, now: nat): seq<PrimaryLease> {
    if l == [] then [] else (if l[0].expireTime < now then [] else [l[0]]) + Unexpired(l[1..], now)
  }

  lemma {:induction false} NoneExpired(l: seq<PrimaryLease>, now: nat)
    requires InOrder(l) && (l != [] ==> l[0].expireTime >= now)
    ensures Unexpired(l, now) == l
  {
    if l != [] {
      assert l == [l[0]] + l[1..];
      if |l| > 1 { assert l[1..][0] in l[1..]; }
      NoneExpired(l[1..], now);
    }
  }

  // ---- exclusion

  ghost predicate Listed(l: seq<PrimaryLease>, p: nat) { exists x :: x in l && x.serial == p }

  predicate Matches(x: PrimaryLease, periods: seq<Period>) {
    x.serial < |periods| && periods[x.serial].quorumID == x.quorumID && periods[x.serial].nodeID == x.nodeID
    && periods[x.serial].end == x.expireTime
  }

  // Every lease has its period; the periods without a lease are over.
  ghost predicate Tracked(l: seq<PrimaryLease>, periods: seq<Period>, now: nat) {
    && (forall x :: x in l ==> Matches(x, periods))
    && (forall p :: 0 <= p < |periods| ==>
          periods[p].start <= now && periods[p].start <= periods[p].end && (periods[p].end < now || Listed(l, p)))
  }

  predicate Rivals(a: Period, b: Period) { a.quorumID == b.quorumID && a.nodeID != b.nodeID }

  predicate Apart(a: Period, b: Period) { a.end < b.start || b.end < a.start }

  // The periods of different nodes for one quorum do not overlap.
  predicate Exclusive(periods: seq<Period>) {
    forall a, b :: 0 <= a < |periods| && 0 <= b < |periods| && Rivals(periods[a], periods[b]) ==> Apart(periods[a], periods[b])
  }

  // A listed lease came after all those of other nodes.
  ghost predicate Latest(l: seq<PrimaryLease>, periods: seq<Period>) {
    forall x, b :: x in l && x.serial < |periods| && 0 <= b < |periods| && Rivals(periods[x.serial], periods[b]) ==>
      periods[b].end < periods[x.serial].start
  }

  ghost predicate Sound(l: seq<PrimaryLease>, periods: seq<Period>, now: nat) {
    InOrder(l) && Distinct(l) && Tracked(l, periods, now) && Exclusive(periods) && Latest(l, periods)
  }

  // No listed lease of the quorum belongs to another node.
  predicate NoOther(l: seq<PrimaryLease>, quorumID: nat, nodeID: nat) {
    forall x :: x in l && x.quorumID == quorumID ==> x.nodeID == nodeID
  }

  lemma OneHolder(l: seq<PrimaryLease>, periods: seq<Period>, now: nat, x: PrimaryLease, y: PrimaryLease)
    requires Sound(l, periods, now) && x in l && y in l && x.quorumID == y.quorumID
    ensures x.nodeID == y.nodeID
  {
    assert Matches(x, periods) && Matches(y, periods);
    if x.nodeID != y.nodeID {
      assert Rivals(periods[x.serial], periods[y.serial]) && Rivals(periods[y.serial], periods[x.serial]);
    }
  }

  lemma TimePasses(l: seq<PrimaryLease>, periods: seq<Period>, now: nat, now': nat)
    requires Sound(l, periods, now) && now <= now'
    ensures Sound(l, periods, now')
  {}

  function Assigned(l: seq<PrimaryLease>, periods: seq<Period>, quorumID: nat, nodeID: nat, expireTime: nat): seq<PrimaryLease> {
    AddLease(l, PrimaryLease(quorumID, nodeID, expireTime, |periods|))
  }

  lemma AssignTracked(l: seq<PrimaryLease>, periods: seq<Period>, now: nat, q: nat, n: nat, e: nat)
    requires Tracked(l, periods, now)
    requires now <= e
    ensures Tracked(Assigned(l, periods, q, n, e), periods + [Period(q, n, now, e)], now)
  {
    var x := PrimaryLease(q, n, e, |periods|);
    var l', periods' := AddLease(l, x), periods + [Period(q, n, now, e)];
    forall y | y in l' ensures Matches(y, periods') {
      if y != x { assert Matches(y, periods); }
    }
    forall p | 0 <= p < |periods'| 
      ensures periods'[p].start <= now && periods'[p].start <= periods'[p].end && (periods'[p].end < now || Listed(l', p))
    {
      if p < |periods| {
        assert periods'[p] == periods[p];
        if Listed(l, p) {
          var y :| y in l && y.serial == p;
          assert y in l';
        }
      } else {
        assert x in l' && x.serial == p;
      }
    }
  }

  // A lease is assigned only if no other node's lease is listed, so all other periods are over.
  lemma AssignExclusive(l: seq<PrimaryLease>, periods: seq<Period>, now: nat, q: nat, n: nat, e: nat)
    requires Sound(l, periods, now) && NoOther(l, q, n)
    ensures Exclusive(periods + [Period(q, n, now, e)])
    ensures Latest(Assigned(l, periods, q, n, e), periods + [Period(q, n, now, e)])
  {
    var new' := Period(q, n, now, e);
    var periods' := periods + [new'];
    forall b | 0 <= b < |periods| && Rivals(new', periods[b]) ensures periods[b].end < now {
      forall x | x in l ensures x.serial != b { assert Matches(x, periods); }
      assert !Listed(l, b);
    }
    forall a, b | 0 <= a < |periods'| && 0 <= b < |periods'| && Rivals(periods'[a], periods'[b])
      ensures Apart(periods'[a], periods'[b])
    {
      if a < |periods| && b < |periods| {
        assert Rivals(periods[a], periods[b]);
      } else if a < |periods| {
        assert Rivals(new', periods[a]);
      } else if b < |periods| {
        assert Rivals(new', periods[b]);
      }
    }
    var l' := Assigned(l, periods, q, n, e);
    forall x, b | x in l' && x.serial < |periods'| && 0 <= b < |periods'| && Rivals(periods'[x.serial], periods'[b])
      ensures periods'[b].end < periods'[x.serial].start
    {
      if x.serial < |periods| {
        assert x in l;
        assert Matches(x, periods);
        assert b < |periods|;
        assert Rivals(periods[x.serial], periods[b]);
      }
    }
  }

  lemma AssignSound(l: seq<PrimaryLease>, periods: seq<Period>, now: nat, q: nat, n: nat, e: nat)
    requires Sound(l, periods, now) && NoOther(l, q, n)
    requires now <= e
    ensures Sound(Assigned(l, periods, q, n, e), periods + [Period(q, n, now, e)], now)
  {
    AssignTracked(l, periods, now, q, n, e);
    AssignExclusive(l, periods, now, q, n, e);
    forall y | y in l ensures y.serial != |periods| { assert Matches(y, periods); }
  }

  function Extended(l: seq<PrimaryLease>, q: nat, e: nat): seq<PrimaryLease>
    requires FirstOf(l, q).Some?
  {
    AddLease(RemoveFirst(l, q), FirstOf(l, q).value.(expireTime := e))
  }

  function ExtendedPeriods(periods: seq<Period>, x: PrimaryLease, e: nat): seq<Period>
    requires x.serial < |periods|
  {
    periods[x.serial := periods[x.serial].(end := e)]
  }

  lemma ExtendTracked(l: seq<PrimaryLease>, periods: seq<Period>, now: nat, q: nat, e: nat)
    requires Distinct(l) && Tracked(l, periods, now) && FirstOf(l, q).Some?
    requires now <= e
    ensures Matches(FirstOf(l, q).value, periods)
    ensures Tracked(Extended(l, q, e), ExtendedPeriods(periods, FirstOf(l, q).value, e), now)
  {
    var x := FirstOf(l, q).value;
    assert Matches(x, periods);
    var l', periods' := Extended(l, q, e), ExtendedPeriods(periods, x, e);
    var x' := x.(expireTime := e);
    forall y | y in l' ensures Matches(y, periods') {
      if y != x' {
        assert y in RemoveFirst(l, q);
        assert Matches(y, periods) && y.serial != x.serial;
      }
    }
    forall p | 0 <= p < |periods'| 
      ensures periods'[p].start <= now && periods'[p].start <= periods'[p].end && (periods'[p].end < now || Listed(l', p))
    {
      if p == x.serial {
        assert x' in l' && x'.serial == p;
      } else {
        assert periods'[p] == periods[p];
        if Listed(l, p) {
          var y :| y in l && y.serial == p;
          assert y in RemoveFirst(l, q);
          assert y in l';
        }
      }
    }
  }

  lemma ExtendExclusive(l: seq<PrimaryLease>, periods: seq<Period>, now: nat, q: nat, e: nat)
    requires Sound(l, periods, now) && FirstOf(l, q).Some? && Matches(FirstOf(l, q).value, periods)
    ensures var periods' := ExtendedPeriods(periods, FirstOf(l, q).value, e);
            Exclusive(periods') && Latest(Extended(l, q, e), periods')
  {
    var x := FirstOf(l, q).value;
    var l', periods' := Extended(l, q, e), ExtendedPeriods(periods, x, e);
    forall b | 0 <= b < |periods| && Rivals(periods[x.serial], periods[b])
      ensures periods[b].end < periods[x.serial].start
    {
      assert x in l;
    }
    forall a, b | 0 <= a < |periods'| && 0 <= b < |periods'| && Rivals(periods'[a], periods'[b])
      ensures Apart(periods'[a], periods'[b])
    {
      assert Rivals(periods[a], periods[b]) && Rivals(periods[b], periods[a]);
    }
    forall y, b | y in l' && y.serial < |periods'| && 0 <= b < |periods'| && Rivals(periods'[y.serial], periods'[b])
      ensures periods'[b].end < periods'[y.serial].start
    {
      assert Rivals(periods[y.serial], periods[b]);
      if y.serial != x.serial {
        assert y in l && Matches(y, periods);
        if b == x.serial { OneHolder(l, periods, now, x, y); }
      }
    }
  }

  lemma ExtendSound(l: seq<PrimaryLease>, periods: seq<Period>, now: nat, q: nat, e: nat)
    requires Sound(l, periods, now) && FirstOf(l, q).Some?
    requires now <= e
    ensures Matches(FirstOf(l, q).value, periods)
    ensures Sound(Extended(l, q, e), ExtendedPeriods(periods, FirstOf(l, q).value, e), now)
  {
    ExtendTracked(l, periods, now, q, e);
    ExtendExclusive(l, periods, now, q, e);
  }

  // A lease is dropped only when it is over.
  lemma ExpireSound(l: seq<PrimaryLease>, periods: seq<Period>, now: nat)
    requires Sound(l, periods, now) && l != [] && l[0].expireTime < now
    ensures Sound(l[1..], periods, now)
  {
    forall p | 0 <= p < |periods| && periods[p].end >= now ensures Listed(l[1..], p) {
      assert Listed(l, p);
      var y :| y in l && y.serial == p;
      assert Matches(y, periods);
      assert y != l[0] && y in l[1..];
    }
  }

  // ---- primaries

  ghost predicate HasLease(l: seq<PrimaryLease>, quorumID: nat, nodeID: nat) {
    exists x :: x in l && x.quorumID == quorumID && x.nodeID == nodeID
  }

  // A quorum that shows a primary has a listed lease of that node.
  ghost predicate PrimariesListed(quorums: seq<Keyed<Quorum>>, l: seq<PrimaryLease>) {
    forall q :: q in AsMap(quorums) && AsMap(quorums)[q].hasPrimary ==> HasLease(l, q, AsMap(quorums)[q].primaryID)
  }

  function SetPrimary(quorums: seq<Keyed<Quorum>>, quorumID: nat, nodeID: nat): seq<Keyed<Quorum>>
    requires Has(quorums, quorumID)
  {
    Put(quorums, quorumID, Get(quorums, quorumID).(hasPrimary := true, primaryID := nodeID))
  }

  // The quorum may have been deleted.
  function ClearPrimary(quorums: seq<Keyed<Quorum>>, quorumID: nat): seq<Keyed<Quorum>> {
    if Has(quorums, quorumID) then Put(quorums, quorumID, Get(quorums, quorumID).(hasPrimary := false, primaryID := 0))
    else quorums
  }

  lemma MoreLeases(quorums: seq<Keyed<Quorum>>, l: seq<PrimaryLease>, l': seq<PrimaryLease>)
    requires PrimariesListed(quorums, l)
    requires forall x :: x in l ==> HasLease(l', x.quorumID, x.nodeID)
    ensures PrimariesListed(quorums, l')
  {
    forall q | q in AsMap(quorums) && AsMap(quorums)[q].hasPrimary ensures HasLease(l', q, AsMap(quorums)[q].primaryID) {
      assert HasLease(l, q, AsMap(quorums)[q].primaryID);
    }
  }

  lemma AssignPrimaries(quorums: seq<Keyed<Quorum>>, l: seq<PrimaryLease>, x: PrimaryLease)
    requires PrimariesListed(quorums, l) && Has(quorums, x.quorumID)
    ensures PrimariesListed(SetPrimary(quorums, x.quorumID, x.nodeID), AddLease(l, x))
  {
    var l' := AddLease(l, x);
    forall y | y in l ensures HasLease(l', y.quorumID, y.nodeID) { assert y in l'; }
    MoreLeases(quorums, l, l');
    assert x in l';
    hide AddLease;
  }

  lemma ExtendPrimaries(quorums: seq<Keyed<Quorum>>, l: seq<PrimaryLease>, q: nat, e: nat)
    requires PrimariesListed(quorums, l) && FirstOf(l, q).Some?
    ensures PrimariesListed(quorums, Extended(l, q, e))
  {
    var l', x' := Extended(l, q, e), FirstOf(l, q).value.(expireTime := e);
    forall y | y in l ensures HasLease(l', y.quorumID, y.nodeID) {
      if Some(y) == FirstOf(l, q) { assert x' in l'; } else { assert y in l'; }
    }
    MoreLeases(quorums, l, l');
  }

  lemma ExpirePrimaries(quorums: seq<Keyed<Quorum>>, l: seq<PrimaryLease>)
    requires PrimariesListed(quorums, l) && l != []
    ensures PrimariesListed(ClearPrimary(quorums, l[0].quorumID), l[1..])
  {
    var quorums' := ClearPrimary(quorums, l[0].quorumID);
    forall q | q in AsMap(quorums') && AsMap(quorums')[q].hasPrimary ensures HasLease(l[1..], q, AsMap(quorums')[q].primaryID) {
      assert q != l[0].quorumID && AsMap(quorums')[q] == AsMap(quorums)[q];
      assert HasLease(l, q, AsMap(quorums)[q].primaryID);
      var x :| x in l && x.quorumID == q && x.nodeID == AsMap(quorums)[q].primaryID;
      assert x != l[0] && x in l[1..];
    }
  }

  // A step elsewhere that only takes primaries away.
  ghost predicate PrimariesKept(quorums: seq<Keyed<Quorum>>, quorums': seq<Keyed<Quorum>>) {
    forall q :: q in AsMap(quorums') && AsMap(quorums')[q].hasPrimary ==>
      q in AsMap(quorums) && AsMap(quorums)[q].hasPrimary && AsMap(quorums)[q].primaryID == AsMap(quorums')[q].primaryID
  }

  lemma KeptAreListed(quorums: seq<Keyed<Quorum>>, quorums': seq<Keyed<Quorum>>, l: seq<PrimaryLease>)
    requires PrimariesListed(quorums, l) && PrimariesKept(quorums, quorums')
    ensures PrimariesListed(quorums', l)
  {}

  // ---- expiry

  datatype Expiry = Expiry(leases: seq<PrimaryLease>, quorums: seq<Keyed<Quorum>>, migrating: bool)

  // The quorum of the shard that is being migrated, if there is one.
  function SourceOf(s: State): Option<nat> {
    if s.isMigrating && Has(s.shards, s.migrateSrcShardID) then Some(Get(s.shards, s.migrateSrcShardID).quorumID) else None
  }

  // Only primaries change, and a migration may be given up.
  predicate MayAbort(s: State, s': State) {
    s' == var s1 := s.(quorums := s'.quorums); if s.isMigrating && !s'.isMigrating then AbortShardMigration(s1) else s1
  }

  // The loop over the expired leases.  While a migration is under way its shard and the quorum of
  // the lease must be there; a lease of either of its quorums ends it.
  function ExpireAll(
      l: seq<PrimaryLease>, quorums: seq<Keyed<Quorum>>, migrating: bool, src: Option<nat>, dst: nat, now: nat): Result<Expiry>
  {
    if l == [] || l[0].expireTime >= now then Ok(Expiry(l, quorums, migrating))
    else if migrating && (src.None? || !Has(quorums, l[0].quorumID)) then Stopped
    else
      var still := migrating && dst != l[0].quorumID && src != Some(l[0].quorumID);
      ExpireAll(l[1..], ClearPrimary(quorums, l[0].quorumID), still, src, dst, now)
  }

  // The i-th lease is over and its quorum, or the shard of the migration, is gone, before any lease of
  // a quorum of the migration.
  predicate LostAt(l: seq<PrimaryLease>, quorums: seq<Keyed<Quorum>>, src: Option<nat>, dst: nat, now: nat, i: nat)
    requires i < |l|
  {
    && (src.None? || !Has(quorums, l[i].quorumID))
    && (forall j :: 0 <= j <= i ==> l[j].expireTime < now)
    && (forall j :: 0 <= j < i ==> l[j].quorumID != dst && src != Some(l[j].quorumID))
  }

  predicate LosesTrack(
      l: seq<PrimaryLease>, quorums: seq<Keyed<Quorum>>, migrating: bool, src: Option<nat>, dst: nat, now: nat)
  {
    migrating && exists i :: 0 <= i < |l| && LostAt(l, quorums, src, dst, now, i)
  }

  lemma ClearedHas(quorums: seq<Keyed<Quorum>>, quorumID: nat)
    ensures forall q :: Has(ClearPrimary(quorums, quorumID), q) <==> Has(quorums, q)
  {}

  lemma LostLater(l: seq<PrimaryLease>, quorums: seq<Keyed<Quorum>>, src: Option<nat>, dst: nat, now: nat, i: nat)
    requires i + 1 < |l| && l[0].expireTime < now
    ensures LostAt(l, quorums, src, dst, now, i + 1) <==>
              l[0].quorumID != dst && src != Some(l[0].quorumID)
              && LostAt(l[1..], ClearPrimary(quorums, l[0].quorumID), src, dst, now, i)
  {
    ClearedHas(quorums, l[0].quorumID);
    hide ClearPrimary, AsMap;
    var rest := l[1..];
    assert forall j :: 0 <= j < |rest| ==> rest[j] == l[j + 1];
    assert forall j :: 0 < j < |l| ==> l[j] == rest[j - 1];
  }

  // The controller stops exactly then.
  lemma {:induction false} ExpireStops(
      l: seq<PrimaryLease>, quorums: seq<Keyed<Quorum>>, migrating: bool, src: Option<nat>, dst: nat, now: nat)
    ensures ExpireAll(l, quorums, migrating, src, dst, now).Ok? <==> !LosesTrack(l, quorums, migrating, src, dst, now)
  {
    hide AsMap, ClearPrimary;
    if l == [] || l[0].expireTime >= now {
    } else if migrating && (src.None? || !Has(quorums, l[0].quorumID)) {
      assert LostAt(l, quorums, src, dst, now, 0);
    } else {
      var still := migrating && dst != l[0].quorumID && src != Some(l[0].quorumID);
      var rest, quorums' := l[1..], ClearPrimary(quorums, l[0].quorumID);
      ExpireStops(rest, quorums', still, src, dst, now);
      assert migrating ==> !LostAt(l, quorums, src, dst, now, 0);
      hide LostAt;
      if LosesTrack(l, quorums, migrating, src, dst, now) {
        var i :| 0 <= i < |l| && LostAt(l, quorums, src, dst, now, i);
        LostLater(l, quorums, src, dst, now, i - 1);
      }
      if LosesTrack(rest, quorums', still, src, dst, now) {
        var i :| 0 <= i < |rest| && LostAt(rest, quorums', src, dst, now, i);
        LostLater(l, quorums, src, dst, now, i);
      }
    }
  }

  lemma ClearedKept(quorums: seq<Keyed<Quorum>>, quorumID: nat)
    ensures PrimariesKept(quorums, ClearPrimary(quorums, quorumID))
  {}

  lemma KeptTwice(a: seq<Keyed<Quorum>>, b: seq<Keyed<Quorum>>, c: seq<Keyed<Quorum>>)
    requires PrimariesKept(a, b) && PrimariesKept(b, c)
    ensures PrimariesKept(a, c)
  {}

  lemma SoundInOrder(l: seq<PrimaryLease>, periods: seq<Period>, now: nat)
    requires Sound(l, periods, now)
    ensures InOrder(l)
  {}

  // Main result: stopping at the first lease that is not over leaves the same leases as a filter of
  // the whole list, and everything stays sound.
  lemma {:induction false} ExpireAllIsFilter(
      l: seq<PrimaryLease>, periods: seq<Period>, quorums: seq<Keyed<Quorum>>, migrating: bool, src: Option<nat>, dst: nat, now: nat)
    requires Sound(l, periods, now) && PrimariesListed(quorums, l)
    requires ExpireAll(l, quorums, migrating, src, dst, now).Ok?
    ensures var r := ExpireAll(l, quorums, migrating, src, dst, now).value;
            r.leases == Unexpired(l, now) && Sound(r.leases, periods, now) && PrimariesListed(r.quorums, r.leases)
            && PrimariesKept(quorums, r.quorums) && (r.migrating ==> migrating)
  {
    hide Sound, PrimariesListed, AsMap, IndexOf;
    SoundInOrder(l, periods, now);
    if l == [] || l[0].expireTime >= now {
      NoneExpired(l, now);
    } else {
      ExpireSound(l, periods, now);
      ExpirePrimaries(quorums, l);
      ClearedKept(quorums, l[0].quorumID);
      hide ClearPrimary, InOrder, PrimariesKept;
      assert Unexpired(l, now) == [] + Unexpired(l[1..], now) == Unexpired(l[1..], now);
      var still := migrating && dst != l[0].quorumID && src != Some(l[0].quorumID);
      ExpireAllIsFilter(l[1..], periods, ClearPrimary(quorums, l[0].quorumID), still, src, dst, now);
      KeptTwice(quorums, ClearPrimary(quorums, l[0].quorumID), ExpireAll(l, quorums, migrating, src, dst, now).value.quorums);
    }
  }

  // ---- requests

  // 1 where no priority is set for the quorum.
  function PriorityOf(l: seq<QuorumPriority>, quorumID: nat): nat {
    if l == [] then 1 else if l[0].quorumID == quorumID then l[0].priority else PriorityOf(l[1..], quorumID)
  }

  method GetQuorumPriority(l: seq<QuorumPriority>, quorumID: nat) returns (priority: nat)
    ensures priority == PriorityOf(l, quorumID)
  {
    for i := 0 to |l|
      invariant PriorityOf(l, quorumID) == PriorityOf(l[i..], quorumID)
    {
      if l[i].quorumID == quorumID { return l[i].priority; }
      assert l[i..][1..] == l[i + 1..];
    }
    return 1;
  }

  // The node does not keep another one of that priority from the quorum: it is silent, or registered
  // with no higher priority.
  predicate Yields(servers: seq<Keyed<ShardServer>>, n: nat, quorumID: nat, priority: nat, alive: set<nat>) {
    n in alive ==> Has(servers, n) && PriorityOf(Get(servers, n).quorumPriorities, quorumID) <= priority
  }

  // Going through the nodes, one that is alive and not registered is looked up before one that has a
  // higher priority.
  predicate MeetsUnknown(servers: seq<Keyed<ShardServer>>, nodes: seq<nat>, quorumID: nat, priority: nat, alive: set<nat>) {
    exists k :: 0 <= k < |nodes| && nodes[k] in alive && !Has(servers, nodes[k])
                && forall j :: 0 <= j < k ==> Yields(servers, nodes[j], quorumID, priority, alive)
  }

  datatype Grant = Ignored | Assignment | Extension

  // The decision on a request.  None: a node whose priority is looked up is not registered.
  function Granted(isMaster: bool, s: State, l: seq<PrimaryLease>, quorumID: nat, nodeID: nat, alive: set<nat>): Option<Grant> {
    if !isMaster || !Has(s.quorums, quorumID) || !Get(s.quorums, quorumID).IsActiveMember(nodeID) then Some(Ignored)
    else if !Has(s.shardServers, nodeID) then None
    else
      var q := Get(s.quorums, quorumID);
      var priority := PriorityOf(Get(s.shardServers, nodeID).quorumPriorities, quorumID);
      if priority == 0 then Some(Ignored)
      else if MeetsUnknown(s.shardServers, q.activeNodes, quorumID, priority, alive) then None
      else if !(forall n :: n in q.activeNodes ==> Yields(s.shardServers, n, quorumID, priority, alive)) then Some(Ignored)
      else if !NoOther(l, quorumID, nodeID) then Some(Ignored)
      else if !q.hasPrimary then Some(Assignment)
      else if q.primaryID == nodeID then Some(Extension)
      else Some(Ignored)
  }

  // A lease is granted exactly to a registered active member with a priority that no live member
  // exceeds, while no other node has one listed or is shown as primary.
  lemma GrantedMeans(isMaster: bool, s: State, l: seq<PrimaryLease>, quorumID: nat, nodeID: nat, alive: set<nat>)
    ensures var g := Granted(isMaster, s, l, quorumID, nodeID, alive);
            g == Some(Assignment) || g == Some(Extension) <==>
              isMaster && Has(s.quorums, quorumID) && Has(s.shardServers, nodeID) &&
              var q := Get(s.quorums, quorumID);
              var priority := PriorityOf(Get(s.shardServers, nodeID).quorumPriorities, quorumID);
              && q.IsActiveMember(nodeID) && priority > 0
              && (forall n :: n in q.activeNodes && n in alive ==>
                    Has(s.shardServers, n) && PriorityOf(Get(s.shardServers, n).quorumPriorities, quorumID) <= priority)
              && NoOther(l, quorumID, nodeID) && (q.hasPrimary ==> q.primaryID == nodeID)
    ensures Has(s.quorums, quorumID) && Has(s.shardServers, nodeID)
            && (forall n :: n in Get(s.quorums, quorumID).activeNodes && n in alive ==> Has(s.shardServers, n)) ==>
              Granted(isMaster, s, l, quorumID, nodeID, alive).Some?
  {
    if Has(s.quorums, quorumID) && Has(s.shardServers, nodeID) {
      var nodes, priority := Get(s.quorums, quorumID).activeNodes, PriorityOf(Get(s.shardServers, nodeID).quorumPriorities, quorumID);
      forall k | 0 <= k < |nodes| ensures nodes[k] in nodes {}
      assert (forall n :: n in nodes && n in alive ==>
                Has(s.shardServers, n) && PriorityOf(Get(s.shardServers, n).quorumPriorities, quorumID) <= priority)
             <==> forall n :: n in nodes ==> Yields(s.shardServers, n, quorumID, priority, alive);
    }
  }

  function Length(duration: nat): nat { if duration < PAXOSLEASE_MAX_LEASE_TIME then duration else PAXOSLEASE_MAX_LEASE_TIME }

  ghost predicate HasLeaseUntil(l: seq<PrimaryLease>, quorumID: nat, nodeID: nat, expireTime: nat) {
    exists x :: x in l && x.quorumID == quorumID && x.nodeID == nodeID && x.expireTime == expireTime
  }

  lemma ExtendStep(
      l: seq<PrimaryLease>, periods: seq<Period>, quorums: seq<Keyed<Quorum>>, now: nat, q: nat, n: nat, e: nat)
    requires Sound(l, periods, now) && PrimariesListed(quorums, l) && HasLease(l, q, n) && NoOther(l, q, n) && now <= e
    ensures FirstOf(l, q).Some? && FirstOf(l, q).value.serial < |periods|
    ensures Sound(Extended(l, q, e), ExtendedPeriods(periods, FirstOf(l, q).value, e), now)
    ensures PrimariesListed(quorums, Extended(l, q, e))
    ensures HasLeaseUntil(Extended(l, q, e), q, n, e) && NoOther(Extended(l, q, e), q, n)
  {
    ExtendSound(l, periods, now, q, e);
    ExtendPrimaries(quorums, l, q, e);
    assert FirstOf(l, q).value.(expireTime := e) in Extended(l, q, e);
  }

  lemma ShownIsListed(quorums: seq<Keyed<Quorum>>, l: seq<PrimaryLease>, q: nat)
    requires PrimariesListed(quorums, l) && Has(quorums, q) && Get(quorums, q).hasPrimary
    ensures HasLease(l, q, Get(quorums, q).primaryID)
  {}

  lemma ExtendedLength(periods: seq<Period>, x: PrimaryLease, e: nat)
    requires x.serial < |periods|
    ensures |ExtendedPeriods(periods, x, e)| == |periods|
  {}

  method FindLease(l: seq<PrimaryLease>, quorumID: nat) returns (i: nat)
    ensures i <= |l| && (i == |l| <==> FirstOf(l, quorumID).None?)
    ensures i < |l| ==> FirstOf(l, quorumID) == Some(l[i]) && RemoveFirst(l, quorumID) == l[..i] + l[i + 1..]
  {
    i := 0;
    while i < |l| && l[i].quorumID != quorumID
      invariant i <= |l|
      invariant FirstOf(l, quorumID) == FirstOf(l[i..], quorumID)
      invariant RemoveFirst(l, quorumID) == l[..i] + RemoveFirst(l[i..], quorumID)
    {
      PassOver(l, i, quorumID);
      i := i + 1;
    }
    if i < |l| { assert l[i..][1..] == l[i + 1..]; }
  }

  lemma PassOver(l: seq<PrimaryLease>, i: nat, quorumID: nat)
    requires i < |l| && l[i].quorumID != quorumID
    ensures FirstOf(l[i..], quorumID) == FirstOf(l[i + 1..], quorumID)
    ensures l[..i] + RemoveFirst(l[i..], quorumID) == l[..i + 1] + RemoveFirst(l[i + 1..], quorumID)
  {
    assert l[i..][1..] == l[i + 1..] && l[i..][0] == l[i];
    assert l[..i] + ([l[i]] + RemoveFirst(l[i + 1..], quorumID)) == (l[..i] + [l[i]]) + RemoveFirst(l[i + 1..], quorumID);
    assert l[..i + 1] == l[..i] + [l[i]];
  }

  lemma {:induction false} UnexpiredMeans(l: seq<PrimaryLease>, now: nat, y: PrimaryLease)
    ensures y in Unexpired(l, now) <==> y in l && y.expireTime >= now
  {
    if l != [] { UnexpiredMeans(l[1..], now, y); }
  }

  lemma {:induction false} LaterOfQuorum(l: seq<PrimaryLease>, q: nat, y: PrimaryLease)
    requires InOrder(l) && y in RemoveFirst(l, q) && y.quorumID == q
    ensures FirstOf(l, q).Some? && FirstOf(l, q).value.expireTime <= y.expireTime
  {
    if l[0].quorumID != q { LaterOfQuorum(l[1..], q, y); }
  }

  // Main result: when the grant of a lease as it was would have ended, an extension of it still keeps
  // the quorum from every other node if and only if the new expiry is not before the old one, or
  // the quorum has a second lease listed.
  lemma GrantKeptUntilItsEnd(
      l: seq<PrimaryLease>, periods: seq<Period>, now: nat, q: nat, e: nat, x: PrimaryLease, other: nat)
    requires Sound(l, periods, now) && FirstOf(l, q) == Some(x) && other != x.nodeID
    ensures !NoOther(Unexpired(Extended(l, q, e), x.expireTime), q, other) <==>
            e >= x.expireTime || FirstOf(RemoveFirst(l, q), q).Some?
  {
    var rest, l' := RemoveFirst(l, q), Extended(l, q, e);
    var x' := x.(expireTime := e);
    forall y ensures y in Unexpired(l', x.expireTime) <==> (y in rest || y == x') && y.expireTime >= x.expireTime {
      UnexpiredMeans(l', x.expireTime, y);
    }
    forall y | y in rest && y.quorumID == q ensures y.nodeID != other && y.expireTime >= x.expireTime {
      LaterOfQuorum(l, q, y);
      OneHolder(l, periods, now, x, y);
    }
    if FirstOf(rest, q).Some? { assert FirstOf(rest, q).value in rest; }
    assert x'.quorumID == q && x'.nodeID != other;
  }

  // Such extensions occur: a node is granted 3000 and extends by 10 at once, and at 12 the quorum is
  // free for any other node.
  lemma ShorterExtension(quorumID: nat, nodeID: nat, other: nat)
    requires nodeID != other
    ensures var l := Extended(Assigned([], [], quorumID, nodeID, Length(3000)), quorumID, 1 + Length(10));
            !NoOther(l, quorumID, other) && NoOther(Unexpired(l, 12), quorumID, other)
  {
    var x := PrimaryLease(quorumID, nodeID, 3000, 0);
    assert Assigned([], [], quorumID, nodeID, 3000) == [x];
    assert RemoveFirst([x], quorumID) == [];
    assert Extended([x], quorumID, 11) == [x.(expireTime := 11)];
    assert [x.(expireTime := 11)][1..] == [];
    assert x.(expireTime := 11) in [x.(expireTime := 11)];
  }

  class ConfigPrimaryLeaseManager {
    const config: ConfigState
    var primaryLeases: seq<PrimaryLease>
    var timerActive: bool
    var timerExpireTime: nat
    var created: nat
    ghost var periods: seq<Period>

    ghost predicate Valid(now: nat)
      reads this, config
    {
      && created == |periods| && Sound(primaryLeases, periods, now)
      && PrimariesListed(config.quorums, primaryLeases)
      && TimerSet()
    }

    // The timer fires no later than the first lease expires.
    predicate TimerSet()
      reads this
    {
      primaryLeases != [] ==> timerActive && timerExpireTime <= primaryLeases[0].expireTime
    }

    // The timer once it follows the list, from what it was.
    predicate TimerAfter(wasActive: bool, was: nat)
      reads this
    {
      if primaryLeases == [] then timerActive == wasActive && timerExpireTime == was
      else
        timerActive && timerExpireTime <= primaryLeases[0].expireTime
        && timerExpireTime == (if wasActive && was < primaryLeases[0].expireTime then was else primaryLeases[0].expireTime)
    }

    constructor (config: ConfigState)
      requires PrimariesListed(config.quorums, [])
      ensures this.config == config && Valid(0) && periods == []
    {
      this.config := config;
      primaryLeases, timerActive, timerExpireTime, created, periods := [], false, 0, 0, [];
    }

    // An active timer is only moved forward, to the first expiry; one that is not active is set to it.
    method UpdateTimer()
      modifies this`timerActive, this`timerExpireTime
      ensures TimerSet() && TimerAfter(old(timerActive), old(timerExpireTime))
    {
      if primaryLeases == [] { return; }
      if !timerActive || primaryLeases[0].expireTime < timerExpireTime {
        timerActive, timerExpireTime := true, primaryLeases[0].expireTime;
      }
    }

    // The timer has fired, so it is not active any more.
    method OnPrimaryLeaseTimeout(now: nat, ghost before: nat) returns (ok: bool)
      requires Valid(before) && before <= now
      modifies this, config`quorums, config`isMigrating, config`migrateQuorumID, config`migrateSrcShardID,
               config`migrateDstShardID
      ensures ok ==> Valid(now) && periods == old(periods) && primaryLeases == Unexpired(old(primaryLeases), now)
      ensures ok ==> PrimariesKept(old(config.quorums), config.quorums)
      ensures ok <==> !LosesTrack(old(primaryLeases), old(config.quorums), old(config.isMigrating), SourceOf(old(config.View())),
                                  old(config.migrateQuorumID), now)
      ensures ok ==> MayAbort(old(config.View()), config.View())
      ensures ok ==> (timerActive <==> primaryLeases != []) && (timerActive ==> timerExpireTime == primaryLeases[0].expireTime)
      ensures var r := ExpireAll(old(primaryLeases), old(config.quorums), old(config.isMigrating), SourceOf(old(config.View())),
                                 old(config.migrateQuorumID), now);
              ok == r.Ok? && (ok ==> r == Ok(Expiry(primaryLeases, config.quorums, config.isMigrating)))
    {
      hide Sound, PrimariesListed, PrimariesKept, Unexpired;
      timerActive := false;
      var src := SourceQuorum();
      TimePasses(primaryLeases, periods, before, now);
      ghost var l, qs, m := primaryLeases, config.quorums, config.isMigrating;
      ExpireStops(l, qs, m, src, config.migrateQuorumID, now);
      hide LosesTrack;
      if ExpireAll(l, qs, m, src, config.migrateQuorumID, now).Ok? {
        ExpireAllIsFilter(l, periods, qs, m, src, config.migrateQuorumID, now);
      }
      ok := DropExpired(now, src);
      if ok { UpdateTimer(); }
    }

    method SourceQuorum() returns (src: Option<nat>)
      ensures src == SourceOf(config.View())
    {
      src := None;
      if config.isMigrating {
        var i := Find(config.shards, config.migrateSrcShardID);
        if i < |config.shards| { src := Some(config.shards[i].obj.quorumID); }
      }
    }

    method DropExpired(now: nat, src: Option<nat>) returns (ok: bool)
      modifies this`primaryLeases, config`quorums, config`isMigrating, config`migrateQuorumID, config`migrateSrcShardID,
               config`migrateDstShardID
      ensures var r := ExpireAll(old(primaryLeases), old(config.quorums), old(config.isMigrating), src,
                                 old(config.migrateQuorumID), now);
              ok == r.Ok? && (ok ==> r == Ok(Expiry(primaryLeases, config.quorums, config.isMigrating)))
      ensures ok ==> MayAbort(old(config.View()), config.View())
    {
      var dst := config.migrateQuorumID;
      while primaryLeases != [] && primaryLeases[0].expireTime < now
        invariant ExpireAll(old(primaryLeases), old(config.quorums), old(config.isMigrating), src, dst, now)
                  == ExpireAll(primaryLeases, config.quorums, config.isMigrating, src, dst, now)
        invariant config.isMigrating ==> config.migrateQuorumID == dst
        invariant MayAbort(old(config.View()), config.View())
        decreases |primaryLeases|
      {
        var quorumID := primaryLeases[0].quorumID;
        var q := Find(config.quorums, quorumID);
        if config.isMigrating {
          if src.None? { return false; }
          if q == |config.quorums| { return false; }
          if config.migrateQuorumID == quorumID || src.value == quorumID {
            config.OnAbortShardMigration();
          }
        }
        if q < |config.quorums| {
          config.quorums := config.quorums[q := Keyed(quorumID, config.quorums[q].obj.(hasPrimary := false, primaryID := 0))];
        }
        primaryLeases := primaryLeases[1..];
      }
      return true;
    }

    // The decision on a request, by the loops of the code.
    method Decide(isMaster: bool, quorumID: nat, nodeID: nat, alive: set<nat>) returns (ok: bool, grant: Grant)
      ensures Granted(isMaster, config.View(), primaryLeases, quorumID, nodeID, alive) == if ok then Some(grant) else None
    {
      ok, grant := true, Ignored;
      if !isMaster { return; }
      var i := Find(config.quorums, quorumID);
      if i == |config.quorums| { return; }
      var q := config.quorums[i].obj;
      if !q.IsActiveMember(nodeID) { return; }
      var v := Find(config.shardServers, nodeID);
      if v == |config.shardServers| { return false, Ignored; }
      var priority := GetQuorumPriority(config.shardServers[v].obj.quorumPriorities, quorumID);
      if priority == 0 { return; }
      var known, outranked := Outranked(q.activeNodes, quorumID, priority, alive);
      if !known { return false, Ignored; }
      if outranked { return; }
      for k := 0 to |primaryLeases|
        invariant forall j :: 0 <= j < k && primaryLeases[j].quorumID == quorumID ==> primaryLeases[j].nodeID == nodeID
      {
        if primaryLeases[k].quorumID == quorumID && primaryLeases[k].nodeID != nodeID { return; }
      }
      if q.hasPrimary {
        if q.primaryID == nodeID { grant := Extension; }
      } else {
        grant := Assignment;
      }
    }

    method Outranked(nodes: seq<nat>, quorumID: nat, priority: nat, alive: set<nat>) returns (known: bool, outranked: bool)
      ensures known <==> !MeetsUnknown(config.shardServers, nodes, quorumID, priority, alive)
      ensures known ==> (outranked <==> exists n :: n in nodes && !Yields(config.shardServers, n, quorumID, priority, alive))
    {
      for k := 0 to |nodes|
        invariant forall j :: 0 <= j < k ==> Yields(config.shardServers, nodes[j], quorumID, priority, alive)
      {
        if nodes[k] in alive {
          var v := Find(config.shardServers, nodes[k]);
          if v == |config.shardServers| { return false, false; }
          var other := GetQuorumPriority(config.shardServers[v].obj.quorumPriorities, quorumID);
          if other > priority {
            assert nodes[k] in nodes && !Yields(config.shardServers, nodes[k], quorumID, priority, alive);
            return true, true;
          }
        }
      }
      return true, false;
    }

    // Grants, extends or ignores; a lease lasts as long as asked for, up to three seconds.
    method OnRequestPrimaryLease(
        isMaster: bool, quorumID: nat, nodeID: nat, duration: nat, alive: set<nat>, now: nat, ghost before: nat)
      returns (ok: bool, grant: Grant)
      requires Valid(before) && before <= now
      modifies this, config`quorums
      ensures Granted(isMaster, old(config.View()), old(primaryLeases), quorumID, nodeID, alive) == if ok then Some(grant) else None
      ensures ok ==> Valid(now)
      ensures !ok || grant == Ignored ==>
                primaryLeases == old(primaryLeases) && periods == old(periods) && config.quorums == old(config.quorums)
                && timerActive == old(timerActive) && timerExpireTime == old(timerExpireTime)
      ensures ok && grant != Ignored ==> TimerAfter(old(timerActive), old(timerExpireTime))
      ensures ok && grant != Ignored ==>
                Has(config.quorums, quorumID) && Get(config.quorums, quorumID).hasPrimary
                && Get(config.quorums, quorumID).primaryID == nodeID && NoOther(primaryLeases, quorumID, nodeID)
                && HasLeaseUntil(primaryLeases, quorumID, nodeID, now + Length(duration))
      ensures ok && grant == Assignment ==>
                periods == old(periods) + [Period(quorumID, nodeID, now, now + Length(duration))]
                && primaryLeases == Assigned(old(primaryLeases), old(periods), quorumID, nodeID, now + Length(duration))
                && Has(old(config.quorums), quorumID) && config.quorums == SetPrimary(old(config.quorums), quorumID, nodeID)
      ensures ok && grant == Extension ==>
                FirstOf(old(primaryLeases), quorumID).Some?
                && primaryLeases == Extended(old(primaryLeases), quorumID, now + Length(duration))
                && config.quorums == old(config.quorums)
      ensures ok && grant == Extension ==>
                var x := FirstOf(old(primaryLeases), quorumID).value;
                x.serial < |old(periods)| && periods == ExtendedPeriods(old(periods), x, now + Length(duration))
    {
      TimePasses(primaryLeases, periods, before, now);
      hide Sound, PrimariesListed;
      ok, grant := Decide(isMaster, quorumID, nodeID, alive);
      if !ok || grant == Ignored { return; }
      if grant == Assignment {
        AssignPrimaryLease(quorumID, nodeID, duration, now);
      } else {
        ok := ExtendPrimaryLease(quorumID, nodeID, duration, now);
      }
    }

    method AssignPrimaryLease(quorumID: nat, nodeID: nat, duration: nat, now: nat)
      requires Valid(now) && Has(config.quorums, quorumID) && NoOther(primaryLeases, quorumID, nodeID)
      modifies this, config`quorums
      ensures Valid(now) && config.quorums == SetPrimary(old(config.quorums), quorumID, nodeID)
      ensures periods == old(periods) + [Period(quorumID, nodeID, now, now + Length(duration))]
      ensures NoOther(primaryLeases, quorumID, nodeID)
      ensures HasLeaseUntil(primaryLeases, quorumID, nodeID, now + Length(duration))
      ensures primaryLeases == Assigned(old(primaryLeases), old(periods), quorumID, nodeID, now + Length(duration))
      ensures TimerAfter(old(timerActive), old(timerExpireTime))
    {
      var x := PrimaryLease(quorumID, nodeID, now + Length(duration), created);
      AssignSound(primaryLeases, periods, now, quorumID, nodeID, x.expireTime);
      AssignPrimaries(config.quorums, primaryLeases, x);
      assert x in AddLease(primaryLeases, x);
      hide Sound, PrimariesListed;
      var q := Find(config.quorums, quorumID);
      config.quorums := config.quorums[q := Keyed(quorumID, config.quorums[q].obj.(hasPrimary := true, primaryID := nodeID))];
      primaryLeases := AddLease(primaryLeases, x);
      periods := periods + [Period(quorumID, nodeID, now, x.expireTime)];
      created := created + 1;
      UpdateTimer();
    }

    // The first listed lease of the quorum is taken out and put back with its new expiry.
    method ExtendPrimaryLease(quorumID: nat, nodeID: nat, duration: nat, now: nat) returns (ok: bool)
      requires Valid(now) && NoOther(primaryLeases, quorumID, nodeID) && Has(config.quorums, quorumID)
      requires Get(config.quorums, quorumID).hasPrimary && Get(config.quorums, quorumID).primaryID == nodeID
      modifies this
      ensures ok && Valid(now) && TimerAfter(old(timerActive), old(timerExpireTime))
      ensures NoOther(primaryLeases, quorumID, nodeID)
      ensures HasLeaseUntil(primaryLeases, quorumID, nodeID, now + Length(duration))
      ensures FirstOf(old(primaryLeases), quorumID).Some?
              && primaryLeases == Extended(old(primaryLeases), quorumID, now + Length(duration))
              && FirstOf(old(primaryLeases), quorumID).value.serial < |old(periods)|
              && periods == ExtendedPeriods(old(periods), FirstOf(old(primaryLeases), quorumID).value, now + Length(duration))
    {
      hide Sound, PrimariesListed, HasLease, FirstOf, RemoveFirst, HasLeaseUntil, NoOther, InOrder, Distinct, AddLease, Length, AsMap, ExtendedPeriods;
      ShownIsListed(config.quorums, primaryLeases, quorumID);
      ghost var e := now + Length(duration);
      ExtendStep(primaryLeases, periods, config.quorums, now, quorumID, nodeID, e);
      var i := FindLease(primaryLeases, quorumID);
      if i == |primaryLeases| { return false; }
      var x := primaryLeases[i];
      ExtendedLength(periods, x, e);
      periods := ExtendedPeriods(periods, x, e);
      primaryLeases := AddLease(primaryLeases[..i] + primaryLeases[i + 1..], x.(expireTime := now + Length(duration)));
      UpdateTimer();
      return true;
    }
  }
}
