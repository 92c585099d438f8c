// Which shard a key belongs to, as the controller and the client find it, and the walk of a listing
// from shard to shard (ConfigState::GetShard of src/Application/ConfigState/ConfigState.cpp;
// GetQuorumID and NextRequest of src/Application/Client/SDBPClient.cpp).

module Routing {
  import opened Bytes
  import opened KeyedLists
  import opened KeyRanges
  import opened Links
  import opened Schema
  import opened SchemaInvariant

  predicate Holds(shard: Shard, tableID: nat, key: bytes) {
    shard.tableID == tableID && InRange(shard.firstKey, shard.lastKey, key)
  }

  // The controller looks through all shards.
  function FirstHolder(l: seq<Keyed<Shard>>, tableID: nat, key: bytes): (i: nat)
    ensures i <= |l| && (i < |l| ==> Holds(l[i].obj, tableID, key))
    ensures forall j :: 0 <= j < i ==> !Holds(l[j].obj, tableID, key)
  {
    if l == [] || Holds(l[0].obj, tableID, key) then 0 else 1 + FirstHolder(l[1..], tableID, key)
  }

  method GetShard(l: seq<Keyed<Shard>>, tableID: nat, key: bytes) returns (i: nat)
    ensures i == FirstHolder(l, tableID, key)
  {
    i := 0;
    while i < |l| && !(l[i].obj.tableID == tableID && InRange(l[i].obj.firstKey, l[i].obj.lastKey, key))
      invariant i <= |l| && FirstHolder(l, tableID, key) == i + FirstHolder(l[i..], tableID, key)
    {
      assert l[i..][1..] == l[i + 1..];
      i := i + 1;
    }
  }

  // The client looks through the shards of the table; those it does not know it passes over.
  function FirstInTable(s: State, ids: seq<nat>, key: bytes): (r: Option<nat>)
    ensures r.Some? ==> r.value in ids && Has(s.shards, r.value)
                        && InRange(Get(s.shards, r.value).firstKey, Get(s.shards, r.value).lastKey, key)
    ensures r.None? ==> forall id :: id in ids && Has(s.shards, id) ==>
                          !InRange(Get(s.shards, id).firstKey, Get(s.shards, id).lastKey, key)
  {
    if ids == [] then None
    else if Has(s.shards, ids[0]) && InRange(Get(s.shards, ids[0]).firstKey, Get(s.shards, ids[0]).lastKey, key) then Some(ids[0])
    else FirstInTable(s, ids[1..], key)
  }

  method GetQuorumID(s: State, tableID: nat, key: bytes) returns (quorumID: Option<nat>)
    ensures quorumID ==
              if !Has(s.tables, tableID) then None
              else
                var id := FirstInTable(s, Get(s.tables, tableID).shards, key);
                if id.Some? then Some(Get(s.shards, id.value).quorumID) else None
  {
    var t := IndexOf(s.tables, tableID);
    if t == |s.tables| { return None; }
    var ids := s.tables[t].obj.shards;
    for k := 0 to |ids|
      invariant FirstInTable(s, ids, key) == FirstInTable(s, ids[k..], key)
    {
      assert ids[k..][1..] == ids[k + 1..];
      var i := IndexOf(s.shards, ids[k]);
      if i < |s.shards| {
        var shard := s.shards[i].obj;
        if InRange(shard.firstKey, shard.lastKey, key) { return Some(shard.quorumID); }
      }
    }
    return None;
  }

  // The j-th shard in the maps of the structure.
  lemma ShardAt(s: State, j: nat)
    requires Unique(s.shards) && j < |s.shards|
    ensures var x, id := StructureOf(s), s.shards[j].id;
            id in x.tableOf && id in x.rangeOf && id in x.quorumOf && x.tableOf[id] == s.shards[j].obj.tableID
            && x.rangeOf[id] == Range(s.shards[j].obj.firstKey, s.shards[j].obj.lastKey)
  {
    InMap(s.shards, j);
  }

  // The one shard of a table that holds a key.
  lemma Holder(s: State, t: nat, key: bytes) returns (id: nat)
    requires WellFormed(s) && Has(s.tables, t)
    ensures var x := StructureOf(s);
            t in x.tableShards && id in x.tableShards[t] && id in x.tableOf && x.tableOf[id] == t
            && forall k :: k in x.tableShards[t] ==> (Owns(x.rangeOf, k, key) <==> k == id)
  {
    var x := StructureOf(s);
    hide Linked, Numbered, TableNamesUnique, DatabaseNamesUnique;
    assert Partition(x.rangeOf, x.tableShards[t]);
    TableList(x, t);
    assert HasOwner(x.rangeOf, x.tableShards[t], key);
    id :| id in x.tableShards[t] && Owns(x.rangeOf, id, key);
  }

  lemma HolderAt(s: State, t: nat, key: bytes, id: nat, j: nat)
    requires WellFormed(s) && Has(s.tables, t) && j < |s.shards| && s.shards[j].obj.tableID == t
    requires var x := StructureOf(s);
             t in x.tableShards && forall k :: k in x.tableShards[t] ==> (Owns(x.rangeOf, k, key) <==> k == id)
    ensures RangeContains(s.shards[j].obj.firstKey, s.shards[j].obj.lastKey, key) <==> s.shards[j].id == id
    ensures Holds(s.shards[j].obj, t, key) <==> s.shards[j].id == id
  {
    hide Linked, Tiled, TableNamesUnique, DatabaseNamesUnique, Below, Unique;
    ShardAt(s, j);
    Parents(StructureOf(s), s.shards[j].id);
    RangeContainsIsInRange(s.shards[j].obj.firstKey, s.shards[j].obj.lastKey, key);
  }

  // Main result: for every table and key the controller and the client find the same shard, and it
  // is the only one that holds the key by either test.
  lemma SameShard(s: State, t: nat, key: bytes)
    requires WellFormed(s) && Has(s.tables, t)
    ensures var ids, i := Get(s.tables, t).shards, FirstHolder(s.shards, t, key);
            i < |s.shards| && FirstInTable(s, ids, key) == Some(s.shards[i].id)
            && forall j :: 0 <= j < |s.shards| && s.shards[j].obj.tableID == t ==>
                 (RangeContains(s.shards[j].obj.firstKey, s.shards[j].obj.lastKey, key) <==> s.shards[j].id == s.shards[i].id)
  {
    var id := Holder(s, t, key);
    forall j | 0 <= j < |s.shards| && s.shards[j].obj.tableID == t
      ensures RangeContains(s.shards[j].obj.firstKey, s.shards[j].obj.lastKey, key) <==> s.shards[j].id == id
      ensures Holds(s.shards[j].obj, t, key) <==> s.shards[j].id == id
    {
      hide WellFormed;
      HolderAt(s, t, key, id, j);
    }
    hide Consistent, TableNamesUnique, DatabaseNamesUnique, Below, FirstHolder, FirstInTable, Holds;
    HolderInTable(s, t, key, id);
    FoundHolder(s, t, key, id);
  }

  lemma HolderInTable(s: State, t: nat, key: bytes, id: nat)
    requires Has(s.tables, t)
    requires var x := StructureOf(s);
             t in x.tableShards && id in x.tableShards[t] && id in x.tableOf && x.tableOf[id] == t
             && forall k :: k in x.tableShards[t] ==> (Owns(x.rangeOf, k, key) <==> k == id)
    ensures Has(s.shards, id) && Get(s.shards, id).tableID == t && id in Get(s.tables, t).shards
    ensures forall k :: k in Get(s.tables, t).shards && Has(s.shards, k) ==>
              (InRange(Get(s.shards, k).firstKey, Get(s.shards, k).lastKey, key) <==> k == id)
  {
    forall k | k in Get(s.tables, t).shards && Has(s.shards, k)
      ensures InRange(Get(s.shards, k).firstKey, Get(s.shards, k).lastKey, key) <==> k == id
    {
      assert Owns(StructureOf(s).rangeOf, k, key) <==> k == id;
    }
  }

  lemma FoundHolder(s: State, t: nat, key: bytes, id: nat)
    requires Unique(s.shards) && Has(s.shards, id) && Has(s.tables, t) && id in Get(s.tables, t).shards
    requires Get(s.shards, id).tableID == t
    requires forall k :: k in Get(s.tables, t).shards && Has(s.shards, k) ==>
               (InRange(Get(s.shards, k).firstKey, Get(s.shards, k).lastKey, key) <==> k == id)
    requires forall j :: 0 <= j < |s.shards| && s.shards[j].obj.tableID == t ==>
               (Holds(s.shards[j].obj, t, key) <==> s.shards[j].id == id)
    ensures var ids, i := Get(s.tables, t).shards, FirstHolder(s.shards, t, key);
            i < |s.shards| && s.shards[i].id == id && FirstInTable(s, ids, key) == Some(id)
  {
    var p := IndexOf(s.shards, id);
    assert s.shards[p].id == id && s.shards[p].obj == Get(s.shards, id);
    assert Holds(s.shards[p].obj, t, key);
  }

  // ---- from shard to shard

  // The search of NextRequest: the first shard of the table with that first key.
  function FirstWith(rs: map<nat, Range>, ids: seq<nat>, key: bytes): (r: Option<nat>)
    ensures r.Some? ==> r.value in ids && r.value in rs && rs[r.value].first == key
    ensures r.None? ==> forall id :: id in ids && id in rs ==> rs[id].first != key
  {
    if ids == [] then None
    else if ids[0] in rs && rs[ids[0]].first == key then Some(ids[0])
    else FirstWith(rs, ids[1..], key)
  }

  method FindNext(s: State, tableID: nat, nextShardKey: bytes) returns (r: Option<nat>)
    requires Has(s.tables, tableID) && forall id :: id in Get(s.tables, tableID).shards ==> Has(s.shards, id)
    ensures r == FirstWith(RangeOf(AsMap(s.shards)), Get(s.tables, tableID).shards, nextShardKey)
  {
    ghost var rs := RangeOf(AsMap(s.shards));
    var ids := Get(s.tables, tableID).shards;
    for k := 0 to |ids|
      invariant FirstWith(rs, ids, nextShardKey) == FirstWith(rs, ids[k..], nextShardKey)
    {
      assert ids[k..][1..] == ids[k + 1..];
      var shard := Get(s.shards, ids[k]);
      CmpEqual(shard.firstKey, nextShardKey);
      if Cmp(shard.firstKey, nextShardKey) == 0 { return Some(ids[k]); }
    }
    return None;
  }

  // Behind every shard that has a last key comes exactly one, which begins with that key.
  lemma NextExists(rs: map<nat, Range>, ids: seq<nat>, id: nat)
    requires Partition(rs, ids) && id in ids && rs[id].last != []
    ensures FirstWith(rs, ids, rs[id].last).Some?
    ensures forall b :: b in ids && rs[b].first == rs[id].last ==> FirstWith(rs, ids, rs[id].last) == Some(b)
  {
    TotalOrder();
    var key := rs[id].last;
    assert HasOwner(rs, ids, key);
    var b :| b in ids && Owns(rs, b, key);
    assert NonEmpty(rs[id]) && NonEmpty(rs[b]);
    assert rs[b].first == key by {
      if rs[b].first != key {
        assert Less(rs[b].first, key);
        if AtMost(rs[id].first, rs[b].first) {
          assert Owns(rs, id, rs[b].first) && Owns(rs, b, rs[b].first);
        } else {
          assert Owns(rs, id, rs[id].first) && Owns(rs, b, rs[id].first);
        }
        assert false;
      }
    }
    forall c | c in ids && rs[c].first == key ensures FirstWith(rs, ids, key) == Some(c) {
      var d := FirstWith(rs, ids, key).value;
      assert Owns(rs, c, key) && Owns(rs, d, key) by { assert NonEmpty(rs[c]) && NonEmpty(rs[d]); }
    }
  }

  function Beyond(rs: map<nat, Range>, ids: seq<nat>, key: bytes): set<nat> {
    set b | b in ids && b in rs && Less(key, rs[b].first)
  }

  // The shards that a listing visits from one on.
  function Walk(rs: map<nat, Range>, ids: seq<nat>, id: nat): seq<nat>
    requires id in rs
    decreases Beyond(rs, ids, rs[id].first)
  {
    if rs[id].last == [] || FirstWith(rs, ids, rs[id].last).None? then [id]
    else
      var next := FirstWith(rs, ids, rs[id].last).value;
      if Less(rs[id].first, rs[next].first) then
        BeyondShrinks(rs, ids, id, next);
        [id] + Walk(rs, ids, next)
      else [id]
  }

  lemma BeyondShrinks(rs: map<nat, Range>, ids: seq<nat>, id: nat, next: nat)
    requires id in rs && next in rs && next in ids && Less(rs[id].first, rs[next].first)
    ensures Beyond(rs, ids, rs[next].first) < Beyond(rs, ids, rs[id].first)
  {
    TotalOrder();
    assert next in Beyond(rs, ids, rs[id].first) && next !in Beyond(rs, ids, rs[next].first);
  }

  // Each step of the walk goes to the one next shard, and nothing lies between.
  lemma StepOfWalk(rs: map<nat, Range>, ids: seq<nat>, id: nat, b: nat)
    requires Partition(rs, ids) && id in ids && b in ids && AtMost(rs[id].first, rs[b].first)
    ensures b == id || (rs[id].last != [] && AtMost(rs[id].last, rs[b].first))
    ensures rs[id].last != [] ==> Less(rs[id].first, rs[id].last)
  {
    TotalOrder();
    assert NonEmpty(rs[id]) && NonEmpty(rs[b]);
    if b != id && !(rs[id].last != [] && AtMost(rs[id].last, rs[b].first)) {
      assert Owns(rs, id, rs[b].first) && Owns(rs, b, rs[b].first);
      assert false;
    }
  }

  // Main result: the walk visits exactly the shards from its start on, each once and in order of
  // their keys, and ends at the shard without a last key.
  lemma {:induction false} WalkVisitsAll(rs: map<nat, Range>, ids: seq<nat>, id: nat)
    requires Partition(rs, ids) && id in ids
    ensures var w := Walk(rs, ids, id);
            w != [] && w[0] == id && w[|w| - 1] in rs && rs[w[|w| - 1]].last == []
            && (forall b :: b in w <==> b in ids && AtMost(rs[id].first, rs[b].first))
            && (forall i :: 0 <= i < |w| ==> w[i] in rs)
            && (forall i :: 0 <= i < |w| - 1 ==> rs[w[i]].last == rs[w[i + 1]].first && Less(rs[w[i]].first, rs[w[i + 1]].first))
    decreases Beyond(rs, ids, rs[id].first)
  {
    assert NonEmpty(rs[id]);
    if rs[id].last == [] {
      forall b | b in ids ensures b == id <==> AtMost(rs[id].first, rs[b].first) {
        if AtMost(rs[id].first, rs[b].first) { StepOfWalk(rs, ids, id, b); }
        CmpEqual(rs[id].first, rs[id].first);
      }
    } else {
      NextExists(rs, ids, id);
      var next := FirstWith(rs, ids, rs[id].last).value;
      BeyondShrinks(rs, ids, id, next);
      WalkVisitsAll(rs, ids, next);
      forall b | b in ids ensures AtMost(rs[id].first, rs[b].first) <==> b == id || AtMost(rs[next].first, rs[b].first) {
        if AtMost(rs[id].first, rs[b].first) { StepOfWalk(rs, ids, id, b); }
        CmpEqual(rs[id].first, rs[id].first);
        if AtMost(rs[next].first, rs[b].first) { CmpTransitive(rs[id].first, rs[next].first, rs[b].first); }
      }
      var w := Walk(rs, ids, next);
      assert Walk(rs, ids, id) == [id] + w;
      forall i | 0 <= i < |w| ensures rs[([id] + w)[i]].last == rs[([id] + w)[i + 1]].first {
        if i > 0 { assert ([id] + w)[i] == w[i - 1] && ([id] + w)[i + 1] == w[i]; }
      }
    }
  }
}
