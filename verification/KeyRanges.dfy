// Sets of key ranges that divide the key space: what a table's shards are for.

module KeyRanges {
  import opened Bytes
  import opened KeyedLists

  datatype Range = Range(first: bytes, last: bytes)

  predicate Owns(rs: map<nat, Range>, id: nat, key: bytes) {
    id in rs && InRange(rs[id].first, rs[id].last, key)
  }

  ghost predicate HasOwner(rs: map<nat, Range>, ids: seq<nat>, key: bytes) {
    exists id :: id in ids && Owns(rs, id, key)
  }

  predicate NonEmpty(r: Range) { r.last == [] || Less(r.first, r.last) }

  // Every key belongs to exactly one of the ranges, and no range is empty.
  ghost predicate Partition(rs: map<nat, Range>, ids: seq<nat>) {
    && (forall key :: HasOwner(rs, ids, key))
    && (forall key, a, b :: a in ids && b in ids && Owns(rs, a, key) && Owns(rs, b, key) ==> a == b)
    && (forall id :: id in ids ==> id in rs && NonEmpty(rs[id]))
  }

  lemma PartitionFrame(rs: map<nat, Range>, rs': map<nat, Range>, ids: seq<nat>)
    requires Partition(rs, ids)
    requires forall id :: id in ids ==> id in rs' && (id in rs ==> rs[id] == rs'[id])
    ensures Partition(rs', ids)
  {
    forall key ensures HasOwner(rs', ids, key) {
      assert HasOwner(rs, ids, key);
      var id :| id in ids && Owns(rs, id, key);
      assert Owns(rs', id, key);
    }
    forall key, a, b | a in ids && b in ids && Owns(rs', a, key) && Owns(rs', b, key) ensures a == b {
      assert Owns(rs, a, key) && Owns(rs, b, key);
    }
  }

  // The whole key space in one range.
  lemma WholePartition(rs: map<nat, Range>, id: nat)
    requires id in rs && rs[id] == Range([], [])
    ensures Partition(rs, [id])
  {
    forall key ensures HasOwner(rs, [id], key) {
      TotalOrder();
      assert Owns(rs, id, key);
    }
  }

  lemma PartitionNotEmpty(rs: map<nat, Range>, ids: seq<nat>)
    requires Partition(rs, ids)
    ensures ids != []
  {
    assert HasOwner(rs, ids, []);
  }

  // A key strictly inside a range cuts it in two.
  lemma CutRange(r: Range, key: bytes, k: bytes)
    requires InRange(r.first, r.last, key) && key != r.first && key != r.last
    ensures NonEmpty(Range(r.first, key)) && NonEmpty(Range(key, r.last))
    ensures InRange(r.first, r.last, k) <==> InRange(r.first, key, k) || InRange(key, r.last, k)
    ensures !(InRange(r.first, key, k) && InRange(key, r.last, k))
  {
    TotalOrder();
  }

  lemma SplitPartition(rs: map<nat, Range>, ids: seq<nat>, id: nat, new': nat, key: bytes)
    requires Partition(rs, ids) && id in ids && id in rs && new' !in rs && new' !in ids
    requires InRange(rs[id].first, rs[id].last, key) && key != rs[id].first && key != rs[id].last
    ensures Partition(rs[id := Range(rs[id].first, key)][new' := Range(key, rs[id].last)], ids + [new'])
  {
    var rs' := rs[id := Range(rs[id].first, key)][new' := Range(key, rs[id].last)];
    var ids' := ids + [new'];
    CutRange(rs[id], key, key);
    forall k ensures HasOwner(rs', ids', k) {
      assert HasOwner(rs, ids, k);
      var x :| x in ids && Owns(rs, x, k);
      CutRange(rs[id], key, k);
      assert Owns(rs', x, k) || Owns(rs', new', k);
    }
    forall k, a, b | a in ids' && b in ids' && Owns(rs', a, k) && Owns(rs', b, k) ensures a == b {
      CutRange(rs[id], key, k);
      assert Owns(rs, if a == new' then id else a, k) && Owns(rs, if b == new' then id else b, k);
    }
  }

  lemma RenamePartition(rs: map<nat, Range>, ids: seq<nat>, src: nat, dst: nat)
    requires Partition(rs, ids) && NoDup(ids) && src in ids && dst !in ids && src in rs && dst !in rs
    ensures Partition((rs - {src})[dst := rs[src]], Remove(ids, src) + [dst])
  {
    var rs' := (rs - {src})[dst := rs[src]];
    var ids' := Remove(ids, src) + [dst];
    forall k ensures HasOwner(rs', ids', k) {
      assert HasOwner(rs, ids, k);
      var x :| x in ids && Owns(rs, x, k);
      assert Owns(rs', if x == src then dst else x, k);
    }
    forall k, a, b | a in ids' && b in ids' && Owns(rs', a, k) && Owns(rs', b, k) ensures a == b {
      assert Owns(rs, if a == dst then src else a, k) && Owns(rs, if b == dst then src else b, k);
    }
  }
}
