// A forward listing of one table through the buffer of pending writes
// (Client::ComputeListResponse and NumProxiedDeletes of src/Application/Client/SDBPClient.cpp).

module ListResponses {
  import opened Bytes
  import opened KeyedLists

  datatype Entry = Entry(key: bytes, value: bytes)

  // A pending write to the table; without a value it is a delete.
  datatype Pending = Pending(key: bytes, value: Option<bytes>)

  predicate EntriesSorted(l: seq<Entry>) {
    l == [] || ((forall y :: y in l[1..] ==> Less(l[0].key, y.key)) && EntriesSorted(l[1..]))
  }

  predicate PendingSorted(l: seq<Pending>) {
    l == [] || ((forall y :: y in l[1..] ==> Less(l[0].key, y.key)) && PendingSorted(l[1..]))
  }

  // ---- the listing that is meant

  // The entries of s with the pending writes applied, in order.
  function Overlay(p: seq<Pending>, s: seq<Entry>): seq<Entry>
    decreases |p| + |s|
  {
    if p == [] then s
    else if s != [] && Less(s[0].key, p[0].key) then [s[0]] + Overlay(p, s[1..])
    else
      var rest := if s != [] && s[0].key == p[0].key then s[1..] else s;
      Shown(p[0]) + Overlay(p[1..], rest)
  }

  function Shown(x: Pending): seq<Entry> { if x.value.Some? then [Entry(x.key, x.value.value)] else [] }

  // The first entries of a listing; no bound means all.
  function Page<T>(l: seq<T>, bound: Option<nat>): seq<T> {
    if bound.Some? && bound.value < |l| then l[..bound.value] else l
  }

  // ---- the merge of the code

  // One less of what is still wanted.
  function Fewer(bound: Option<nat>): Option<nat> {
    if bound.Some? && bound.value > 0 then Some(bound.value - 1) else bound
  }

  // The value behind the cursor of the pending values: that of the next set.
  function NextValue(p: seq<Pending>): Option<bytes> {
    if p == [] then None else if p[0].value.Some? then p[0].value else NextValue(p[1..])
  }

  datatype Listing = Listed(entries: seq<Entry>) | Crashed {
    function After(e: seq<Entry>): Listing { if Listed? then Listed(e + entries) else Crashed }
  }

  // Where a pending key comes before the next server key, the code does not look at its kind.
  function Merged(p: seq<Pending>, s: seq<Entry>, bound: Option<nat>): Listing
    decreases |p| + |s|
  {
    if bound == Some(0) || (p == [] && s == []) then Listed([])
    else if p == [] then Merged(p, s[1..], Fewer(bound)).After([s[0]])
    else if s == [] then
      if p[0].value.Some? then Merged(p[1..], s, Fewer(bound)).After(Shown(p[0])) else Merged(p[1..], s, bound)
    else if p[0].key == s[0].key then
      if p[0].value.Some? then Merged(p[1..], s[1..], Fewer(bound)).After(Shown(p[0])) else Merged(p[1..], s[1..], bound)
    else if Less(p[0].key, s[0].key) then
      if NextValue(p).None? then Crashed
      else Merged(p[1..], s, Fewer(bound)).After([Entry(p[0].key, NextValue(p).value)])
    else Merged(p, s[1..], Fewer(bound)).After([s[0]])
  }

  // A pending delete comes before a server key that it does not match while more is wanted.
  predicate Trips(p: seq<Pending>, s: seq<Entry>, bound: Option<nat>)
    decreases |p| + |s|
  {
    if bound == Some(0) || p == [] || s == [] then false
    else if p[0].key == s[0].key then Trips(p[1..], s[1..], if p[0].value.Some? then Fewer(bound) else bound)
    else if Less(p[0].key, s[0].key) then p[0].value.None? || Trips(p[1..], s, Fewer(bound))
    else Trips(p, s[1..], Fewer(bound))
  }

  lemma OverlayNoPending(s: seq<Entry>)
    ensures Overlay([], s) == s
  {}

  lemma PageCons<T>(x: T, l: seq<T>, bound: Option<nat>)
    requires bound != Some(0)
    ensures Page([x] + l, bound) == [x] + Page(l, Fewer(bound))
  {}

  lemma AfterCons(l: Listing, x: Entry, page: seq<Entry>)
    ensures l.After([x]) == Listed([x] + page) <==> l == Listed(page)
  {
    if l.Listed? && [x] + l.entries == [x] + page {
      assert ([x] + l.entries)[1..] == l.entries && ([x] + page)[1..] == page;
    }
  }

  // The keys of an overlay come from its parts.
  lemma {:induction false} OverlayAbove(p: seq<Pending>, s: seq<Entry>, k: bytes)
    requires forall x :: x in p ==> Less(k, x.key)
    requires forall x :: x in s ==> Less(k, x.key)
    ensures forall e :: e in Overlay(p, s) ==> Less(k, e.key)
    decreases |p| + |s|
  {
    if p != [] {
      if s != [] && Less(s[0].key, p[0].key) {
        OverlayAbove(p, s[1..], k);
      } else {
        OverlayAbove(p[1..], if s != [] && s[0].key == p[0].key then s[1..] else s, k);
      }
    }
  }

  // Unless it trips, the merge computes the page of the overlay; if it trips, it lists a deleted key.
  lemma {:induction false} MergedIsOverlay(p: seq<Pending>, s: seq<Entry>, bound: Option<nat>)
    requires PendingSorted(p) && EntriesSorted(s)
    ensures Merged(p, s, bound) == Listed(Page(Overlay(p, s), bound)) <==> !Trips(p, s, bound)
    decreases |p| + |s|
  {
    if bound == Some(0) || (p == [] && s == []) {
    } else if p == [] {
      MergedIsOverlay(p, s[1..], Fewer(bound));
      assert s == [s[0]] + s[1..];
      PageCons(s[0], s[1..], bound);
    } else if s == [] {
      MergedIsOverlay(p[1..], s, if p[0].value.Some? then Fewer(bound) else bound);
      if p[0].value.Some? { PageCons(Shown(p[0])[0], Overlay(p[1..], s), bound); }
    } else {
      MergeStep(p, s, bound);
    }
  }

  lemma {:induction false} MergeStep(p: seq<Pending>, s: seq<Entry>, bound: Option<nat>)
    requires PendingSorted(p) && EntriesSorted(s) && p != [] && s != [] && bound != Some(0)
    ensures Merged(p, s, bound) == Listed(Page(Overlay(p, s), bound)) <==> !Trips(p, s, bound)
    decreases |p| + |s|, 0
  {
    hide Cmp;
    CmpEqual(p[0].key, s[0].key);
    CmpFlip(p[0].key, s[0].key);
    if p[0].key == s[0].key {
      if p[0].value.Some? {
        MergedIsOverlay(p[1..], s[1..], Fewer(bound));
        PageCons(Shown(p[0])[0], Overlay(p[1..], s[1..]), bound);
        AfterCons(Merged(p[1..], s[1..], Fewer(bound)), Shown(p[0])[0], Page(Overlay(p[1..], s[1..]), Fewer(bound)));
      } else {
        MergedIsOverlay(p[1..], s[1..], bound);
      }
    } else if Less(p[0].key, s[0].key) {
      if p[0].value.Some? {
        MergedIsOverlay(p[1..], s, Fewer(bound));
        PageCons(Shown(p[0])[0], Overlay(p[1..], s), bound);
        AfterCons(Merged(p[1..], s, Fewer(bound)), Shown(p[0])[0], Page(Overlay(p[1..], s), Fewer(bound)));
      } else {
        DeletedKeyListed(p, s, bound);
      }
    } else {
      MergedIsOverlay(p, s[1..], Fewer(bound));
      PageCons(s[0], Overlay(p, s[1..]), bound);
      AfterCons(Merged(p, s[1..], Fewer(bound)), s[0], Page(Overlay(p, s[1..]), Fewer(bound)));
    }
  }

  lemma DeletedKeyListed(p: seq<Pending>, s: seq<Entry>, bound: Option<nat>)
    requires PendingSorted(p) && EntriesSorted(s) && p != [] && s != [] && bound != Some(0)
    requires Less(p[0].key, s[0].key) && p[0].key != s[0].key && p[0].value.None?
    ensures Merged(p, s, bound) != Listed(Page(Overlay(p, s), bound))
  {
    var k := p[0].key;
    forall x | x in s ensures Less(k, x.key) {
      if x != s[0] { CmpTransitive(k, s[0].key, x.key); }
    }
    OverlayAbove(p[1..], s, k);
    CmpFlip(k, s[0].key);
    assert Overlay(p, s) == Overlay(p[1..], s);
    CmpEqual(k, k);
    if Merged(p, s, bound).Listed? {
      assert Merged(p, s, bound).entries[0].key == k;
      var page := Page(Overlay(p, s), bound);
      if page != [] { assert page[0] in Overlay(p, s); }
    }
  }

  // ---- how much to fetch

  // With a page of the server's entries that is longer than what is wanted by the number of
  // pending writes, the merge trips or not as with all of them ...
  lemma {:induction false} PageTrips(p: seq<Pending>, s: seq<Entry>, count: nat, m: nat)
    requires m >= count + |p|
    ensures Trips(p, Page(s, Some(m)), Some(count)) <==> Trips(p, s, Some(count))
    decreases |p| + |s|
  {
    var page := Page(s, Some(m));
    if count > 0 && p != [] && s != [] {
      assert page[0] == s[0] && page[1..] == Page(s[1..], Some(m - 1));
      if p[0].key == s[0].key {
        PageTrips(p[1..], s[1..], if p[0].value.Some? then count - 1 else count, m - 1);
      } else if Less(p[0].key, s[0].key) {
        PageTrips(p[1..], s, count - 1, m);
      } else {
        PageTrips(p, s[1..], count - 1, m - 1);
      }
    }
  }

  lemma PageHead<T>(s: seq<T>, m: nat)
    requires s != [] && m > 0
    ensures Page(s, Some(m)) == [s[0]] + Page(s[1..], Some(m - 1))
  {
    assert s == [s[0]] + s[1..];
    PageCons(s[0], s[1..], Some(m));
  }

  lemma SamePages<T>(x: T, a: seq<T>, b: seq<T>, count: nat)
    requires count > 0 && Page(a, Some(count - 1)) == Page(b, Some(count - 1))
    ensures Page([x] + a, Some(count)) == Page([x] + b, Some(count))
  {
    PageCons(x, a, Some(count));
    PageCons(x, b, Some(count));
  }

  // ... and the first entries of the overlay are the same.
  lemma {:induction false} PageOverlay(p: seq<Pending>, s: seq<Entry>, count: nat, m: nat)
    requires m >= count + |p|
    ensures Page(Overlay(p, Page(s, Some(m))), Some(count)) == Page(Overlay(p, s), Some(count))
    decreases |p| + |s|
  {
    if count > 0 && s != [] {
      PageHead(s, m);
      var page, more := Page(s, Some(m)), Page(s[1..], Some(m - 1));
      assert page[0] == s[0] && page[1..] == more && s == [s[0]] + s[1..];
      hide Page;
      if p == [] {
        PageOverlay(p, s[1..], count - 1, m - 1);
        SamePages(s[0], s[1..], more, count);
      } else if Less(s[0].key, p[0].key) {
        PageOverlay(p, s[1..], count - 1, m - 1);
        SamePages(s[0], Overlay(p, s[1..]), Overlay(p, more), count);
      } else {
        PageOverlayPending(p, s, count, m);
      }
    }
  }

  lemma {:induction false} PageOverlayPending(p: seq<Pending>, s: seq<Entry>, count: nat, m: nat)
    requires m >= count + |p| && count > 0 && p != [] && s != [] && !Less(s[0].key, p[0].key)
    ensures Page(Overlay(p, Page(s, Some(m))), Some(count)) == Page(Overlay(p, s), Some(count))
    decreases |p| + |s|, 0
  {
    PageHead(s, m);
    var page, more := Page(s, Some(m)), Page(s[1..], Some(m - 1));
    assert page[0] == s[0] && page[1..] == more;
    hide Page;
    var same := s[0].key == p[0].key;
    var rest, rest', m' := if same then s[1..] else s, if same then more else page, if same then m - 1 else m;
    if p[0].value.Some? {
      PageOverlay(p[1..], rest, count - 1, m');
      SamePages(Shown(p[0])[0], Overlay(p[1..], rest), Overlay(p[1..], rest'), count);
    } else {
      PageOverlay(p[1..], rest, count, m');
      assert Overlay(p, s) == Overlay(p[1..], rest) && Overlay(p, page) == Overlay(p[1..], rest');
    }
  }

  // ---- what the overlay is

  // An entry of the table is shown unless a write to its key is pending; of those, the sets are shown.
  ghost predicate InOverlay(p: seq<Pending>, s: seq<Entry>, e: Entry) {
    (exists x :: x in p && x.key == e.key && x.value == Some(e.value)) || (e in s && forall x :: x in p ==> x.key != e.key)
  }

  lemma {:induction false} OverlayMeans(p: seq<Pending>, s: seq<Entry>, e: Entry)
    requires PendingSorted(p) && EntriesSorted(s)
    ensures e in Overlay(p, s) <==> InOverlay(p, s, e)
    decreases |p| + |s|
  {
    if p != [] {
      assert p == [p[0]] + p[1..];
      if s != [] && Less(s[0].key, p[0].key) {
        assert s == [s[0]] + s[1..];
        OverlayMeans(p, s[1..], e);
        if e == s[0] { BelowAll(p, s[0].key); }
      } else {
        OverlayPendingMeans(p, s, e);
      }
    }
  }

  lemma BelowAll(p: seq<Pending>, k: bytes)
    requires PendingSorted(p) && p != [] && Less(k, p[0].key)
    ensures forall x :: x in p ==> x.key != k && Less(k, x.key)
  {
    forall x | x in p ensures x.key != k && Less(k, x.key) {
      if x != p[0] { CmpTransitive(k, p[0].key, x.key); }
      CmpEqual(k, x.key);
    }
  }

  lemma BelowEntries(s: seq<Entry>, k: bytes)
    requires EntriesSorted(s) && s != [] && Less(k, s[0].key)
    ensures forall x :: x in s ==> x.key != k && Less(k, x.key)
  {
    forall x | x in s ensures x.key != k && Less(k, x.key) {
      if x != s[0] { CmpTransitive(k, s[0].key, x.key); }
      CmpEqual(k, x.key);
    }
  }

  lemma {:induction false} OverlayPendingMeans(p: seq<Pending>, s: seq<Entry>, e: Entry)
    requires PendingSorted(p) && EntriesSorted(s) && p != [] && (s == [] || !Less(s[0].key, p[0].key))
    ensures e in Overlay(p, s) <==> InOverlay(p, s, e)
    decreases |p| + |s|, 0
  {
    var k := p[0].key;
    assert p == [p[0]] + p[1..];
    var rest := if s != [] && s[0].key == k then s[1..] else s;
    OverlayMeans(p[1..], rest, e);
    forall x | x in p[1..] ensures x.key != k { CmpEqual(k, x.key); }
    if s != [] {
      CmpEqual(k, s[0].key);
      CmpFlip(k, s[0].key);
      if s[0].key == k {
        assert s == [s[0]] + s[1..];
        forall x | x in s[1..] ensures x.key != k { CmpEqual(k, x.key); }
      } else {
        BelowEntries(s, k);
      }
    }
    if e.key == k {
      assert p[0] in p;
      assert e in Overlay(p, s) <==> e in Shown(p[0]);
    }
  }

  lemma SortedCons(x: Entry, l: seq<Entry>)
    requires EntriesSorted(l) && forall y :: y in l ==> Less(x.key, y.key)
    ensures EntriesSorted([x] + l)
  {
    assert ([x] + l)[1..] == l;
  }

  lemma {:induction false} OverlaySorted(p: seq<Pending>, s: seq<Entry>)
    requires PendingSorted(p) && EntriesSorted(s)
    ensures EntriesSorted(Overlay(p, s))
    decreases |p| + |s|
  {
    if p != [] {
      if s != [] && Less(s[0].key, p[0].key) {
        BelowAll(p, s[0].key);
        OverlayAbove(p, s[1..], s[0].key);
        OverlaySorted(p, s[1..]);
        SortedCons(s[0], Overlay(p, s[1..]));
      } else {
        var rest := if s != [] && s[0].key == p[0].key then s[1..] else s;
        if s != [] && s[0].key != p[0].key {
          CmpEqual(p[0].key, s[0].key);
          CmpFlip(p[0].key, s[0].key);
          BelowEntries(s, p[0].key);
        }
        OverlayAbove(p[1..], rest, p[0].key);
        OverlaySorted(p[1..], rest);
        if p[0].value.Some? { SortedCons(Shown(p[0])[0], Overlay(p[1..], rest)); } else { assert Shown(p[0]) + Overlay(p[1..], rest) == Overlay(p[1..], rest); }
      }
    }
  }

  // ---- when the merge goes wrong

  function CountBelow(l: seq<Entry>, k: bytes): nat {
    if l == [] then 0 else (if Less(l[0].key, k) then 1 else 0) + CountBelow(l[1..], k)
  }

  // A pending delete of a key that the table does not hold, followed by an entry that it does hold,
  // at a place of the listing that is wanted.
  ghost predicate Stray(p: seq<Pending>, s: seq<Entry>, bound: Option<nat>, d: Pending) {
    && d in p && d.value.None?
    && (forall e :: e in s ==> e.key != d.key)
    && (exists e :: e in s && Less(d.key, e.key))
    && (bound.Some? ==> CountBelow(Overlay(p, s), d.key) < bound.value)
  }

  lemma {:induction false} NoneBelow(l: seq<Entry>, k: bytes)
    requires forall e :: e in l ==> Less(k, e.key)
    ensures CountBelow(l, k) == 0
  {
    if l != [] {
      CmpFlip(k, l[0].key);
      NoneBelow(l[1..], k);
    }
  }

  lemma CountCons(x: Entry, l: seq<Entry>, k: bytes)
    ensures CountBelow([x] + l, k) == (if Less(x.key, k) then 1 else 0) + CountBelow(l, k)
  {
    assert ([x] + l)[1..] == l;
  }

  // Removing a smaller server entry from the front changes nothing about a delete behind it.
  lemma StrayBehindEntry(p: seq<Pending>, s: seq<Entry>, bound: Option<nat>, d: Pending)
    requires PendingSorted(p) && EntriesSorted(s) && p != [] && s != [] && bound != Some(0) && Less(s[0].key, p[0].key)
    ensures Stray(p, s, bound, d) <==> Stray(p, s[1..], Fewer(bound), d)
  {
    assert s == [s[0]] + s[1..];
    BelowAll(p, s[0].key);
    CountCons(s[0], Overlay(p, s[1..]), d.key);
    if d in p {
      CmpFlip(s[0].key, d.key);
      assert forall e :: e in s <==> e == s[0] || e in s[1..];
    }
  }

  // Nor does removing a pending write, with the entry of its key, in front of the delete.
  lemma StrayBehindPending(p: seq<Pending>, s: seq<Entry>, bound: Option<nat>, d: Pending)
    requires PendingSorted(p) && EntriesSorted(s) && p != [] && s != [] && bound != Some(0)
    requires s[0].key == p[0].key || (Less(p[0].key, s[0].key) && p[0].value.Some?)
    ensures var rest := if s[0].key == p[0].key then s[1..] else s;
            Stray(p, s, bound, d) <==> Stray(p[1..], rest, if p[0].value.Some? then Fewer(bound) else bound, d)
  {
    var k := p[0].key;
    var rest := if s[0].key == k then s[1..] else s;
    CmpEqual(k, s[0].key);
    CmpFlip(k, s[0].key);
    assert p == [p[0]] + p[1..] && s == [s[0]] + s[1..];
    assert Overlay(p, s) == Shown(p[0]) + Overlay(p[1..], rest);
    if p[0].value.Some? { CountCons(Shown(p[0])[0], Overlay(p[1..], rest), d.key); }
    else { assert Overlay(p, s) == Overlay(p[1..], rest); }
    assert forall e :: e in s <==> e == s[0] || e in s[1..];
    assert forall x :: x in p <==> x == p[0] || x in p[1..];
    if d in p[1..] {
      CmpEqual(k, d.key);
      CmpFlip(k, d.key);
      assert d.key != k;
    }
  }

  lemma FirstIsPassed(p: seq<Pending>, s: seq<Entry>)
    requires PendingSorted(p) && EntriesSorted(s) && p != [] && s != []
    requires Less(p[0].key, s[0].key) && p[0].value.None?
    ensures CountBelow(Overlay(p, s), p[0].key) == 0
  {
    hide Cmp;
    var k := p[0].key;
    CmpEqual(k, s[0].key);
    CmpFlip(k, s[0].key);
    assert Overlay(p, s) == [] + Overlay(p[1..], s) == Overlay(p[1..], s);
    hide Overlay, CountBelow;
    BelowEntries(s, k);
    OverlayAbove(p[1..], s, k);
    NoneBelow(Overlay(p, s), k);
  }

  lemma FirstIsStray(p: seq<Pending>, s: seq<Entry>, bound: Option<nat>)
    requires PendingSorted(p) && EntriesSorted(s) && p != [] && s != [] && bound != Some(0)
    requires Less(p[0].key, s[0].key) && p[0].value.None?
    ensures Stray(p, s, bound, p[0])
  {
    hide Cmp, Overlay, CountBelow;
    FirstIsPassed(p, s);
    BelowEntries(s, p[0].key);
    assert s[0] in s;
  }

  // The merge trips exactly if there is such a delete.
  lemma {:induction false} TripsMeansStray(p: seq<Pending>, s: seq<Entry>, bound: Option<nat>)
    requires PendingSorted(p) && EntriesSorted(s)
    ensures Trips(p, s, bound) <==> exists d :: Stray(p, s, bound, d)
    decreases |p| + |s|
  {
    if bound == Some(0) || p == [] || s == [] {
    } else if Less(p[0].key, s[0].key) && p[0].key != s[0].key && p[0].value.None? {
      FirstIsStray(p, s, bound);
    } else {
      CmpEqual(p[0].key, s[0].key);
      CmpFlip(p[0].key, s[0].key);
      if Less(s[0].key, p[0].key) {
        TripsMeansStray(p, s[1..], Fewer(bound));
        forall d ensures Stray(p, s, bound, d) <==> Stray(p, s[1..], Fewer(bound), d) { StrayBehindEntry(p, s, bound, d); }
      } else {
        var rest := if s[0].key == p[0].key then s[1..] else s;
        var bound' := if p[0].value.Some? then Fewer(bound) else bound;
        TripsMeansStray(p[1..], rest, bound');
        forall d ensures Stray(p, s, bound, d) <==> Stray(p[1..], rest, bound', d) { StrayBehindPending(p, s, bound, d); }
      }
    }
  }
}
