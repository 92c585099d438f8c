// Listing a table from the client: how much is fetched, which part of the buffer takes part, and
// that the answer is the wanted page of the table with the buffered writes applied
// (Client::ListKeys, ListKeyValues, NumProxiedDeletes, ComputeListResponse of
// src/Application/Client/SDBPClient.cpp; one shard, forward direction).

module Listings {
  import opened Bytes
  import opened KeyedLists
  import opened RequestProxies
  import opened ListResponses

  // count 0 means no bound, an empty end key no end.
  datatype ListRequest = ListRequest(tableID: nat, startKey: bytes, endKey: bytes, prefix: bytes, count: nat, skip: bool)

  predicate InList(r: ListRequest, key: bytes) {
    Cmp(key, r.startKey) >= 0 && (r.endKey == [] || Less(key, r.endKey)) && BeginsWith(key, r.prefix)
  }

  // The start key itself may be left out.
  predicate Wanted(r: ListRequest, key: bytes) { InList(r, key) && !(r.skip && Cmp(key, r.startKey) == 0) }

  function Bound(count: nat): Option<nat> { if count == 0 then None else Some(count) }

  // ---- the parts that take part

  function EntriesIn(r: ListRequest, l: seq<Entry>): (f: seq<Entry>)
    ensures forall e :: e in f <==> e in l && InList(r, e.key)
  {
    if l == [] then [] else (if InList(r, l[0].key) then [l[0]] else []) + EntriesIn(r, l[1..])
  }

  function EntriesWanted(r: ListRequest, l: seq<Entry>): (f: seq<Entry>)
    ensures forall e :: e in f <==> e in l && Wanted(r, e.key)
  {
    if l == [] then [] else (if Wanted(r, l[0].key) then [l[0]] else []) + EntriesWanted(r, l[1..])
  }

  function PendingWanted(r: ListRequest, l: seq<Pending>): (f: seq<Pending>)
    ensures forall x :: x in f <==> x in l && Wanted(r, x.key)
  {
    if l == [] then [] else (if Wanted(r, l[0].key) then [l[0]] else []) + PendingWanted(r, l[1..])
  }

  function PendingIn(r: ListRequest, l: seq<Pending>): seq<Pending> {
    if l == [] then [] else (if InList(r, l[0].key) then [l[0]] else []) + PendingIn(r, l[1..])
  }

  // The writes to one table, in order of their keys.
  function TableWrites(l: seq<Write>, tableID: nat): (p: seq<Pending>)
    ensures forall x :: x in p <==> Write(tableID, x.key, x.value) in l
  {
    if l == [] then []
    else (if l[0].tableID == tableID then [Pending(l[0].key, l[0].value)] else []) + TableWrites(l[1..], tableID)
  }

  lemma {:induction false} TableWritesSorted(l: seq<Write>, tableID: nat)
    requires MapOrder(l)
    ensures PendingSorted(TableWrites(l, tableID))
  {
    if l != [] {
      TableWritesSorted(l[1..], tableID);
      var p := TableWrites(l[1..], tableID);
      forall x | x in p && l[0].tableID == tableID ensures Less(l[0].key, x.key) {
        assert Write(tableID, x.key, x.value) in l[1..];
        assert KeyCmp(l[0], Write(tableID, x.key, x.value)) < 0;
      }
      if l[0].tableID == tableID {
        assert ([Pending(l[0].key, l[0].value)] + p)[1..] == p;
      } else {
        assert [] + p == p;
      }
    }
  }

  lemma {:induction false} FilteredSorted(r: ListRequest, s: seq<Entry>)
    requires EntriesSorted(s)
    ensures EntriesSorted(EntriesIn(r, s)) && EntriesSorted(EntriesWanted(r, s))
  {
    if s != [] {
      FilteredSorted(r, s[1..]);
      if InList(r, s[0].key) { SortedCons(s[0], EntriesIn(r, s[1..])); } else { assert EntriesIn(r, s) == EntriesIn(r, s[1..]); }
      if Wanted(r, s[0].key) { SortedCons(s[0], EntriesWanted(r, s[1..])); } else { assert EntriesWanted(r, s) == EntriesWanted(r, s[1..]); }
    }
  }

  lemma {:induction false} PendingFilteredSorted(r: ListRequest, p: seq<Pending>)
    requires PendingSorted(p)
    ensures PendingSorted(PendingWanted(r, p)) && |PendingWanted(r, p)| <= |PendingIn(r, p)|
  {
    if p != [] {
      PendingFilteredSorted(r, p[1..]);
      var f := PendingWanted(r, p[1..]);
      if Wanted(r, p[0].key) { assert ([p[0]] + f)[1..] == f; } else { assert [] + f == f; }
    }
  }

  // ---- what the server sends

  // The first n entries of the table in the range asked for, or all.
  function ServerPage(r: ListRequest, table: seq<Entry>, n: nat): seq<Entry> { Page(EntriesIn(r, table), Bound(n)) }

  // The start key can only be the first entry in range.
  lemma {:induction false} OnlyFirstSkipped(r: ListRequest, s: seq<Entry>)
    requires EntriesSorted(s)
    ensures var f := EntriesIn(r, s);
            EntriesWanted(r, s) == if f != [] && r.skip && f[0].key == r.startKey then f[1..] else f
  {
    if s != [] {
      OnlyFirstSkipped(r, s[1..]);
      CmpEqual(s[0].key, r.startKey);
      if InList(r, s[0].key) {
        var f := EntriesIn(r, s[1..]);
        assert EntriesIn(r, s) == [s[0]] + f && EntriesIn(r, s)[1..] == f;
        if f != [] {
          assert f[0] in s[1..];
          CmpFlip(s[0].key, r.startKey);
          assert f[0].key != r.startKey;
        }
      }
    }
  }

  function WithoutStart(r: ListRequest, page: seq<Entry>): seq<Entry> {
    if page == [] then []
    else (if r.skip && Cmp(page[0].key, r.startKey) == 0 then [] else [page[0]]) + WithoutStart(r, page[1..])
  }

  // The client takes the start key out of the page; what is left is a page of the wanted entries.
  lemma {:induction false} PageWithoutStart(r: ListRequest, s: seq<Entry>, n: nat)
    requires EntriesSorted(s) && n > 0
    ensures exists m :: n <= m + (if r.skip then 1 else 0) && m <= n
                        && WithoutStart(r, ServerPage(r, s, n)) == Page(EntriesWanted(r, s), Some(m))
  {
    var f := EntriesIn(r, s);
    FilteredSorted(r, s);
    OnlyFirstSkipped(r, s);
    if f == [] {
      assert WithoutStart(r, ServerPage(r, s, n)) == Page(EntriesWanted(r, s), Some(n));
    } else {
      PageHead(f, n);
      var more := Page(f[1..], Some(n - 1));
      assert ServerPage(r, s, n) == [f[0]] + more && ([f[0]] + more)[1..] == more;
      PageOf(f[1..], n - 1);
      CmpEqual(f[0].key, r.startKey);
      NoStart(r, f[0], more);
      if r.skip && f[0].key == r.startKey {
        assert WithoutStart(r, ServerPage(r, s, n)) == Page(EntriesWanted(r, s), Some(n - 1));
      } else {
        assert WithoutStart(r, ServerPage(r, s, n)) == Page(EntriesWanted(r, s), Some(n));
      }
    }
  }

  lemma PageOf<T>(l: seq<T>, m: nat)
    ensures forall x :: x in Page(l, Some(m)) ==> x in l
  {}

  // Behind the first entry in range there is no start key.
  lemma {:induction false} NoStart(r: ListRequest, first: Entry, l: seq<Entry>)
    requires Cmp(first.key, r.startKey) >= 0 && forall e :: e in l ==> Less(first.key, e.key)
    ensures WithoutStart(r, l) == l
  {
    if l != [] {
      NoStart(r, first, l[1..]);
      CmpEqual(l[0].key, r.startKey);
      assert l[0] in l;
      CmpFlip(first.key, l[0].key);
      CmpFlip(first.key, r.startKey);
      assert l == [l[0]] + l[1..];
    }
  }

  lemma {:induction false} WholeWithoutStart(r: ListRequest, s: seq<Entry>)
    requires EntriesSorted(s)
    ensures WithoutStart(r, EntriesIn(r, s)) == EntriesWanted(r, s)
  {
    if s != [] {
      WholeWithoutStart(r, s[1..]);
      if InList(r, s[0].key) {
        assert ([s[0]] + EntriesIn(r, s[1..]))[1..] == EntriesIn(r, s[1..]);
      } else {
        assert EntriesIn(r, s) == EntriesIn(r, s[1..]) && EntriesWanted(r, s) == EntriesWanted(r, s[1..]);
      }
    }
  }

  // ---- restricting to a range and overlaying commute

  lemma {:induction false} WantedOverlay(r: ListRequest, p: seq<Pending>, s: seq<Entry>)
    requires PendingSorted(p) && EntriesSorted(s)
    ensures EntriesWanted(r, Overlay(p, s)) == Overlay(PendingWanted(r, p), EntriesWanted(r, s))
    decreases |p| + |s|
  {
    hide Cmp, Wanted;
    if p == [] {
      OverlayNoPending(EntriesWanted(r, s));
    } else if s != [] && Less(s[0].key, p[0].key) {
      WantedOverlay(r, p, s[1..]);
      BelowAll(p, s[0].key);
      assert Overlay(p, s) == [s[0]] + Overlay(p, s[1..]);
      assert s == [s[0]] + s[1..];
      hide Overlay, EntriesWanted, PendingWanted;
      WantedCons(r, s[0], Overlay(p, s[1..]));
      WantedCons(r, s[0], s[1..]);
      if Wanted(r, s[0].key) {
        OverlayFirstEntry(PendingWanted(r, p), s[0], EntriesWanted(r, s[1..]));
      } else {
        NothingInFront(EntriesWanted(r, Overlay(p, s[1..])));
        NothingInFront(EntriesWanted(r, s[1..]));
      }
    } else {
      WantedOverlayPending(r, p, s);
    }
  }

  lemma NothingInFront<T>(l: seq<T>)
    ensures [] + l == l
  {}

  lemma WantedCons(r: ListRequest, e: Entry, l: seq<Entry>)
    ensures EntriesWanted(r, [e] + l) == (if Wanted(r, e.key) then [e] else []) + EntriesWanted(r, l)
  {
    assert ([e] + l)[1..] == l;
  }

  lemma OverlayFirstEntry(p: seq<Pending>, e: Entry, l: seq<Entry>)
    requires forall x :: x in p ==> Less(e.key, x.key)
    ensures Overlay(p, [e] + l) == [e] + Overlay(p, l)
  {
    assert ([e] + l)[1..] == l;
  }

  lemma OverlayFirstPending(x: Pending, p: seq<Pending>, l: seq<Entry>)
    requires forall e :: e in l ==> Less(x.key, e.key)
    ensures Overlay([x] + p, l) == Shown(x) + Overlay(p, l)
    ensures forall v :: Overlay([x] + p, [Entry(x.key, v)] + l) == Shown(x) + Overlay(p, l)
  {
    assert ([x] + p)[1..] == p;
    if l != [] {
      CmpFlip(x.key, l[0].key);
      CmpEqual(x.key, l[0].key);
    }
    CmpEqual(x.key, x.key);
    forall v ensures Overlay([x] + p, [Entry(x.key, v)] + l) == Shown(x) + Overlay(p, l) {
      assert ([Entry(x.key, v)] + l)[1..] == l;
    }
  }

  lemma {:induction false} WantedOverlayPending(r: ListRequest, p: seq<Pending>, s: seq<Entry>)
    requires PendingSorted(p) && EntriesSorted(s) && p != [] && (s == [] || !Less(s[0].key, p[0].key))
    ensures EntriesWanted(r, Overlay(p, s)) == Overlay(PendingWanted(r, p), EntriesWanted(r, s))
    decreases |p| + |s|, 0
  {
    var k := p[0].key;
    var same := s != [] && s[0].key == k;
    var rest := if same then s[1..] else s;
    WantedOverlay(r, p[1..], rest);
    ShownWanted(r, p[0], Overlay(p[1..], rest));
    if s != [] {
      CmpEqual(k, s[0].key);
      CmpFlip(k, s[0].key);
      if !same { BelowEntries(s, k); }
    }
    assert Overlay(p, s) == Shown(p[0]) + Overlay(p[1..], rest);
    var f, w := PendingWanted(r, p[1..]), EntriesWanted(r, rest);
    assert PendingWanted(r, p) == (if Wanted(r, k) then [p[0]] else []) + f;
    assert EntriesWanted(r, s) == (if same && Wanted(r, k) then [Entry(k, s[0].value)] else []) + w by {
      if same { assert s[0] == Entry(k, s[0].value); } else { NothingInFront(w); }
    }
    assert Wanted(r, k) ==> forall e :: e in w ==> Less(k, e.key);
    hide Overlay, EntriesWanted, PendingWanted, Wanted, EntriesSorted, PendingSorted;
    NothingInFront(w);
    NothingInFront(f);
    NothingInFront(EntriesWanted(r, Overlay(p[1..], rest)));
    if Wanted(r, k) { OverlayFirstPending(p[0], f, w); }
  }

  lemma ShownWanted(r: ListRequest, x: Pending, l: seq<Entry>)
    ensures EntriesWanted(r, Shown(x) + l) == (if Wanted(r, x.key) then Shown(x) else []) + EntriesWanted(r, l)
  {
    if x.value.Some? {
      WantedCons(r, Shown(x)[0], l);
    } else {
      assert Shown(x) + l == l;
    }
  }

  // ---- the answer

  // What the client asks the servers for: more, since pending writes may remove entries.
  function Fetched(r: ListRequest, p: seq<Pending>): nat {
    if r.count == 0 then 0 else r.count + |PendingIn(r, p)| + (if r.skip then 1 else 0)
  }

  function Answer(r: ListRequest, p: seq<Pending>, table: seq<Entry>): Listing {
    Merged(PendingWanted(r, p), WithoutStart(r, ServerPage(r, table, Fetched(r, p))), Bound(r.count))
  }

  // Fetching that much is enough.
  lemma FetchedSuffices(r: ListRequest, p: seq<Pending>, table: seq<Entry>)
    requires PendingSorted(p) && EntriesSorted(table)
    ensures var page := WithoutStart(r, ServerPage(r, table, Fetched(r, p)));
            EntriesSorted(page)
            && (Trips(PendingWanted(r, p), page, Bound(r.count)) <==> Trips(PendingWanted(r, p), EntriesWanted(r, table), Bound(r.count)))
            && Page(Overlay(PendingWanted(r, p), page), Bound(r.count))
               == Page(Overlay(PendingWanted(r, p), EntriesWanted(r, table)), Bound(r.count))
  {
    FilteredSorted(r, table);
    if r.count == 0 {
      WholeWithoutStart(r, table);
    } else {
      PendingFilteredSorted(r, p);
      PageWithoutStart(r, table, Fetched(r, p));
      var m :| Fetched(r, p) <= m + (if r.skip then 1 else 0) && m <= Fetched(r, p)
               && WithoutStart(r, ServerPage(r, table, Fetched(r, p))) == Page(EntriesWanted(r, table), Some(m));
      PageTrips(PendingWanted(r, p), EntriesWanted(r, table), r.count, m);
      PageOverlay(PendingWanted(r, p), EntriesWanted(r, table), r.count, m);
      PrefixSorted(EntriesWanted(r, table), m);
    }
  }

  lemma {:induction false} PrefixSorted(s: seq<Entry>, m: nat)
    requires EntriesSorted(s)
    ensures EntriesSorted(Page(s, Some(m)))
  {
    if s != [] && m > 0 {
      PageHead(s, m);
      PrefixSorted(s[1..], m - 1);
      PageOf(s[1..], m - 1);
      SortedCons(s[0], Page(s[1..], Some(m - 1)));
    }
  }

  // Main result: the answer is the wanted page of the table with the buffered writes applied, unless
  // a buffered delete inside that page names a key that the table does not hold.
  lemma ListingIsOverlay(r: ListRequest, writes: seq<Write>, table: seq<Entry>)
    requires MapOrder(writes) && EntriesSorted(table)
    ensures var p := TableWrites(writes, r.tableID);
            Answer(r, p, table) == Listed(Page(EntriesWanted(r, Overlay(p, table)), Bound(r.count)))
            <==> !exists d :: Stray(PendingWanted(r, p), EntriesWanted(r, table), Bound(r.count), d)
  {
    var p := TableWrites(writes, r.tableID);
    TableWritesSorted(writes, r.tableID);
    FilteredSorted(r, table);
    PendingFilteredSorted(r, p);
    FetchedSuffices(r, p, table);
    WantedOverlay(r, p, table);
    hide Stray, Merged, Overlay, Trips, EntriesSorted, PendingSorted, Page;
    MergedIsOverlay(PendingWanted(r, p), WithoutStart(r, ServerPage(r, table, Fetched(r, p))), Bound(r.count));
    TripsMeansStray(PendingWanted(r, p), EntriesWanted(r, table), Bound(r.count));
  }

  // In particular it is right if every buffered delete in range names a key that the table holds.
  lemma ListingOfPresentDeletes(r: ListRequest, writes: seq<Write>, table: seq<Entry>)
    requires MapOrder(writes) && EntriesSorted(table)
    requires forall x :: x in TableWrites(writes, r.tableID) && x.value.None? && Wanted(r, x.key) ==>
               exists e :: e in table && e.key == x.key
    ensures var p := TableWrites(writes, r.tableID);
            Answer(r, p, table) == Listed(Page(EntriesWanted(r, Overlay(p, table)), Bound(r.count)))
  {
    var p := TableWrites(writes, r.tableID);
    forall d ensures !Stray(PendingWanted(r, p), EntriesWanted(r, table), Bound(r.count), d) {
      if d in PendingWanted(r, p) && d.value.None? {
        var e :| e in table && e.key == d.key;
        assert e in EntriesWanted(r, table);
      }
    }
    hide Stray, Answer;
    ListingIsOverlay(r, writes, table);
  }

  // ---- what is listed, said of the table and of the writes themselves

  // The key is at or after the start (after it, if it is to be skipped), before the end, if there is one, and
  // begins with the prefix.
  predicate Asked(r: ListRequest, key: bytes) {
    && (if r.skip then Less(r.startKey, key) else AtMost(r.startKey, key))
    && (r.endKey != [] ==> Less(key, r.endKey))
    && |r.prefix| <= |key| && forall i :: 0 <= i < |r.prefix| ==> key[i] == r.prefix[i]
  }

  // The entry was set by a buffered write, or is in the table and there is no buffered write to its key.
  ghost predicate Visible(r: ListRequest, writes: seq<Write>, table: seq<Entry>, e: Entry) {
    Asked(r, e.key) &&
    (Write(r.tableID, e.key, Some(e.value)) in writes
     || (e in table && forall w :: w in writes && w.tableID == r.tableID ==> w.key != e.key))
  }

  lemma AskedIsWanted(r: ListRequest, key: bytes)
    ensures Asked(r, key) <==> Wanted(r, key)
  {
    CmpFlip(key, r.startKey);
    PrefixMeans(key, r.prefix);
  }

  lemma PrefixMeans(key: bytes, prefix: bytes)
    ensures BeginsWith(key, prefix) <==> |prefix| <= |key| && forall i :: 0 <= i < |prefix| ==> key[i] == prefix[i]
  {}

  lemma VisibleIsWanted(r: ListRequest, writes: seq<Write>, table: seq<Entry>, e: Entry)
    requires MapOrder(writes) && EntriesSorted(table)
    ensures Visible(r, writes, table, e) <==> e in EntriesWanted(r, Overlay(TableWrites(writes, r.tableID), table))
  {
    hide MapOrder, EntriesSorted, PendingSorted, Overlay, Asked, Wanted;
    var p := TableWrites(writes, r.tableID);
    TableWritesSorted(writes, r.tableID);
    OverlayMeans(p, table, e);
    AskedIsWanted(r, e.key);
    NotWritten(writes, r.tableID, e.key);
    var x := Pending(e.key, Some(e.value));
    assert x in p <==> Write(r.tableID, e.key, Some(e.value)) in writes;
    assert (exists y :: y in p && y.key == e.key && y.value == Some(e.value)) <==> x in p by {
      forall y | y in p && y.key == e.key && y.value == Some(e.value) ensures y == x {}
    }
  }

  lemma NotWritten(writes: seq<Write>, tableID: nat, key: bytes)
    ensures (forall w :: w in writes && w.tableID == tableID ==> w.key != key) <==> forall x :: x in TableWrites(writes, tableID) ==> x.key != key
  {
    if w :| w in writes && w.tableID == tableID && w.key == key {
      assert w == Write(tableID, key, w.value) && Pending(key, w.value) in TableWrites(writes, tableID);
    }
    if x :| x in TableWrites(writes, tableID) && x.key == key { assert Write(tableID, key, x.value) in writes; }
  }

  lemma {:induction false} SortedAt(l: seq<Entry>, i: nat, j: nat)
    requires EntriesSorted(l) && i < j < |l|
    ensures Less(l[i].key, l[j].key)
  {
    if i == 0 {
      assert l[j] in l[1..] by { assert l[1..][j - 1] == l[j]; }
    } else {
      SortedAt(l[1..], i - 1, j - 1);
    }
  }

  // Main result: where no buffered delete in range names a missing key, the listing has only visible entries, in
  // order and no more than asked for; and every visible entry that it does not have comes after all of a full
  // listing.
  lemma ListingMeans(r: ListRequest, writes: seq<Write>, table: seq<Entry>, e: Entry, k: nat)
    requires MapOrder(writes) && EntriesSorted(table)
    requires !exists d :: Stray(PendingWanted(r, TableWrites(writes, r.tableID)), EntriesWanted(r, table), Bound(r.count), d)
    ensures var answer := Answer(r, TableWrites(writes, r.tableID), table);
            answer.Listed? &&
            var l := answer.entries;
            && EntriesSorted(l) && (r.count > 0 ==> |l| <= r.count)
            && (k < |l| ==> Visible(r, writes, table, l[k]))
            && (Visible(r, writes, table, e) && e !in l ==>
                  r.count > 0 && |l| == r.count && (k < |l| ==> Less(l[k].key, e.key)))
  {
    hide Stray, Answer, PendingWanted, EntriesWanted, MapOrder, Overlay, Visible, Page, EntriesSorted;
    var p := TableWrites(writes, r.tableID);
    ListingIsOverlay(r, writes, table);
    AllSorted(r, writes, table);
    var all := EntriesWanted(r, Overlay(p, table));
    PageOfSorted(all, r.count, e, k);
    VisibleIsWanted(r, writes, table, e);
    var l := Page(all, Bound(r.count));
    if k < |l| { VisibleIsWanted(r, writes, table, l[k]); }
  }

  // A page of a sorted list: its first entries, and those missing come after all of it.
  lemma PageOfSorted(all: seq<Entry>, count: nat, e: Entry, k: nat)
    requires EntriesSorted(all)
    ensures var l := Page(all, Bound(count));
            && EntriesSorted(l) && (count > 0 ==> |l| <= count) && (k < |l| ==> l[k] in all)
            && (e in all && e !in l ==> count > 0 && |l| == count && (k < |l| ==> Less(l[k].key, e.key)))
  {
    hide EntriesSorted;
    var l := Page(all, Bound(count));
    if count > 0 { PrefixSorted(all, count); }
    if e in all && e !in l {
      var j :| 0 <= j < |all| && all[j] == e;
      assert forall i :: 0 <= i < |l| ==> l[i] == all[i];
      if k < |l| { SortedAt(all, k, j); }
    }
  }

  lemma AllSorted(r: ListRequest, writes: seq<Write>, table: seq<Entry>)
    requires MapOrder(writes) && EntriesSorted(table)
    ensures EntriesSorted(EntriesWanted(r, Overlay(TableWrites(writes, r.tableID), table)))
  {
    TableWritesSorted(writes, r.tableID);
    OverlaySorted(TableWrites(writes, r.tableID), table);
    FilteredSorted(r, Overlay(TableWrites(writes, r.tableID), table));
  }

  // ---- the code

  // Nothing that takes part comes after a write to a later table or to a key at or past the end.
  lemma {:induction false} NothingAfter(writes: seq<Write>, r: ListRequest)
    requires MapOrder(writes) && writes != []
    requires writes[0].tableID > r.tableID
             || (writes[0].tableID == r.tableID && r.endKey != [] && Cmp(writes[0].key, r.endKey) >= 0)
    ensures PendingWanted(r, TableWrites(writes, r.tableID)) == [] && PendingIn(r, TableWrites(writes, r.tableID)) == []
  {
    if |writes| > 1 {
      assert writes[1..][0] in writes[1..];
      if writes[1].tableID == r.tableID {
        CmpFlip(writes[0].key, r.endKey);
        CmpFlip(writes[1].key, r.endKey);
        CmpTransitive(r.endKey, writes[0].key, writes[1].key);
      }
      NothingAfter(writes[1..], r);
    }
    var head := if writes[0].tableID == r.tableID then [Pending(writes[0].key, writes[0].value)] else [];
    assert TableWrites(writes, r.tableID) == head + TableWrites(writes[1..], r.tableID);
    if head != [] {
      assert (head + TableWrites(writes[1..], r.tableID))[1..] == TableWrites(writes[1..], r.tableID);
    } else {
      assert [] + TableWrites(writes[1..], r.tableID) == TableWrites(writes[1..], r.tableID);
    }
  }

  // What one write adds to the part that takes part.
  lemma OneWrite(writes: seq<Write>, r: ListRequest)
    requires writes != []
    ensures var w, rest := writes[0], TableWrites(writes[1..], r.tableID);
            PendingWanted(r, TableWrites(writes, r.tableID))
            == (if w.tableID == r.tableID && Wanted(r, w.key) then [Pending(w.key, w.value)] else []) + PendingWanted(r, rest)
            && PendingIn(r, TableWrites(writes, r.tableID))
            == (if w.tableID == r.tableID && InList(r, w.key) then [Pending(w.key, w.value)] else []) + PendingIn(r, rest)
  {
    var w, rest := writes[0], TableWrites(writes[1..], r.tableID);
    if w.tableID == r.tableID {
      assert ([Pending(w.key, w.value)] + rest)[1..] == rest;
    } else {
      assert [] + rest == rest;
      NothingInFront(PendingWanted(r, rest));
      NothingInFront(PendingIn(r, rest));
    }
  }

  // The values of the sets alone.
  function SetValues(p: seq<Pending>): seq<bytes> {
    if p == [] then [] else (if p[0].value.Some? then [p[0].value.value] else []) + SetValues(p[1..])
  }

  lemma {:induction false} SetValuesAppend(p: seq<Pending>, x: Pending)
    ensures SetValues(p + [x]) == SetValues(p) + if x.value.Some? then [x.value.value] else []
  {
    if p == [] {
      assert p + [x] == [x] && [x][1..] == [];
    } else {
      SetValuesAppend(p[1..], x);
      assert (p + [x])[1..] == p[1..] + [x];
    }
  }

  lemma {:induction false} NextIsFirstValue(p: seq<Pending>)
    ensures NextValue(p) == if SetValues(p) == [] then None else Some(SetValues(p)[0])
  {
    if p != [] { NextIsFirstValue(p[1..]); }
  }

  // The tests on one write: is it past the part that takes part, and if not, does it take part?
  method Test(w: Write, r: ListRequest) returns (past: bool, taken: bool)
    ensures past <==> w.tableID > r.tableID || (w.tableID == r.tableID && r.endKey != [] && Cmp(w.key, r.endKey) >= 0)
    ensures !past ==> (taken <==> w.tableID == r.tableID && Wanted(r, w.key))
  {
    if w.tableID < r.tableID { return false, false; }
    if w.tableID > r.tableID { return true, false; }
    if |r.endKey| > 0 {
      if Cmp(w.key, r.endKey) >= 0 { return true, false; }
    }
    if !BeginsWith(w.key, r.prefix) { return false, false; }
    var cmp := Cmp(w.key, r.startKey);
    if cmp == 0 && r.skip { return false, false; }
    return false, |r.startKey| == 0 || cmp >= 0;
  }

  lemma MapOrderTail(writes: seq<Write>, i: nat)
    requires i < |writes| && MapOrder(writes[i..])
    ensures MapOrder(writes[i + 1..]) && writes[i..][1..] == writes[i + 1..] && writes[i..][0] == writes[i]
  {
    assert writes[i..][1..] == writes[i + 1..];
  }

  lemma Regroup<T>(a: seq<T>, b: seq<T>, c: seq<T>)
    ensures a + (b + c) == (a + b) + c
  {}

  // The first loop of ComputeListResponse, over the buffer in order of table and key.
  method PendingResult(writes: seq<Write>, r: ListRequest) returns (p: seq<Pending>, values: seq<bytes>)
    requires MapOrder(writes)
    ensures p == PendingWanted(r, TableWrites(writes, r.tableID)) && values == SetValues(p)
  {
    p, values := [], [];
    NothingInFront(PendingWanted(r, TableWrites(writes, r.tableID)));
    assert writes[0..] == writes;
    var i := 0;
    while i < |writes|
      invariant i <= |writes| && MapOrder(writes[i..]) && values == SetValues(p)
      invariant PendingWanted(r, TableWrites(writes, r.tableID)) == p + PendingWanted(r, TableWrites(writes[i..], r.tableID))
    {
      hide MapOrder, Wanted, TableWrites, PendingWanted, SetValues, KeyCmp;
      var w := writes[i];
      MapOrderTail(writes, i);
      var past, taken := Test(w, r);
      if past {
        NothingAfter(writes[i..], r);
        assert p + [] == p;
        return;
      }
      OneWrite(writes[i..], r);
      if taken {
        SetValuesAppend(p, Pending(w.key, w.value));
        Regroup(p, [Pending(w.key, w.value)], PendingWanted(r, TableWrites(writes[i + 1..], r.tableID)));
        p := p + [Pending(w.key, w.value)];
        if w.value.Some? { values := values + [w.value.value]; }
      } else {
        NothingInFront(PendingWanted(r, TableWrites(writes[i + 1..], r.tableID)));
      }
      i := i + 1;
    }
  }

  lemma NothingPending(r: ListRequest)
    ensures PendingIn(r, TableWrites([], r.tableID)) == []
  {}

  // The same tests without the skip.
  method Counts(w: Write, r: ListRequest) returns (past: bool, taken: bool)
    ensures past <==> w.tableID > r.tableID || (w.tableID == r.tableID && r.endKey != [] && Cmp(w.key, r.endKey) >= 0)
    ensures !past ==> (taken <==> w.tableID == r.tableID && InList(r, w.key))
  {
    if w.tableID < r.tableID { return false, false; }
    if w.tableID > r.tableID { return true, false; }
    if |r.endKey| > 0 {
      if Cmp(w.key, r.endKey) >= 0 { return true, false; }
    }
    if !BeginsWith(w.key, r.prefix) { return false, false; }
    return false, Cmp(w.key, r.startKey) >= 0;
  }

  method NumProxiedDeletes(writes: seq<Write>, r: ListRequest) returns (count: nat)
    requires MapOrder(writes)
    ensures count == |PendingIn(r, TableWrites(writes, r.tableID))|
  {
    hide MapOrder, TableWrites, PendingIn, KeyCmp, Cmp, InList;
    NothingPending(r);
    count := 0;
    assert writes[0..] == writes;
    var i := 0;
    while i < |writes|
      invariant i <= |writes| && MapOrder(writes[i..])
      invariant |PendingIn(r, TableWrites(writes, r.tableID))| == count + |PendingIn(r, TableWrites(writes[i..], r.tableID))|
    {
      var w := writes[i];
      MapOrderTail(writes, i);
      var past, taken := Counts(w, r);
      if past {
        NothingAfter(writes[i..], r);
        return;
      }
      OneWrite(writes[i..], r);
      if taken { count := count + 1; }
      i := i + 1;
    }
    assert writes[i..] == [];
  }

  // One turn of the merge loop: what is appended, and how far each cursor moves.
  datatype Turn = Turn(entry: Option<Entry>, pending: nat, server: nat) | Crash

  function TurnOf(p: seq<Pending>, s: seq<Entry>): (t: Turn)
    requires p != [] || s != []
    ensures t.Turn? ==> t.pending <= |p| && t.server <= |s| && t.pending <= 1 && t.server <= 1 && t.pending + t.server >= 1
  {
    if p == [] then Turn(Some(s[0]), 0, 1)
    else if s == [] then Turn(if p[0].value.Some? then Some(Entry(p[0].key, p[0].value.value)) else None, 1, 0)
    else if p[0].key == s[0].key then Turn(if p[0].value.Some? then Some(Entry(p[0].key, p[0].value.value)) else None, 1, 1)
    else if Less(p[0].key, s[0].key) then
      if NextValue(p).None? then Crash else Turn(Some(Entry(p[0].key, NextValue(p).value)), 1, 0)
    else Turn(Some(s[0]), 0, 1)
  }

  function EntryList(e: Option<Entry>): seq<Entry> { if e.Some? then [e.value] else [] }

  lemma MergedByTurns(p: seq<Pending>, s: seq<Entry>, bound: Option<nat>)
    requires (p != [] || s != []) && bound != Some(0)
    ensures var t := TurnOf(p, s);
            Merged(p, s, bound) ==
              if t.Crash? then Crashed
              else Merged(p[t.pending..], s[t.server..], if t.entry.Some? then Fewer(bound) else bound).After(EntryList(t.entry))
  {
    assert p[0..] == p && s[0..] == s;
    var t := TurnOf(p, s);
    if t.Turn? && t.entry.None? {
      var l := Merged(p[t.pending..], s[t.server..], bound);
      if l.Listed? { NothingInFront(l.entries); }
    }
  }

  lemma AfterTwice(a: seq<Entry>, b: seq<Entry>, l: Listing)
    ensures l.After(b).After(a) == l.After(a + b)
  {
    if l.Listed? { Regroup(a, b, l.entries); }
  }

  // The turn by the cursors: values holds the values of the sets alone.
  method NextTurn(p: seq<Pending>, values: seq<bytes>, s: seq<Entry>) returns (t: Turn)
    requires (p != [] || s != []) && values == SetValues(p)
    ensures t == TurnOf(p, s)
  {
    NextIsFirstValue(p);
    if p == [] { return Turn(Some(s[0]), 0, 1); }
    if s == [] {
      return Turn(if p[0].value.Some? then Some(Entry(p[0].key, values[0])) else None, 1, 0);
    }
    var cmp := Cmp(p[0].key, s[0].key);
    CmpEqual(p[0].key, s[0].key);
    if cmp == 0 {
      return Turn(if p[0].value.Some? then Some(Entry(p[0].key, values[0])) else None, 1, 1);
    } else if cmp < 0 {
      if values == [] { return Crash; }
      return Turn(Some(Entry(p[0].key, values[0])), 1, 0);
    } else {
      return Turn(Some(s[0]), 0, 1);
    }
  }

  // The merge loop; the cursors are what is left of the lists.
  method Merge(pending: seq<Pending>, pendingValues: seq<bytes>, entries: seq<Entry>, count: nat) returns (result: Listing)
    requires pendingValues == SetValues(pending)
    ensures result == Merged(pending, entries, Bound(count))
  {
    hide Merged, TurnOf, SetValues;
    var p, values, s := pending, pendingValues, entries;
    var merged: seq<Entry> := [];
    ghost var bound := Bound(count);
    MergedStarts(p, s, bound);
    while !(count > 0 && |merged| == count) && !(p == [] && s == [])
      invariant values == SetValues(p) && (count > 0 ==> |merged| <= count)
      invariant bound == if count == 0 then None else Some(count - |merged|)
      invariant Merged(pending, entries, Bound(count)) == Merged(p, s, bound).After(merged)
      decreases |p| + |s|
    {
      MergedByTurns(p, s, bound);
      var t := NextTurn(p, values, s);
      if t.Crash? { return Crashed; }
      AfterTwice(merged, EntryList(t.entry), Merged(p[t.pending..], s[t.server..], if t.entry.Some? then Fewer(bound) else bound));
      if t.pending == 1 {
        FirstValue(p);
        if p[0].value.Some? { values := values[1..]; }
      }
      assert t.pending == 0 ==> p[0..] == p;
      p, s := p[t.pending..], s[t.server..];
      if t.entry.Some? { bound := Fewer(bound); }
      merged := merged + EntryList(t.entry);
    }
    MergedEnds(p, s, bound);
    assert merged + [] == merged;
    return Listed(merged);
  }

  lemma MergedStarts(p: seq<Pending>, s: seq<Entry>, bound: Option<nat>)
    ensures Merged(p, s, bound).After([]) == Merged(p, s, bound)
  {
    hide Merged;
    if Merged(p, s, bound).Listed? { NothingInFront(Merged(p, s, bound).entries); }
  }

  lemma MergedEnds(p: seq<Pending>, s: seq<Entry>, bound: Option<nat>)
    requires bound == Some(0) || (p == [] && s == [])
    ensures Merged(p, s, bound) == Listed([])
  {}

  lemma FirstValue(p: seq<Pending>)
    requires p != []
    ensures p[0].value.Some? ==> SetValues(p) != [] && SetValues(p)[1..] == SetValues(p[1..])
    ensures p[0].value.None? ==> SetValues(p) == SetValues(p[1..])
  {}

  // The server's entries without the start key.
  method ServerResult(r: ListRequest, page: seq<Entry>) returns (s: seq<Entry>)
    ensures s == WithoutStart(r, page)
  {
    s := [];
    NothingInFront(WithoutStart(r, page));
    assert page[0..] == page;
    for i := 0 to |page|
      invariant WithoutStart(r, page) == s + WithoutStart(r, page[i..])
    {
      assert page[i..][1..] == page[i + 1..];
      if !(Cmp(page[i].key, r.startKey) == 0 && r.skip) {
        Regroup(s, [page[i]], WithoutStart(r, page[i + 1..]));
        s := s + [page[i]];
      } else {
        NothingInFront(WithoutStart(r, page[i + 1..]));
      }
    }
    assert s + [] == s;
  }

  // All of it, given the page that the server sent.
  method ComputeListResponse(writes: seq<Write>, r: ListRequest, page: seq<Entry>) returns (result: Listing)
    requires MapOrder(writes)
    ensures result == Merged(PendingWanted(r, TableWrites(writes, r.tableID)), WithoutStart(r, page), Bound(r.count))
  {
    var p, values := PendingResult(writes, r);
    var s := ServerResult(r, page);
    result := Merge(p, values, s, r.count);
  }
}
