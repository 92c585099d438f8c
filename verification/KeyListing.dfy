// Listing the keys of a table alone (Client::ListKeys and the branches for CLIENTREQUEST_LIST_KEYS in
// Client::ComputeListResponse of src/Application/Client/SDBPClient.cpp): no values are looked at, so a
// deleted key that is listed does no more harm than that.

module KeyListings {
  import opened Bytes
  import opened KeyedLists
  import opened RequestProxies
  import opened ListResponses
  import opened Listings

  function Keys(s: seq<Entry>): (k: seq<bytes>)
    ensures |k| == |s| && forall i :: 0 <= i < |s| ==> k[i] == s[i].key
  {
    if s == [] then [] else [s[0].key] + Keys(s[1..])
  }

  lemma KeysCons(x: Entry, s: seq<Entry>)
    ensures Keys([x] + s) == [x.key] + Keys(s)
  {
    assert ([x] + s)[1..] == s;
  }

  lemma KeysOfPage(s: seq<Entry>, bound: Option<nat>)
    ensures Keys(Page(s, bound)) == Page(Keys(s), bound)
  {}

  // The merge of the code without its values.
  function MergedKeys(p: seq<Pending>, k: seq<bytes>, bound: Option<nat>): seq<bytes>
    decreases |p| + |k|
  {
    if bound == Some(0) || (p == [] && k == []) then []
    else if p == [] then [k[0]] + MergedKeys(p, k[1..], Fewer(bound))
    else if k == [] then
      if p[0].value.Some? then [p[0].key] + MergedKeys(p[1..], k, Fewer(bound)) else MergedKeys(p[1..], k, bound)
    else if p[0].key == k[0] then
      if p[0].value.Some? then [p[0].key] + MergedKeys(p[1..], k[1..], Fewer(bound)) else MergedKeys(p[1..], k[1..], bound)
    else if Less(p[0].key, k[0]) then [p[0].key] + MergedKeys(p[1..], k, Fewer(bound))
    else [k[0]] + MergedKeys(p, k[1..], Fewer(bound))
  }

  lemma SameHead<T>(x: T, a: seq<T>, b: seq<T>)
    ensures [x] + a == [x] + b <==> a == b
  {
    if [x] + a == [x] + b { assert ([x] + a)[1..] == a && ([x] + b)[1..] == b; }
  }

  // One key in front of both sides.
  lemma HeadOfPage(x: Entry, rest: seq<bytes>, l: seq<Entry>, bound: Option<nat>)
    requires bound != Some(0)
    ensures [x.key] + rest == Page(Keys([x] + l), bound) <==> rest == Page(Keys(l), Fewer(bound))
  {
    KeysCons(x, l);
    PageCons(x.key, Keys(l), bound);
    SameHead(x.key, rest, Page(Keys(l), Fewer(bound)));
  }

  lemma EmptyPage<T>(l: seq<T>)
    ensures Page(l, Some(0)) == []
  {}

  lemma {:induction false} KeysWithoutPending(s: seq<Entry>, bound: Option<nat>)
    ensures MergedKeys([], Keys(s), bound) == Page(Keys(s), bound)
  {
    EmptyPage(Keys(s));
    if s != [] && bound != Some(0) {
      KeysWithoutPending(s[1..], Fewer(bound));
      assert s == [s[0]] + s[1..] && Keys(s)[1..] == Keys(s[1..]);
      HeadOfPage(s[0], MergedKeys([], Keys(s[1..]), Fewer(bound)), s[1..], bound);
      hide Page;
    }
  }

  lemma {:induction false} KeysWithoutEntries(p: seq<Pending>, bound: Option<nat>)
    ensures MergedKeys(p, [], bound) == Page(Keys(Overlay(p, [])), bound)
  {
    EmptyPage(Keys(Overlay(p, [])));
    if p != [] && bound != Some(0) {
      KeysWithoutEntries(p[1..], if p[0].value.Some? then Fewer(bound) else bound);
      if p[0].value.Some? { HeadOfPage(Shown(p[0])[0], MergedKeys(p[1..], [], Fewer(bound)), Overlay(p[1..], []), bound); }
      hide Page, Keys;
      assert p[0].value.None? ==> Overlay(p, []) == Overlay(p[1..], []);
    }
  }

  // The merge of keys computes the keys of the wanted page under the same condition.
  lemma {:induction false} MergedKeysIsOverlay(p: seq<Pending>, s: seq<Entry>, bound: Option<nat>)
    requires PendingSorted(p) && EntriesSorted(s)
    ensures MergedKeys(p, Keys(s), bound) == Page(Keys(Overlay(p, s)), bound) <==> !Trips(p, s, bound)
    decreases |p| + |s|
  {
    EmptyPage(Keys(Overlay(p, s)));
    hide Page, Cmp;
    if p == [] {
      OverlayNoPending(s);
      KeysWithoutPending(s, bound);
    } else if s == [] {
      KeysWithoutEntries(p, bound);
    } else if bound != Some(0) {
      CmpEqual(p[0].key, s[0].key);
      CmpFlip(p[0].key, s[0].key);
      if p[0].key != s[0].key && Less(p[0].key, s[0].key) && p[0].value.None? {
        DeletedKeyInKeys(p, s, bound);
      } else if Less(s[0].key, p[0].key) {
        EntryFirst(p, s, bound);
      } else {
        PendingFirst(p, s, bound);
      }
    }
  }

  lemma {:induction false} EntryFirst(p: seq<Pending>, s: seq<Entry>, bound: Option<nat>)
    requires PendingSorted(p) && EntriesSorted(s) && p != [] && s != [] && bound != Some(0) && Less(s[0].key, p[0].key)
    ensures MergedKeys(p, Keys(s), bound) == Page(Keys(Overlay(p, s)), bound) <==> !Trips(p, s, bound)
    decreases |p| + |s|, 0
  {
    MergedKeysIsOverlay(p, s[1..], Fewer(bound));
    HeadOfPage(s[0], MergedKeys(p, Keys(s[1..]), Fewer(bound)), Overlay(p, s[1..]), bound);
    CmpEqual(p[0].key, s[0].key);
    CmpFlip(s[0].key, p[0].key);
    assert Keys(s)[1..] == Keys(s[1..]);
    hide Page, Cmp, PendingSorted, EntriesSorted;
  }

  lemma {:induction false} PendingFirst(p: seq<Pending>, s: seq<Entry>, bound: Option<nat>)
    requires PendingSorted(p) && EntriesSorted(s) && p != [] && s != [] && bound != Some(0)
    requires p[0].key == s[0].key || (Less(p[0].key, s[0].key) && p[0].value.Some?)
    ensures MergedKeys(p, Keys(s), bound) == Page(Keys(Overlay(p, s)), bound) <==> !Trips(p, s, bound)
    decreases |p| + |s|, 0
  {
    var rest := if p[0].key == s[0].key then s[1..] else s;
    var bound' := if p[0].value.Some? then Fewer(bound) else bound;
    MergedKeysIsOverlay(p[1..], rest, bound');
    if p[0].value.Some? { HeadOfPage(Shown(p[0])[0], MergedKeys(p[1..], Keys(rest), bound'), Overlay(p[1..], rest), bound); }
    CmpEqual(p[0].key, s[0].key);
    CmpFlip(p[0].key, s[0].key);
    assert Keys(s)[1..] == Keys(s[1..]);
    hide Page, Cmp, PendingSorted, EntriesSorted;
    assert Overlay(p, s) == Shown(p[0]) + Overlay(p[1..], rest);
    assert p[0].value.None? ==> Overlay(p, s) == Overlay(p[1..], rest);
  }

  lemma DeletedKeyInKeys(p: seq<Pending>, s: seq<Entry>, bound: Option<nat>)
    requires PendingSorted(p) && EntriesSorted(s) && p != [] && s != [] && bound != Some(0)
    requires Less(p[0].key, s[0].key) && p[0].key != s[0].key && p[0].value.None?
    ensures MergedKeys(p, Keys(s), bound) != Page(Keys(Overlay(p, s)), bound)
  {
    hide Cmp;
    var k := p[0].key;
    BelowEntries(s, k);
    OverlayAbove(p[1..], s, k);
    CmpFlip(k, s[0].key);
    CmpEqual(k, k);
    assert Overlay(p, s) == Overlay(p[1..], s);
    assert MergedKeys(p, Keys(s), bound)[0] == k;
    var page := Page(Keys(Overlay(p, s)), bound);
    if page != [] { assert page[0] == Overlay(p, s)[0].key && Overlay(p, s)[0] in Overlay(p, s); }
  }

  // ---- the answer

  function KeysWithoutStart(r: ListRequest, k: seq<bytes>): seq<bytes> {
    if k == [] then []
    else (if r.skip && Cmp(k[0], r.startKey) == 0 then [] else [k[0]]) + KeysWithoutStart(r, k[1..])
  }

  lemma {:induction false} KeysOfWithoutStart(r: ListRequest, page: seq<Entry>)
    ensures KeysWithoutStart(r, Keys(page)) == Keys(WithoutStart(r, page))
  {
    if page != [] {
      KeysOfWithoutStart(r, page[1..]);
      assert Keys(page)[1..] == Keys(page[1..]);
      KeysCons(page[0], WithoutStart(r, page[1..]));
      NothingInFront(WithoutStart(r, page[1..]));
      NothingInFront(KeysWithoutStart(r, Keys(page[1..])));
    }
  }

  // What the client lists if the server sends the keys of its page.
  function KeyAnswer(r: ListRequest, p: seq<Pending>, table: seq<Entry>): seq<bytes> {
    MergedKeys(PendingWanted(r, p), KeysWithoutStart(r, Keys(ServerPage(r, table, Fetched(r, p)))), Bound(r.count))
  }

  // Main result: a listing of keys is right under exactly the condition of a listing with values.
  lemma KeyListingIsOverlay(r: ListRequest, writes: seq<Write>, table: seq<Entry>)
    requires MapOrder(writes) && EntriesSorted(table)
    ensures var p := TableWrites(writes, r.tableID);
            KeyAnswer(r, p, table) == Page(Keys(EntriesWanted(r, Overlay(p, table))), Bound(r.count))
            <==> !exists d :: Stray(PendingWanted(r, p), EntriesWanted(r, table), Bound(r.count), d)
  {
    var p := TableWrites(writes, r.tableID);
    var page := WithoutStart(r, ServerPage(r, table, Fetched(r, p)));
    TableWritesSorted(writes, r.tableID);
    FilteredSorted(r, table);
    PendingFilteredSorted(r, p);
    FetchedSuffices(r, p, table);
    WantedOverlay(r, p, table);
    hide Stray, MergedKeys, Overlay, Trips, EntriesSorted, PendingSorted, Page, Keys;
    KeysOfWithoutStart(r, ServerPage(r, table, Fetched(r, p)));
    MergedKeysIsOverlay(PendingWanted(r, p), page, Bound(r.count));
    KeysOfPage(Overlay(PendingWanted(r, p), page), Bound(r.count));
    KeysOfPage(Overlay(PendingWanted(r, p), EntriesWanted(r, table)), Bound(r.count));
    TripsMeansStray(PendingWanted(r, p), EntriesWanted(r, table), Bound(r.count));
  }

  // ---- the code

  // The merge loop without the cursors of values.
  method MergeKeys(pending: seq<Pending>, keys: seq<bytes>, count: nat) returns (merged: seq<bytes>)
    ensures merged == MergedKeys(pending, keys, Bound(count))
  {
    var p, k := pending, keys;
    merged := [];
    NothingInFront(MergedKeys(p, k, Bound(count)));
    while !(count > 0 && |merged| == count) && !(p == [] && k == [])
      invariant count > 0 ==> |merged| <= count
      invariant MergedKeys(pending, keys, Bound(count))
                == merged + MergedKeys(p, k, if count == 0 then None else Some(count - |merged|))
      decreases |p| + |k|
    {
      ghost var bound := if count == 0 then None else Some(count - |merged|);
      hide Cmp;
      if p == [] {
        Regroup(merged, [k[0]], MergedKeys(p, k[1..], Fewer(bound)));
        merged, k := merged + [k[0]], k[1..];
        continue;
      } else if k == [] {
        if p[0].value.Some? {
          Regroup(merged, [p[0].key], MergedKeys(p[1..], k, Fewer(bound)));
          merged := merged + [p[0].key];
        }
        p := p[1..];
        continue;
      }
      var cmp := Cmp(p[0].key, k[0]);
      CmpEqual(p[0].key, k[0]);
      if cmp == 0 {
        if p[0].value.Some? {
          Regroup(merged, [p[0].key], MergedKeys(p[1..], k[1..], Fewer(bound)));
          merged := merged + [p[0].key];
        }
        p, k := p[1..], k[1..];
      } else if cmp < 0 {
        Regroup(merged, [p[0].key], MergedKeys(p[1..], k, Fewer(bound)));
        merged, p := merged + [p[0].key], p[1..];
      } else {
        Regroup(merged, [k[0]], MergedKeys(p, k[1..], Fewer(bound)));
        merged, k := merged + [k[0]], k[1..];
      }
    }
    assert merged + [] == merged;
  }

  // The server's keys without the start key.
  method ServerKeys(r: ListRequest, page: seq<bytes>) returns (k: seq<bytes>)
    ensures k == KeysWithoutStart(r, page)
  {
    k := [];
    NothingInFront(KeysWithoutStart(r, page));
    assert page[0..] == page;
    for i := 0 to |page|
      invariant KeysWithoutStart(r, page) == k + KeysWithoutStart(r, page[i..])
    {
      assert page[i..][1..] == page[i + 1..];
      if !(Cmp(page[i], r.startKey) == 0 && r.skip) {
        Regroup(k, [page[i]], KeysWithoutStart(r, page[i + 1..]));
        k := k + [page[i]];
      } else {
        NothingInFront(KeysWithoutStart(r, page[i + 1..]));
      }
    }
    assert k + [] == k;
  }

  // All of it, given the keys that the server sent.
  method ComputeKeyResponse(writes: seq<Write>, r: ListRequest, page: seq<bytes>) returns (result: seq<bytes>)
    requires MapOrder(writes)
    ensures result == MergedKeys(PendingWanted(r, TableWrites(writes, r.tableID)), KeysWithoutStart(r, page), Bound(r.count))
  {
    var p, values := PendingResult(writes, r);
    var k := ServerKeys(r, page);
    result := MergeKeys(p, k, r.count);
  }
}
