// The client's buffer of writes (src/Application/Client/SDBPRequestProxy.cpp): a map in order of table
// and key, a list in order of arrival, and the number of bytes, all kept in step.

module RequestProxies {
  import opened Bytes
  import opened KeyedLists

  // A pending write; without a value it is a delete.
  datatype Write = Write(tableID: nat, key: bytes, value: Option<bytes>)

  type Place = (nat, bytes)

  function PlaceOf(w: Write): Place { (w.tableID, w.key) }

  // KeyCmp: by table, then by key.
  function KeyCmp(a: Write, b: Write): int {
    if a.tableID < b.tableID then -1 else if a.tableID > b.tableID then 1 else Cmp(a.key, b.key)
  }

  lemma KeyOrder(a: Write, b: Write, c: Write)
    ensures KeyCmp(a, b) == 0 <==> PlaceOf(a) == PlaceOf(b)
    ensures KeyCmp(a, b) < 0 <==> KeyCmp(b, a) > 0
    ensures KeyCmp(a, b) < 0 && KeyCmp(b, c) < 0 ==> KeyCmp(a, c) < 0
  {
    CmpEqual(a.key, b.key);
    CmpFlip(a.key, b.key);
    if Cmp(a.key, b.key) <= 0 && Cmp(b.key, c.key) <= 0 { CmpTransitive(a.key, b.key, c.key); }
  }

  // ---- lists of writes

  predicate DistinctPlaces(l: seq<Write>) {
    l == [] || ((forall y :: y in l[1..] ==> PlaceOf(y) != PlaceOf(l[0])) && DistinctPlaces(l[1..]))
  }

  predicate MapOrder(l: seq<Write>) {
    l == [] || ((forall y :: y in l[1..] ==> KeyCmp(l[0], y) < 0) && MapOrder(l[1..]))
  }

  function FindPlace(l: seq<Write>, p: Place): (r: Option<Write>)
    ensures r.Some? ==> r.value in l && PlaceOf(r.value) == p
    ensures r.None? ==> forall y :: y in l ==> PlaceOf(y) != p
  {
    if l == [] then None else if PlaceOf(l[0]) == p then Some(l[0]) else FindPlace(l[1..], p)
  }

  function WithoutPlace(l: seq<Write>, p: Place): (r: seq<Write>)
    ensures forall y :: y in r ==> y in l
    ensures forall y :: y in l && PlaceOf(y) != p ==> y in r
    ensures DistinctPlaces(l) ==> DistinctPlaces(r) && forall y :: y in r ==> PlaceOf(y) != p
    ensures MapOrder(l) ==> MapOrder(r)
    ensures multiset(l) == multiset(r) + (if FindPlace(l, p).Some? then multiset{FindPlace(l, p).value} else multiset{})
  {
    if l == [] then []
    else
      assert l == [l[0]] + l[1..];
      if PlaceOf(l[0]) == p then l[1..] else [l[0]] + WithoutPlace(l[1..], p)
  }

  function InsertInMap(l: seq<Write>, w: Write): (r: seq<Write>)
    ensures multiset(r) == multiset(l) + multiset{w}
    ensures forall y :: y in r <==> y in l || y == w
  {
    if l == [] then [w]
    else
      assert l == [l[0]] + l[1..];
      if KeyCmp(w, l[0]) < 0 then [w] + l else [l[0]] + InsertInMap(l[1..], w)
  }

  lemma {:induction false} InsertKeepsOrder(l: seq<Write>, w: Write)
    requires MapOrder(l) && forall y :: y in l ==> PlaceOf(y) != PlaceOf(w)
    ensures MapOrder(InsertInMap(l, w))
  {
    if l != [] {
      KeyOrder(w, l[0], w);
      if KeyCmp(w, l[0]) < 0 {
        forall y | y in l ensures KeyCmp(w, y) < 0 { KeyOrder(w, l[0], y); }
        assert ([w] + l)[1..] == l;
      } else {
        InsertKeepsOrder(l[1..], w);
        assert KeyCmp(l[0], w) < 0 by { KeyOrder(l[0], w, w); assert l[0] in l; }
      }
    }
  }

  function AppendWrite(l: seq<Write>, w: Write): (r: seq<Write>)
    ensures DistinctPlaces(l) && (forall y :: y in l ==> PlaceOf(y) != PlaceOf(w)) ==> DistinctPlaces(r)
    ensures r == l + [w]
  {
    if l == [] then [w]
    else
      assert l + [w] == [l[0]] + (l[1..] + [w]);
      [l[0]] + AppendWrite(l[1..], w)
  }

  // ---- what the writes mean

  type Store = map<Place, bytes>

  function Apply(s: Store, w: Write): Store {
    if w.value.Some? then s[PlaceOf(w) := w.value.value] else s - {PlaceOf(w)}
  }

  function ApplyAll(s: Store, l: seq<Write>): Store
    decreases |l|
  {
    if l == [] then s else ApplyAll(Apply(s, l[0]), l[1..])
  }

  lemma {:induction false} ApplyAllConcat(s: Store, a: seq<Write>, b: seq<Write>)
    ensures ApplyAll(s, a + b) == ApplyAll(ApplyAll(s, a), b)
    decreases |a|
  {
    if a == [] {
      assert a + b == b;
    } else {
      ApplyAllConcat(Apply(s, a[0]), a[1..], b);
      assert (a + b)[1..] == a[1..] + b;
    }
  }

  // The stores hold the same except perhaps at p.
  ghost predicate SameBut(s: Store, t: Store, p: Place) {
    forall k :: k != p ==> (k in s <==> k in t) && (k in s ==> s[k] == t[k])
  }

  lemma {:induction false} WithoutIsSameBut(s: Store, t: Store, l: seq<Write>, p: Place)
    requires SameBut(s, t, p)
    ensures SameBut(ApplyAll(s, l), ApplyAll(t, WithoutPlace(l, p)), p)
    decreases |l|
  {
    if l != [] {
      if PlaceOf(l[0]) == p {
        assert SameBut(Apply(s, l[0]), t, p);
        SameButApply(Apply(s, l[0]), t, l[1..], p);
      } else {
        assert SameBut(Apply(s, l[0]), Apply(t, l[0]), p);
        WithoutIsSameBut(Apply(s, l[0]), Apply(t, l[0]), l[1..], p);
      }
    }
  }

  lemma {:induction false} SameButApply(s: Store, t: Store, l: seq<Write>, p: Place)
    requires SameBut(s, t, p)
    ensures SameBut(ApplyAll(s, l), ApplyAll(t, l), p)
    decreases |l|
  {
    if l != [] {
      assert SameBut(Apply(s, l[0]), Apply(t, l[0]), p);
      SameButApply(Apply(s, l[0]), Apply(t, l[0]), l[1..], p);
    }
  }

  function Coalesced(l: seq<Write>, w: Write): seq<Write> { WithoutPlace(l, PlaceOf(w)) + [w] }

  lemma ApplySame(a: Store, b: Store, w: Write)
    requires SameBut(a, b, PlaceOf(w))
    ensures Apply(a, w) == Apply(b, w)
  {}

  // Replacing the earlier write to the same place and adding at the end means the same as adding.
  lemma CoalescedMeans(s: Store, l: seq<Write>, w: Write)
    ensures ApplyAll(s, Coalesced(l, w)) == Apply(ApplyAll(s, l), w)
  {
    var p := PlaceOf(w);
    ApplyAllConcat(s, WithoutPlace(l, p), [w]);
    WithoutIsSameBut(s, s, l, p);
    hide WithoutPlace, SameBut, Apply;
    ApplySame(ApplyAll(s, l), ApplyAll(s, WithoutPlace(l, p)), w);
    assert [w][1..] == [];
  }

  lemma ApplyLast(s: Store, l: seq<Write>, w: Write)
    ensures ApplyAll(s, l + [w]) == Apply(ApplyAll(s, l), w)
  {
    ApplyAllConcat(s, l, [w]);
    assert [w][1..] == [];
  }

  // The buffer after a sequence of writes.
  function Buffered(l: seq<Write>, calls: seq<Write>): seq<Write>
    decreases |calls|
  {
    if calls == [] then l else Buffered(Coalesced(l, calls[0]), calls[1..])
  }

  // Main result: writing the buffer out, oldest first, has the same effect on every store as all
  // the calls in their own order.
  lemma {:induction false} BufferMeansCalls(s: Store, l: seq<Write>, calls: seq<Write>)
    ensures ApplyAll(s, Buffered(l, calls)) == ApplyAll(s, l + calls)
    decreases |calls|
  {
    if calls == [] {
      assert l + calls == l;
    } else {
      assert l + calls == (l + [calls[0]]) + calls[1..];
      hide WithoutPlace, Coalesced, ApplyAll, Apply;
      BufferMeansCalls(s, Coalesced(l, calls[0]), calls[1..]);
      CoalescedMeans(s, l, calls[0]);
      ApplyAllConcat(s, Coalesced(l, calls[0]), calls[1..]);
      ApplyLast(s, l, calls[0]);
      ApplyAllConcat(s, l + [calls[0]], calls[1..]);
    }
  }

  // What a read sees through the buffer: the pending write to the place, or else the store.
  function ReadThrough(s: Store, l: seq<Write>, p: Place): Option<bytes> {
    var w := FindPlace(l, p);
    if w.Some? then w.value.value else if p in s then Some(s[p]) else None
  }

  lemma {:induction false} ReadYourWrites(s: Store, l: seq<Write>, p: Place)
    requires DistinctPlaces(l)
    ensures ReadThrough(s, l, p) == if p in ApplyAll(s, l) then Some(ApplyAll(s, l)[p]) else None
    decreases |l|
  {
    if l != [] {
      ReadYourWrites(Apply(s, l[0]), l[1..], p);
      if PlaceOf(l[0]) == p { assert FindPlace(l[1..], p).None?; }
    }
  }

  // ---- the buffer itself

  const ARRAY_SIZE: nat := 16

  // Short texts are stored in the request.
  function BufferLength(n: nat): nat { if n > ARRAY_SIZE then n else 0 }

  function RequestSize(w: Write, overhead: nat): nat {
    BufferLength(|w.key|) + BufferLength(if w.value.Some? then |w.value.value| else 0) + overhead
  }

  function TotalSize(l: seq<Write>, overhead: nat): nat {
    if l == [] then 0 else RequestSize(l[0], overhead) + TotalSize(l[1..], overhead)
  }

  lemma {:induction false} TotalSizeAppend(l: seq<Write>, w: Write, overhead: nat)
    ensures TotalSize(l + [w], overhead) == TotalSize(l, overhead) + RequestSize(w, overhead)
  {
    if l == [] {
      assert l + [w] == [w] && [w][1..] == [];
    } else {
      TotalSizeAppend(l[1..], w, overhead);
      assert (l + [w])[1..] == l[1..] + [w];
    }
  }

  lemma {:induction false} TotalSizeWithout(l: seq<Write>, p: Place, overhead: nat)
    ensures TotalSize(l, overhead) == TotalSize(WithoutPlace(l, p), overhead) +
              if FindPlace(l, p).Some? then RequestSize(FindPlace(l, p).value, overhead) else 0
  {
    if l != [] && PlaceOf(l[0]) != p {
      TotalSizeWithout(l[1..], p, overhead);
      assert ([l[0]] + WithoutPlace(l[1..], p))[1..] == WithoutPlace(l[1..], p);
    }
  }

  // The same places are found in the list and in the map.
  lemma SameFound(l: seq<Write>, m: seq<Write>, p: Place)
    requires DistinctPlaces(l) && MapOrder(m) && multiset(l) == multiset(m)
    ensures FindPlace(l, p) == FindPlace(m, p)
  {
    var a, b := FindPlace(l, p), FindPlace(m, p);
    assert forall y :: y in l <==> y in multiset(l);
    assert forall y :: y in m <==> y in multiset(m);
    if a.Some? && b.Some? { OneAtPlace(l, a.value, b.value); }
  }

  lemma {:induction false} OneAtPlace(l: seq<Write>, a: Write, b: Write)
    requires DistinctPlaces(l) && a in l && b in l && PlaceOf(a) == PlaceOf(b)
    ensures a == b
  {
    if a != l[0] && b != l[0] { OneAtPlace(l[1..], a, b); }
  }

  lemma RemoveStep(l: seq<Write>, m: seq<Write>, w: Write, overhead: nat)
    requires DistinctPlaces(l) && MapOrder(m) && multiset(l) == multiset(m) && w in l
    ensures var p := PlaceOf(w);
            DistinctPlaces(WithoutPlace(l, p)) && MapOrder(WithoutPlace(m, p))
            && multiset(WithoutPlace(l, p)) == multiset(WithoutPlace(m, p))
            && TotalSize(l, overhead) == TotalSize(WithoutPlace(l, p), overhead) + RequestSize(w, overhead)
  {
    var p := PlaceOf(w);
    hide RequestSize, DistinctPlaces, MapOrder, WithoutPlace, FindPlace, TotalSize;
    SameFound(l, m, p);
    OneAtPlace(l, w, FindPlace(l, p).value);
    TotalSizeWithout(l, p, overhead);
    assert multiset(WithoutPlace(l, p)) == multiset(l) - multiset{w};
    assert multiset(WithoutPlace(m, p)) == multiset(m) - multiset{w};
  }

  class RequestProxy {
    const overhead: nat
    var size: int
    var list: seq<Write>
    var byKey: seq<Write>

    ghost predicate Valid()
      reads this
    {
      DistinctPlaces(list) && MapOrder(byKey) && multiset(list) == multiset(byKey) && size == TotalSize(list, overhead)
    }

    constructor (overhead: nat)
      ensures Valid() && list == []
    {
      this.overhead := overhead;
      size, list, byKey := 0, [], [];
    }

    method Find(p: Place) returns (r: Option<Write>)
      requires Valid()
      ensures r == FindPlace(list, p)
    {
      SameFound(list, byKey, p);
      var i := 0;
      while i < |byKey| && PlaceOf(byKey[i]) != p
        invariant i <= |byKey| && FindPlace(byKey, p) == FindPlace(byKey[i..], p)
      {
        assert byKey[i..][1..] == byKey[i + 1..];
        i := i + 1;
      }
      r := if i < |byKey| then Some(byKey[i]) else None;
    }

    method Remove(w: Write)
      requires Valid() && w in list
      modifies this`size, this`list, this`byKey
      ensures Valid() && list == WithoutPlace(old(list), PlaceOf(w)) && |list| == |byKey| && size >= 0
      ensures size == old(size) - RequestSize(w, overhead)
    {
      var p := PlaceOf(w);
      RemoveStep(list, byKey, w, overhead);
      hide DistinctPlaces, MapOrder, FindPlace, WithoutPlace, TotalSize, RequestSize;
      size := size - RequestSize(w, overhead);
      byKey := WithoutPlace(byKey, p);
      list := WithoutPlace(list, p);
      assert |multiset(list)| == |list| && |multiset(byKey)| == |byKey|;
    }

    // Replaces the pending write to the same place, if any, and returns it.
    method RemoveAndAdd(w: Write) returns (replaced: Option<Write>)
      requires Valid()
      modifies this`size, this`list, this`byKey
      ensures Valid() && list == Coalesced(old(list), w) && |list| == |byKey|
      ensures replaced == FindPlace(old(list), PlaceOf(w))
      ensures size == old(size) + RequestSize(w, overhead) - if replaced.Some? then RequestSize(replaced.value, overhead) else 0
    {
      replaced := Find(PlaceOf(w));
      if replaced.Some? {
        Remove(replaced.value);
      } else {
        NothingWithout(list, PlaceOf(w));
      }
      assert list == WithoutPlace(old(list), PlaceOf(w));
      AddNew(w);
    }

    method AddNew(w: Write)
      requires Valid() && forall y :: y in list ==> PlaceOf(y) != PlaceOf(w)
      modifies this`size, this`list, this`byKey
      ensures Valid() && list == old(list) + [w] && |list| == |byKey| && size == old(size) + RequestSize(w, overhead)
    {
      assert forall y :: y in byKey ==> y in multiset(byKey);
      InsertKeepsOrder(byKey, w);
      TotalSizeAppend(list, w, overhead);
      hide MapOrder, DistinctPlaces, TotalSize, RequestSize, InsertInMap;
      byKey := InsertInMap(byKey, w);
      list := AppendWrite(list, w);
      size := size + RequestSize(w, overhead);
      assert |multiset(list)| == |list| && |multiset(byKey)| == |byKey|;
    }

    // The oldest write.
    method Pop() returns (r: Option<Write>)
      requires Valid()
      modifies this`size, this`list, this`byKey
      ensures Valid() && |list| == |byKey|
      ensures old(list) == [] ==> r == None && list == []
      ensures old(list) != [] ==> r == Some(old(list)[0]) && list == old(list)[1..]
    {
      if list == [] {
        assert |multiset(list)| == |list| && |multiset(byKey)| == |byKey|;
        return None;
      }
      r := Some(list[0]);
      Remove(list[0]);
    }

    method Clear()
      requires Valid()
      modifies this`size, this`list, this`byKey
      ensures Valid() && list == [] && size == 0
    {
      size, list, byKey := 0, [], [];
    }
  }

  lemma {:induction false} NothingWithout(l: seq<Write>, p: Place)
    requires FindPlace(l, p).None?
    ensures WithoutPlace(l, p) == l
  {
    if l != [] {
      NothingWithout(l[1..], p);
      assert l == [l[0]] + l[1..];
    }
  }

  // ---- the client on top of it

  datatype BatchMode = Default | NoAutoSubmit | Single

  datatype Status = Success | Failed | ApiError

  lemma AddedMeans(submitted: seq<Write>, l: seq<Write>, calls: seq<Write>, w: Write)
    requires forall s: Store :: ApplyAll(s, submitted + l) == ApplyAll(s, calls)
    ensures forall s: Store :: ApplyAll(s, submitted + Coalesced(l, w)) == ApplyAll(s, calls + [w])
  {
    hide Coalesced, Apply;
    forall s: Store ensures ApplyAll(s, submitted + Coalesced(l, w)) == ApplyAll(s, calls + [w]) {
      hide ApplyAll;
      ApplyAllConcat(s, submitted, Coalesced(l, w));
      CoalescedMeans(ApplyAll(s, submitted), l, w);
      ApplyAllConcat(s, submitted, l);
      ApplyLast(s, calls, w);
    }
  }

  // ProxiedRequest, Submit and the buffered part of Get of src/Application/Client/SDBPClient.cpp; what
  // is submitted reaches the servers in order.
  class BufferingClient {
    const proxy: RequestProxy
    const batchMode: BatchMode
    const batchLimit: nat
    var hasController: bool
    var inTransaction: bool
    var submitted: seq<Write>
    ghost var calls: seq<Write>    // the writes that were not refused

    ghost predicate Valid()
      reads this, proxy
    {
      proxy.Valid() && forall s: Store :: ApplyAll(s, submitted + proxy.list) == ApplyAll(s, calls)
    }

    constructor (proxy: RequestProxy, batchMode: BatchMode, batchLimit: nat)
      requires proxy.Valid() && proxy.list == []
      ensures Valid() && this.proxy == proxy && calls == []
    {
      this.proxy, this.batchMode, this.batchLimit := proxy, batchMode, batchLimit;
      hasController, inTransaction, submitted, calls := false, false, [], [];
    }

    // The writes after which all of them are submitted at once.
    ghost predicate Full(l: seq<Write>)
      reads this
    {
      !inTransaction && (batchMode == Single || (batchMode == Default && TotalSize(l, proxy.overhead) >= batchLimit))
    }

    // Everything buffered, oldest first; a transaction keeps its writes until it is committed.
    method Submit() returns (status: Status)
      requires Valid()
      modifies this`submitted, proxy`size, proxy`list, proxy`byKey
      ensures Valid() && status == if hasController then Success else ApiError
      ensures submitted == old(submitted) + if inTransaction || !hasController then [] else old(proxy.list)
      ensures proxy.list == if inTransaction || !hasController then old(proxy.list) else []
    {
      if !hasController { return ApiError; }
      if inTransaction { return Success; }
      var more := true;
      while more
        invariant proxy.Valid() && submitted + proxy.list == old(submitted) + old(proxy.list)
        invariant !more ==> proxy.list == []
        decreases |proxy.list|, more
      {
        var w := proxy.Pop();
        if w.Some? {
          submitted := submitted + [w.value];
        } else {
          more := false;
        }
      }
      return Success;
    }

    // A write of the program: refused, buffered, or buffered and submitted at once.
    method ProxiedRequest(w: Write) returns (status: Status)
      requires Valid()
      modifies this`submitted, this`calls, proxy`size, proxy`list, proxy`byKey
      ensures Valid() && calls == if status == Success then old(calls) + [w] else old(calls)
      ensures status == ApiError <==>
                !hasController || w.key == [] || ((batchMode == NoAutoSubmit || inTransaction)
                                && old(proxy.size) + RequestSize(w, proxy.overhead) >= batchLimit)
      ensures status == ApiError ==> submitted == old(submitted) && proxy.list == old(proxy.list)
      ensures status != ApiError ==> status == Success
      ensures status == Success && Full(Coalesced(old(proxy.list), w)) ==>
                submitted == old(submitted) + Coalesced(old(proxy.list), w) && proxy.list == []
      ensures status == Success && !Full(Coalesced(old(proxy.list), w)) ==>
                submitted == old(submitted) && proxy.list == Coalesced(old(proxy.list), w)
    {
      hide ApplyAll, Coalesced;
      if !hasController { return ApiError; }
      if |w.key| == 0 { return ApiError; }
      if (batchMode == NoAutoSubmit || inTransaction) && proxy.size + RequestSize(w, proxy.overhead) >= batchLimit {
        return ApiError;
      }
      AddedMeans(submitted, proxy.list, calls, w);
      var replaced := proxy.RemoveAndAdd(w);
      calls := calls + [w];
      if batchMode == Single {
        status := Submit();
        return;
      }
      if batchMode == Default && proxy.size >= batchLimit {
        status := Submit();
        return;
      }
      return Success;
    }

    // A read is answered from the buffer or by the servers, which hold what was submitted; either
    // way it sees every write before it.
    method Get(p: Place, answer: Option<bytes>, ghost initial: Store) returns (status: Status, r: Option<bytes>)
      requires Valid()
      requires answer == if p in ApplyAll(initial, submitted) then Some(ApplyAll(initial, submitted)[p]) else None
      ensures status == ApiError <==> p.1 == [] || !hasController
      ensures status != ApiError ==> r == if p in ApplyAll(initial, calls) then Some(ApplyAll(initial, calls)[p]) else None
      ensures status != ApiError ==> status == if r.Some? then Success else Failed
    {
      if |p.1| == 0 || !hasController { return ApiError, None; }
      ReadYourWrites(ApplyAll(initial, submitted), proxy.list, p);
      ApplyAllConcat(initial, submitted, proxy.list);
      hide ApplyAll;
      var w := proxy.Find(p);
      r := if w.Some? then w.value.value else answer;
      status := if r.Some? then Success else Failed;
    }
  }
}
