// The containers of the controller as sequences.  An InList of objects, each with an identifying
// number, is a sequence of Keyed values; List<uint64_t> and SortedList<uint64_t> are sequences
// of numbers.

module KeyedLists {

  datatype Option<+T> = None | Some(value: T)

  datatype Keyed<+T> = Keyed(id: nat, obj: T)

  // The position of the first object with the given number, or the length of the list.
  function IndexOf<T>(l: seq<Keyed<T>>, id: nat): (i: nat)
    ensures i <= |l|
    ensures i < |l| ==> l[i].id == id
    ensures forall j :: 0 <= j < i ==> l[j].id != id
  {
    if l == [] then 0 else if l[0].id == id then 0 else 1 + IndexOf(l[1..], id)
  }

  // What a lookup by number sees: the first object listed under each number.
  function AsMap<T>(l: seq<Keyed<T>>): map<nat, T> {
    if l == [] then map[] else AsMap(l[1..])[l[0].id := l[0].obj]
  }

  predicate Unique<T>(l: seq<Keyed<T>>) {
    forall i, j :: 0 <= i < j < |l| ==> l[i].id != l[j].id
  }

  predicate Has<T>(l: seq<Keyed<T>>, id: nat)
    ensures Has(l, id) <==> id in AsMap(l)
  {
    MapAgrees(l, id);
    IndexOf(l, id) < |l|
  }

  function Get<T>(l: seq<Keyed<T>>, id: nat): (obj: T)
    requires Has(l, id)
    ensures obj == AsMap(l)[id]
  {
    MapAgrees(l, id);
    l[IndexOf(l, id)].obj
  }

  function Put<T>(l: seq<Keyed<T>>, id: nat, obj: T): (r: seq<Keyed<T>>)
    requires Has(l, id)
    ensures |r| == |l|
    ensures AsMap(r) == AsMap(l)[id := obj]
    ensures Unique(l) ==> Unique(r)
  {
    PutMap(l, id, obj);
    l[IndexOf(l, id) := Keyed(id, obj)]
  }

  function Append<T>(l: seq<Keyed<T>>, id: nat, obj: T): (r: seq<Keyed<T>>)
    ensures !Has(l, id) ==> AsMap(r) == AsMap(l)[id := obj]
    ensures !Has(l, id) && Unique(l) ==> Unique(r)
  {
    AppendMap(l, id, obj);
    l + [Keyed(id, obj)]
  }

  function Drop<T>(l: seq<Keyed<T>>, id: nat): (r: seq<Keyed<T>>)
    requires Has(l, id)
    ensures |r| == |l| - 1
    ensures Unique(l) ==> AsMap(r) == AsMap(l) - {id} && Unique(r)
  {
    var i := IndexOf(l, id);
    assert Unique(l) ==> AsMap(l[..i] + l[i + 1..]) == AsMap(l) - {id} by {
      if Unique(l) { DropMap(l, id); }
    }
    l[..i] + l[i + 1..]
  }

  // Replaces an object in its place and gives it another number.
  function Rekey<T>(l: seq<Keyed<T>>, id: nat, id': nat, obj: T): (r: seq<Keyed<T>>)
    requires Has(l, id)
    ensures |r| == |l|
    ensures Unique(l) && !Has(l, id') ==> AsMap(r) == (AsMap(l) - {id})[id' := obj] && Unique(r)
  {
    RekeyMap(l, id, id', obj);
    l[IndexOf(l, id) := Keyed(id', obj)]
  }

  lemma {:induction false} MapAgrees<T>(l: seq<Keyed<T>>, id: nat)
    ensures IndexOf(l, id) < |l| <==> id in AsMap(l)
    ensures IndexOf(l, id) < |l| ==> l[IndexOf(l, id)].obj == AsMap(l)[id]
  {
    if l != [] { MapAgrees(l[1..], id); }
  }

  lemma {:induction false} PutMap<T>(l: seq<Keyed<T>>, id: nat, obj: T)
    requires IndexOf(l, id) < |l|
    ensures AsMap(l[IndexOf(l, id) := Keyed(id, obj)]) == AsMap(l)[id := obj]
  {
    var i := IndexOf(l, id);
    if i == 0 {
      assert l[0 := Keyed(id, obj)][1..] == l[1..];
    } else {
      PutMap(l[1..], id, obj);
      assert l[i := Keyed(id, obj)][1..] == l[1..][i - 1 := Keyed(id, obj)];
    }
  }

  lemma {:induction false} AppendMap<T>(l: seq<Keyed<T>>, id: nat, obj: T)
    ensures id !in AsMap(l) ==> AsMap(l + [Keyed(id, obj)]) == AsMap(l)[id := obj]
    ensures id !in AsMap(l) && Unique(l) ==> Unique(l + [Keyed(id, obj)])
  {
    if l != [] {
      AppendMap(l[1..], id, obj);
      assert (l + [Keyed(id, obj)])[1..] == l[1..] + [Keyed(id, obj)];
    }
    forall j | 0 <= j < |l| && id !in AsMap(l) ensures l[j].id != id { InMap(l, j); }
  }

  lemma {:induction false} InMap<T>(l: seq<Keyed<T>>, j: nat)
    requires j < |l|
    ensures l[j].id in AsMap(l)
    ensures Unique(l) ==> AsMap(l)[l[j].id] == l[j].obj && IndexOf(l, l[j].id) == j
  {
    if j > 0 { InMap(l[1..], j - 1); }
  }

  lemma {:induction false} DropMap<T>(l: seq<Keyed<T>>, id: nat)
    requires IndexOf(l, id) < |l| && Unique(l)
    ensures var i := IndexOf(l, id); AsMap(l[..i] + l[i + 1..]) == AsMap(l) - {id}
  {
    var i := IndexOf(l, id);
    if i == 0 {
      assert l[..0] + l[1..] == l[1..];
      forall id' | id' == id ensures id' !in AsMap(l[1..]) { MapAgrees(l[1..], id'); }
    } else {
      DropMap(l[1..], id);
      assert (l[..i] + l[i + 1..])[1..] == l[1..][..i - 1] + l[1..][i..];
    }
  }

  lemma {:induction false} RekeyMap<T>(l: seq<Keyed<T>>, id: nat, id': nat, obj: T)
    requires IndexOf(l, id) < |l|
    ensures Unique(l) && id' !in AsMap(l) ==>
              AsMap(l[IndexOf(l, id) := Keyed(id', obj)]) == (AsMap(l) - {id})[id' := obj]
    ensures Unique(l) && id' !in AsMap(l) ==> Unique(l[IndexOf(l, id) := Keyed(id', obj)])
  {
    var i := IndexOf(l, id);
    if Unique(l) && id' !in AsMap(l) {
      forall j | 0 <= j < |l| ensures l[j].id != id' { InMap(l, j); }
      if i == 0 {
        assert l[0 := Keyed(id', obj)][1..] == l[1..];
        MapAgrees(l[1..], id);
      } else {
        RekeyMap(l[1..], id, id', obj);
        assert l[i := Keyed(id', obj)][1..] == l[1..][i - 1 := Keyed(id', obj)];
      }
    }
  }

  // Which numbers are listed after each operation, whether or not numbers are unique.
  lemma {:induction false} AppendKeys<T>(l: seq<Keyed<T>>, id: nat, obj: T)
    ensures AsMap(Append(l, id, obj)).Keys == AsMap(l).Keys + {id}
  {
    if l != [] {
      AppendKeys(l[1..], id, obj);
      assert (l + [Keyed(id, obj)])[1..] == l[1..] + [Keyed(id, obj)];
    }
  }

  lemma {:induction false} ConcatKeys<T>(a: seq<Keyed<T>>, b: seq<Keyed<T>>)
    ensures AsMap(a + b).Keys == AsMap(a).Keys + AsMap(b).Keys
  {
    if a == [] {
      assert a + b == b;
    } else {
      ConcatKeys(a[1..], b);
      assert (a + b)[1..] == a[1..] + b;
    }
  }

  lemma DropKeys<T>(l: seq<Keyed<T>>, id: nat)
    requires Has(l, id)
    ensures AsMap(l).Keys - {id} <= AsMap(Drop(l, id)).Keys <= AsMap(l).Keys
  {
    var i := IndexOf(l, id);
    assert l == l[..i] + [l[i]] + l[i + 1..];
    ConcatKeys(l[..i] + [l[i]], l[i + 1..]);
    ConcatKeys(l[..i], [l[i]]);
    ConcatKeys(l[..i], l[i + 1..]);
  }

  lemma PutPut<T>(l: seq<Keyed<T>>, id: nat, a: T, b: T)
    requires Has(l, id)
    ensures Get(Put(l, id, a), id) == a && Put(Put(l, id, a), id, b) == Put(l, id, b)
  {
    var l' := Put(l, id, a);
    assert l'[IndexOf(l, id)].id == id && forall j :: 0 <= j < IndexOf(l, id) ==> l'[j] == l[j];
    assert IndexOf(l', id) == IndexOf(l, id);
  }

  // The same place in both lists.
  lemma {:induction false} SameIndex<T>(l: seq<Keyed<T>>, l': seq<Keyed<T>>, id: nat)
    requires |l'| == |l| && forall i :: 0 <= i < |l| ==> l'[i].id == l[i].id
    ensures IndexOf(l', id) == IndexOf(l, id)
  {
    if l != [] && l[0].id != id { SameIndex(l[1..], l'[1..], id); }
  }

  lemma SamePlace<T>(l: seq<Keyed<T>>, l': seq<Keyed<T>>, id: nat)
    requires |l'| == |l| && forall i :: 0 <= i < |l| ==> l'[i].id == l[i].id
    ensures id in AsMap(l') <==> id in AsMap(l)
    ensures id in AsMap(l) ==>
              var i := IndexOf(l, id); i < |l| && AsMap(l)[id] == l[i].obj && AsMap(l')[id] == l'[i].obj
  {
    SameIndex(l, l', id);
    MapAgrees(l, id);
    MapAgrees(l', id);
  }

  // ---- the same list with every object replaced by its image

  function MapObj<T, U>(l: seq<Keyed<T>>, f: T -> U): (r: seq<Keyed<U>>)
    ensures |r| == |l|
    ensures forall i :: 0 <= i < |l| ==> r[i] == Keyed(l[i].id, f(l[i].obj))
  {
    seq(|l|, i requires 0 <= i < |l| => Keyed(l[i].id, f(l[i].obj)))
  }

  lemma {:induction false} MapObjIndex<T, U>(l: seq<Keyed<T>>, f: T -> U, id: nat)
    ensures IndexOf(MapObj(l, f), id) == IndexOf(l, id)
    ensures Has(MapObj(l, f), id) <==> Has(l, id)
    ensures Has(l, id) ==> Get(MapObj(l, f), id) == f(Get(l, id))
  {
    if l != [] {
      MapObjIndex(l[1..], f, id);
      assert MapObj(l, f)[1..] == MapObj(l[1..], f);
    }
    MapAgrees(l, id);
  }

  // Taking images commutes with every operation on the list.
  lemma MapObjCommutes<T, U>(l: seq<Keyed<T>>, f: T -> U, id: nat, id': nat, o: T)
    ensures Append(MapObj(l, f), id, f(o)) == MapObj(Append(l, id, o), f)
    ensures Has(MapObj(l, f), id) <==> Has(l, id)
    ensures Has(l, id) ==> Get(MapObj(l, f), id) == f(Get(l, id))
    ensures Has(l, id) ==> Put(MapObj(l, f), id, f(o)) == MapObj(Put(l, id, o), f)
    ensures Has(l, id) ==> Drop(MapObj(l, f), id) == MapObj(Drop(l, id), f)
    ensures Has(l, id) ==> Rekey(MapObj(l, f), id, id', f(o)) == MapObj(Rekey(l, id, id', o), f)
  {
    MapObjIndex(l, f, id);
  }

  lemma {:induction false} MapObjMap<T, U>(l: seq<Keyed<T>>, f: T -> U)
    ensures AsMap(MapObj(l, f)) == map id | id in AsMap(l) :: f(AsMap(l)[id])
    ensures Unique(MapObj(l, f)) <==> Unique(l)
  {
    if l != [] {
      MapObjMap(l[1..], f);
      assert MapObj(l, f)[1..] == MapObj(l[1..], f);
    }
    forall i, j | 0 <= i < j < |l| ensures MapObj(l, f)[i].id != MapObj(l, f)[j].id <==> l[i].id != l[j].id {}
    if Unique(MapObj(l, f)) {
      forall i, j | 0 <= i < j < |l| ensures l[i].id != l[j].id { assert MapObj(l, f)[i].id != MapObj(l, f)[j].id; }
    }
  }

  // ---- lists of numbers

  predicate NoDup(l: seq<nat>) {
    l == [] || (l[0] !in l[1..] && NoDup(l[1..]))
  }

  predicate Sorted(l: seq<nat>) {
    l == [] || ((forall y :: y in l[1..] ==> l[0] <= y) && Sorted(l[1..]))
  }

  // SortedList::Add: before the first larger element.
  function AddSorted(l: seq<nat>, x: nat): (r: seq<nat>)
    ensures forall y :: y in r <==> y in l || y == x
    ensures NoDup(l) && x !in l ==> NoDup(r)
  {
    if l == [] then [x]
    else if x < l[0] then [x] + l
    else [l[0]] + AddSorted(l[1..], x)
  }

  // List::Remove: the first occurrence, if any.
  function Remove(l: seq<nat>, x: nat): (r: seq<nat>)
    ensures forall y :: y in r ==> y in l
    ensures forall y :: y in l && y != x ==> y in r
    ensures x !in l ==> r == l
    ensures NoDup(l) ==> NoDup(r) && x !in r
  {
    if l == [] then []
    else if l[0] == x then l[1..]
    else [l[0]] + Remove(l[1..], x)
  }

  // Adds every element of xs in turn.
  function AddAll(l: seq<nat>, xs: seq<nat>): (r: seq<nat>)
    ensures forall y :: y in r <==> y in l || y in xs
    decreases |xs|
  {
    if xs == [] then l else AddAll(AddSorted(l, xs[0]), xs[1..])
  }

  lemma {:induction false} AddSortedSorted(l: seq<nat>, x: nat)
    requires Sorted(l)
    ensures Sorted(AddSorted(l, x))
  {
    if l != [] {
      if x < l[0] {
        assert ([x] + l)[1..] == l == [l[0]] + l[1..];
      } else {
        AddSortedSorted(l[1..], x);
      }
    }
  }

  lemma {:induction false} RemoveSorted(l: seq<nat>, x: nat)
    requires Sorted(l)
    ensures Sorted(Remove(l, x))
  {
    if l != [] && l[0] != x {
      RemoveSorted(l[1..], x);
    }
  }

  lemma {:induction false} AddAllSets(l: seq<nat>, xs: seq<nat>)
    ensures Sorted(l) ==> Sorted(AddAll(l, xs))
    ensures NoDup(l) && NoDup(xs) && (forall x :: x in xs ==> x !in l) ==> NoDup(AddAll(l, xs))
    decreases |xs|
  {
    if xs != [] {
      if Sorted(l) { AddSortedSorted(l, xs[0]); }
      AddAllSets(AddSorted(l, xs[0]), xs[1..]);
    }
  }

  // Adding a largest element puts it last, so re-adding a sorted list one by one rebuilds it.
  lemma {:induction false} AddLargest(l: seq<nat>, x: nat)
    requires forall y :: y in l ==> y <= x
    ensures AddSorted(l, x) == l + [x]
  {
    if l != [] {
      assert forall y :: y in l[1..] ==> y in l;
      assert l[0] in l;
      AddLargest(l[1..], x);
    }
  }
}
