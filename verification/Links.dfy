// Two-way links between objects: each child names its parent, and each parent lists its children.
// Shards of a table, shards of a quorum and tables of a database are all kept this way.

module Links {
  import opened KeyedLists

  // Every number on the list names a child of p; the numbers in gone may name nothing any more.
  predicate ListSound(parent: map<nat, nat>, l: seq<nat>, p: nat, gone: set<nat>) {
    NoDup(l) && forall c :: c in l ==> if c in parent then parent[c] == p else c in gone
  }

  predicate Listed(parent: map<nat, nat>, lists: map<nat, seq<nat>>, c: nat)
    requires c in parent
  {
    parent[c] in lists && c in lists[parent[c]]
  }

  predicate Linked(parent: map<nat, nat>, lists: map<nat, seq<nat>>, gone: set<nat>) {
    && (forall c :: c in parent ==> Listed(parent, lists, c))
    && (forall p :: p in lists ==> ListSound(parent, lists[p], p, gone))
  }

  // A child is on the list of its parent and on no other list.
  lemma OneList(parent: map<nat, nat>, lists: map<nat, seq<nat>>, gone: set<nat>, c: nat)
    requires Linked(parent, lists, gone) && c in parent
    ensures forall p :: p in lists ==> (c in lists[p] <==> p == parent[c])
  {
    assert Listed(parent, lists, c);
    forall p | p in lists ensures c in lists[p] <==> p == parent[c] {
      assert ListSound(parent, lists[p], p, gone);
    }
  }

  lemma AddChild(parent: map<nat, nat>, lists: map<nat, seq<nat>>, gone: set<nat>, c: nat, p: nat, l: seq<nat>)
    requires Linked(parent, lists, gone) && c !in parent && p in lists && c !in gone
    requires NoDup(l) && forall x :: x in l <==> x in lists[p] || x == c
    ensures Linked(parent[c := p], lists[p := l], gone)
  {
    var parent', lists' := parent[c := p], lists[p := l];
    forall x | x in parent' ensures Listed(parent', lists', x) {
      if x != c { assert Listed(parent, lists, x); }
    }
    forall x | x in lists' ensures ListSound(parent', lists'[x], x, gone) {
      assert ListSound(parent, lists[x], x, gone);
    }
  }

  lemma DropChild(parent: map<nat, nat>, lists: map<nat, seq<nat>>, gone: set<nat>, c: nat)
    requires Linked(parent, lists, gone) && c in parent && Listed(parent, lists, c)
    ensures Linked(parent - {c}, lists[parent[c] := Remove(lists[parent[c]], c)], gone)
  {
    var lists' := lists[parent[c] := Remove(lists[parent[c]], c)];
    forall x | x in parent - {c} ensures Listed(parent - {c}, lists', x) { assert Listed(parent, lists, x); }
    forall p | p in lists' ensures ListSound(parent - {c}, lists'[p], p, gone) {
      assert ListSound(parent, lists[p], p, gone);
    }
  }

  // The child disappears while its parent still lists it.
  lemma OrphanEntry(parent: map<nat, nat>, lists: map<nat, seq<nat>>, gone: set<nat>, c: nat)
    requires Linked(parent, lists, gone) && c in gone
    ensures Linked(parent - {c}, lists, gone)
  {
    forall x | x in parent - {c} ensures Listed(parent - {c}, lists, x) { assert Listed(parent, lists, x); }
    forall p | p in lists ensures ListSound(parent - {c}, lists[p], p, gone) {
      assert ListSound(parent, lists[p], p, gone);
    }
  }

  lemma RemoveOrphanEntry(parent: map<nat, nat>, lists: map<nat, seq<nat>>, c: nat, p: nat)
    requires Linked(parent, lists, {c}) && c !in parent && p in lists
    requires forall x :: x in lists && c in lists[x] ==> x == p
    ensures Linked(parent, lists[p := Remove(lists[p], c)], {})
  {
    var lists' := lists[p := Remove(lists[p], c)];
    forall x | x in parent ensures Listed(parent, lists', x) { assert Listed(parent, lists, x); }
    forall x | x in lists' ensures ListSound(parent, lists'[x], x, {}) {
      assert ListSound(parent, lists[x], x, {c});
    }
  }

  lemma AddParent(parent: map<nat, nat>, lists: map<nat, seq<nat>>, gone: set<nat>, p: nat)
    requires Linked(parent, lists, gone) && p !in lists
    ensures Linked(parent, lists[p := []], gone)
  {
    var lists' := lists[p := []];
    forall x | x in parent ensures Listed(parent, lists', x) { assert Listed(parent, lists, x); }
    forall x | x in lists' ensures ListSound(parent, lists'[x], x, gone) {
      if x != p { assert ListSound(parent, lists[x], x, gone); }
    }
  }

  // A parent may go when no child names it and no other list names anything that is gone.
  lemma DropParent(parent: map<nat, nat>, lists: map<nat, seq<nat>>, gone: set<nat>, p: nat)
    requires Linked(parent, lists, gone) && p in lists
    requires forall c :: c in lists[p] ==> c !in parent
    requires forall x, c :: x in lists && x != p && c in lists[x] ==> c !in gone
    ensures Linked(parent, lists - {p}, {})
  {
    forall x | x in parent ensures Listed(parent, lists - {p}, x) { assert Listed(parent, lists, x); }
    forall x | x in lists - {p} ensures ListSound(parent, (lists - {p})[x], x, {}) {
      assert ListSound(parent, lists[x], x, gone);
    }
  }

  lemma GoneGrows(parent: map<nat, nat>, lists: map<nat, seq<nat>>, gone: set<nat>)
    requires Linked(parent, lists, {})
    ensures Linked(parent, lists, gone)
  {
    forall p | p in lists ensures ListSound(parent, lists[p], p, gone) { assert ListSound(parent, lists[p], p, {}); }
  }

  lemma NoDupAppend(l: seq<nat>, x: nat)
    requires NoDup(l) && x !in l
    ensures NoDup(l + [x])
  {
    if l != [] {
      assert (l + [x])[1..] == l[1..] + [x];
      NoDupAppend(l[1..], x);
    }
  }
}
