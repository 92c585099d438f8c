// Where a client keeps the requests that have no answer yet: submitted but not assigned, queued for a
// quorum, or sent to a shard server (src/Application/Client/SDBPShardConnection.cpp and the queues of
// src/Application/Client/SDBPClient.cpp).

module RequestQueues {
  import opened KeyedLists

  datatype Request = Request(id: nat, quorumID: nat, isRead: bool, forController: bool)

  // What the client knows of a quorum.
  datatype QuorumView = QuorumView(hasPrimary: bool, primaryID: nat, activeNodes: seq<nat>)

  type Queues = map<nat, seq<Request>>

  function Queue(m: Queues, q: nat): seq<Request> { if q in m then m[q] else [] }

  // The requests of one quorum, in order, and all others.
  function Mine(l: seq<Request>, q: nat): (r: seq<Request>)
    ensures forall x :: x in r <==> x in l && x.quorumID == q
  {
    if l == [] then [] else (if l[0].quorumID == q then [l[0]] else []) + Mine(l[1..], q)
  }

  function Others(l: seq<Request>, q: nat): (r: seq<Request>)
    ensures forall x :: x in r <==> x in l && x.quorumID != q
  {
    if l == [] then [] else (if l[0].quorumID == q then [] else [l[0]]) + Others(l[1..], q)
  }

  lemma Regroup(a: seq<Request>, b: seq<Request>, c: seq<Request>)
    ensures a + (b + c) == (a + b) + c && [] + c == c && c + [] == c
  {}

  lemma {:induction false} MineConcat(a: seq<Request>, b: seq<Request>, q: nat)
    ensures Mine(a + b, q) == Mine(a, q) + Mine(b, q)
  {
    if a == [] {
      Regroup([], [], b);
      Regroup([], [], Mine(b, q));
    } else {
      MineConcat(a[1..], b, q);
      assert (a + b)[1..] == a[1..] + b && (a + b)[0] == a[0];
      Regroup(if a[0].quorumID == q then [a[0]] else [], Mine(a[1..], q), Mine(b, q));
    }
  }

  lemma {:induction false} MineOfOthers(l: seq<Request>, q: nat, p: nat)
    ensures Mine(Others(l, q), p) == if p == q then [] else Mine(l, p)
  {
    if l != [] {
      MineOfOthers(l[1..], q, p);
      if l[0].quorumID == q {
        assert Others(l, q) == Others(l[1..], q);
      } else {
        assert ([l[0]] + Others(l[1..], q))[1..] == Others(l[1..], q);
      }
    }
  }

  lemma {:induction false} MineOfSame(l: seq<Request>, q: nat, p: nat)
    requires forall x :: x in l ==> x.quorumID == q
    ensures Mine(l, p) == if p == q then l else []
  {
    if l != [] {
      MineOfSame(l[1..], q, p);
      assert l[0] in l && l == [l[0]] + l[1..];
    }
  }

  lemma {:induction false} MineCount(l: seq<Request>, x: Request)
    ensures multiset(l)[x] == multiset(Mine(l, x.quorumID))[x]
  {
    if l != [] {
      MineCount(l[1..], x);
      assert l == [l[0]] + l[1..];
    }
  }

  // What waits for quorum q: its queue, then the submitted requests that belong to it.
  function Waiting(submitted: seq<Request>, queues: Queues, q: nat): seq<Request> { Queue(queues, q) + Mine(submitted, q) }

  // Every queued request is under the number of its quorum.
  predicate Filed(queues: Queues) { forall q :: q in queues ==> forall x :: x in queues[q] ==> x.quorumID == q }

  // How often a request occurs in all the places together.
  function Copies(submitted: seq<Request>, queues: Queues, sent: seq<Request>, x: Request): nat {
    multiset(submitted)[x] + multiset(Queue(queues, x.quorumID))[x] + multiset(sent)[x]
  }

  // Keeping the order for every quorum keeps every request.
  lemma SameCopies(submitted: seq<Request>, queues: Queues, sent: seq<Request>, submitted': seq<Request>, queues': Queues,
                   sent': seq<Request>, x: Request)
    requires var q := x.quorumID;
             Mine(sent', q) + Waiting(submitted', queues', q) == Mine(sent, q) + Waiting(submitted, queues, q)
    ensures Copies(submitted', queues', sent', x) == Copies(submitted, queues, sent, x)
  {
    var q := x.quorumID;
    MineCount(submitted, x);
    MineCount(sent, x);
    MineCount(submitted', x);
    MineCount(sent', x);
    assert multiset(Mine(sent, q) + (Queue(queues, q) + Mine(submitted, q)))[x]
        == multiset(Mine(sent, q))[x] + multiset(Queue(queues, q))[x] + multiset(Mine(submitted, q))[x];
    assert multiset(Mine(sent', q) + (Queue(queues', q) + Mine(submitted', q)))[x]
        == multiset(Mine(sent', q))[x] + multiset(Queue(queues', q))[x] + multiset(Mine(submitted', q))[x];
  }

  // ---- where a request goes

  datatype Destination = ToQuorum(request: Request) | Back(request: Request) | ToController | BadSchema

  // ReassignRequest: quorumOf is the result of looking the key up, if a shard holds it.
  function Destined(r: Request, schemaKnown: bool, quorums: map<nat, QuorumView>, quorumOf: Request -> Option<nat>): Destination {
    if !schemaKnown then Back(r)
    else if r.forController then ToController
    else if r.quorumID == 0 && quorumOf(r).None? then BadSchema
    else
      var r1 := if r.quorumID == 0 then r.(quorumID := quorumOf(r).value) else r;
      if !r1.isRead && r1.quorumID in quorums && !quorums[r1.quorumID].hasPrimary then Back(r1) else ToQuorum(r1)
  }

  function AsList(o: Option<Request>): seq<Request> { if o.Some? then [o.value] else [] }

  // The images of the requests that have one, in order.
  function Select(l: seq<Request>, f: Request -> Option<Request>): seq<Request> {
    if l == [] then [] else AsList(f(l[0])) + Select(l[1..], f)
  }

  lemma {:induction false} SelectAppend(l: seq<Request>, r: Request, f: Request -> Option<Request>)
    ensures Select(l + [r], f) == Select(l, f) + AsList(f(r))
  {
    var tail := AsList(f(r));
    if l == [] {
      assert l + [r] == [r] && [r][1..] == [];
      Regroup([], [], tail);
    } else {
      SelectAppend(l[1..], r, f);
      assert (l + [r])[1..] == l[1..] + [r] && (l + [r])[0] == l[0];
      Regroup(AsList(f(l[0])), Select(l[1..], f), tail);
    }
  }

  // The four ways that a request can go.
  function Backs(known: bool, quorums: map<nat, QuorumView>, quorumOf: Request -> Option<nat>): Request -> Option<Request> {
    r => var d := Destined(r, known, quorums, quorumOf); if d.Back? then Some(d.request) else None
  }

  function Routes(known: bool, quorums: map<nat, QuorumView>, quorumOf: Request -> Option<nat>): Request -> Option<Request> {
    r => var d := Destined(r, known, quorums, quorumOf); if d.ToQuorum? then Some(d.request) else None
  }

  function Controls(known: bool, quorums: map<nat, QuorumView>, quorumOf: Request -> Option<nat>): Request -> Option<Request> {
    r => if Destined(r, known, quorums, quorumOf).ToController? then Some(r) else None
  }

  function Strays(known: bool, quorums: map<nat, QuorumView>, quorumOf: Request -> Option<nat>): Request -> Option<Request> {
    r => if Destined(r, known, quorums, quorumOf).BadSchema? then Some(r) else None
  }

  // Every request goes one way.
  lemma {:induction false} NoneLost(l: seq<Request>, known: bool, quorums: map<nat, QuorumView>, quorumOf: Request -> Option<nat>)
    ensures |l| == |Select(l, Backs(known, quorums, quorumOf))| + |Select(l, Routes(known, quorums, quorumOf))|
                   + |Select(l, Controls(known, quorums, quorumOf))| + |Select(l, Strays(known, quorums, quorumOf))|
  {
    if l != [] { NoneLost(l[1..], known, quorums, quorumOf); }
  }

  // ---- what the four ways mean, without the search for them

  // The request with its quorum: the one that it names or, if it names none, that of the shard of its key.
  function Placed(r: Request, quorumOf: Request -> Option<nat>): Option<Request> {
    if r.quorumID != 0 then Some(r) else if quorumOf(r).Some? then Some(r.(quorumID := quorumOf(r).value)) else None
  }

  // The quorum is known and has no primary, so only reads go there.
  predicate NoPrimary(quorums: map<nat, QuorumView>, q: nat) { q in quorums && !quorums[q].hasPrimary }

  predicate GoesBack(r: Request, x: Request, quorums: map<nat, QuorumView>, quorumOf: Request -> Option<nat>) {
    !r.forController && Placed(r, quorumOf) == Some(x) && !x.isRead && NoPrimary(quorums, x.quorumID)
  }

  predicate Joins(r: Request, x: Request, quorums: map<nat, QuorumView>, quorumOf: Request -> Option<nat>) {
    !r.forController && Placed(r, quorumOf) == Some(x) && (x.isRead || !NoPrimary(quorums, x.quorumID))
  }

  // One of the requests becomes this one and goes back.
  ghost predicate OneGoesBack(l: seq<Request>, x: Request, quorums: map<nat, QuorumView>, quorumOf: Request -> Option<nat>) {
    exists r :: r in l && GoesBack(r, x, quorums, quorumOf)
  }

  // One of the requests becomes this one and joins its queue.
  ghost predicate OneJoins(l: seq<Request>, x: Request, quorums: map<nat, QuorumView>, quorumOf: Request -> Option<nat>) {
    exists r :: r in l && Joins(r, x, quorums, quorumOf)
  }

  predicate KeyUnknown(r: Request, quorumOf: Request -> Option<nat>) {
    !r.forController && r.quorumID == 0 && quorumOf(r).None?
  }

  // With the schema known a request goes back exactly if it is a write for a known quorum without a primary,
  // joins a queue exactly if its quorum is found and it is no such write, is refused exactly if no shard
  // holds its key, and goes to the controller exactly if it is for the controller; else all go back.
  lemma WaysMean(r: Request, x: Request, known: bool, quorums: map<nat, QuorumView>, quorumOf: Request -> Option<nat>)
    ensures Backs(known, quorums, quorumOf)(r) == Some(x) <==> if known then GoesBack(r, x, quorums, quorumOf) else x == r
    ensures Routes(known, quorums, quorumOf)(r) == Some(x) <==> known && Joins(r, x, quorums, quorumOf)
    ensures Strays(known, quorums, quorumOf)(r) == Some(x) <==> known && x == r && KeyUnknown(r, quorumOf)
    ensures Controls(known, quorums, quorumOf)(r) == Some(x) <==> known && x == r && r.forController
  {}

  lemma {:induction false} SelectIn(l: seq<Request>, f: Request -> Option<Request>, x: Request)
    ensures x in Select(l, f) <==> exists r :: r in l && f(r) == Some(x)
  {
    if l != [] {
      SelectIn(l[1..], f, x);
      assert forall r :: r in l <==> r == l[0] || r in l[1..];
    }
  }

  lemma {:induction false} SelectAll(l: seq<Request>, f: Request -> Option<Request>)
    requires forall r :: r in l ==> f(r) == Some(r)
    ensures Select(l, f) == l
  {
    if l != [] {
      assert l[0] in l && forall r :: r in l[1..] ==> r in l;
      SelectAll(l[1..], f);
      assert l == [l[0]] + l[1..];
    }
  }

  lemma {:induction false} SelectNone(l: seq<Request>, f: Request -> Option<Request>)
    requires forall r :: r in l ==> f(r).None?
    ensures Select(l, f) == []
  {
    if l != [] {
      assert l[0] in l && forall r :: r in l[1..] ==> r in l;
      SelectNone(l[1..], f);
    }
  }

  // Main result: where the submitted requests are after they were assigned.
  lemma AssignedMeans(l: seq<Request>, quorums: map<nat, QuorumView>, quorumOf: Request -> Option<nat>, a: Places, b: Places, x: Request, p: nat)
    requires Assigned(l, true, quorums, quorumOf, a, b)
    ensures x in b.submitted <==> OneGoesBack(l, x, quorums, quorumOf)
    ensures x in Queue(b.queues, p) <==>
              x in Queue(a.queues, p) || (x.quorumID == p && OneJoins(l, x, quorums, quorumOf))
    ensures x in b.badSchema <==> x in a.badSchema || (x in l && KeyUnknown(x, quorumOf))
    ensures x in b.controller <==> x in a.controller || (x in l && x.forController)
  {
    hide Select, Backs, Routes, Controls, Strays, GoesBack, Joins, KeyUnknown, Queue, Mine;
    forall r ensures (Backs(true, quorums, quorumOf)(r) == Some(x) <==> GoesBack(r, x, quorums, quorumOf))
                     && (Routes(true, quorums, quorumOf)(r) == Some(x) <==> Joins(r, x, quorums, quorumOf))
                     && (Strays(true, quorums, quorumOf)(r) == Some(x) <==> x == r && KeyUnknown(r, quorumOf))
                     && (Controls(true, quorums, quorumOf)(r) == Some(x) <==> x == r && r.forController)
    {
      WaysMean(r, x, true, quorums, quorumOf);
    }
    SelectIn(l, Backs(true, quorums, quorumOf), x);
    SelectIn(l, Routes(true, quorums, quorumOf), x);
    SelectIn(l, Strays(true, quorums, quorumOf), x);
    SelectIn(l, Controls(true, quorums, quorumOf), x);
  }

  // What was submitted before does not matter.
  lemma OtherPlaces(l: seq<Request>, known: bool, quorums: map<nat, QuorumView>, quorumOf: Request -> Option<nat>,
                    a: Places, a': Places, b: Places)
    requires Assigned(l, known, quorums, quorumOf, a, b) && a' == a.(submitted := a'.submitted)
    ensures Assigned(l, known, quorums, quorumOf, a', b)
  {}

  // Where the requests of l went, for each of the four lists.
  ghost predicate Went(l: seq<Request>, quorums: map<nat, QuorumView>, quorumOf: Request -> Option<nat>, a: Places, b: Places) {
    && (forall x :: x in b.submitted <==> OneGoesBack(l, x, quorums, quorumOf))
    && (forall x, p :: x in Queue(b.queues, p) <==>
          x in Queue(a.queues, p) || (x.quorumID == p && OneJoins(l, x, quorums, quorumOf)))
    && (forall x :: x in b.badSchema <==> x in a.badSchema || (x in l && KeyUnknown(x, quorumOf)))
    && (forall x :: x in b.controller <==> x in a.controller || (x in l && x.forController))
  }

  lemma AllWent(l: seq<Request>, quorums: map<nat, QuorumView>, quorumOf: Request -> Option<nat>, a: Places, b: Places)
    requires Assigned(l, true, quorums, quorumOf, a, b)
    ensures Went(l, quorums, quorumOf, a, b)
  {
    hide Assigned, Queue, OneGoesBack, OneJoins, KeyUnknown;
    forall x, p ensures x in Queue(b.queues, p) <==> x in Queue(a.queues, p) || (x.quorumID == p && OneJoins(l, x, quorums, quorumOf)) {
      AssignedMeans(l, quorums, quorumOf, a, b, x, p);
    }
    forall x ensures (x in b.submitted <==> OneGoesBack(l, x, quorums, quorumOf))
                     && (x in b.badSchema <==> x in a.badSchema || (x in l && KeyUnknown(x, quorumOf)))
                     && (x in b.controller <==> x in a.controller || (x in l && x.forController))
    {
      AssignedMeans(l, quorums, quorumOf, a, b, x, 0);
    }
  }

  // Nothing went anywhere.
  ghost predicate AllStay(l: seq<Request>, a: Places, b: Places) {
    b.submitted == l && b.controller == a.controller && b.badSchema == a.badSchema && forall p :: Queue(b.queues, p) == Queue(a.queues, p)
  }

  // Without a schema everything stays where it was.
  lemma NothingKnown(l: seq<Request>, quorums: map<nat, QuorumView>, quorumOf: Request -> Option<nat>, a: Places, b: Places)
    requires Assigned(l, false, quorums, quorumOf, a, b)
    ensures AllStay(l, a, b)
  {
    SelectAll(l, Backs(false, quorums, quorumOf));
    SelectNone(l, Routes(false, quorums, quorumOf));
    SelectNone(l, Controls(false, quorums, quorumOf));
    SelectNone(l, Strays(false, quorums, quorumOf));
    assert a.controller + [] == a.controller && a.badSchema + [] == a.badSchema;
    forall p ensures Queue(b.queues, p) == Queue(a.queues, p) { Regroup([], [], Queue(a.queues, p)); }
  }

  // The requests of l were added to their queues, in order.
  ghost predicate Delivered(queues: Queues, queues': Queues, l: seq<Request>) {
    forall p :: Queue(queues', p) == Queue(queues, p) + Mine(l, p)
  }

  lemma NothingDelivered(m: Queues)
    ensures Delivered(m, m, [])
  {
    forall p ensures Queue(m, p) == Queue(m, p) + Mine([], p) { Regroup([], [], Queue(m, p)); }
  }

  lemma DeliverOne(m: Queues, before: Queues, after: Queues, l: seq<Request>, one: Option<Request>)
    requires Delivered(m, before, l)
    requires forall p :: Queue(after, p) == Queue(before, p) + if one.Some? && one.value.quorumID == p then [one.value] else []
    ensures Delivered(m, after, l + AsList(one))
  {
    var tail := AsList(one);
    forall p ensures Queue(after, p) == Queue(m, p) + Mine(l + tail, p) {
      assert Queue(before, p) == Queue(m, p) + Mine(l, p);
      MineOfOne(one, p);
      hide Mine, Queue, AsList, Delivered;
      MineConcat(l, tail, p);
      Regroup(Queue(m, p), Mine(l, p), Mine(tail, p));
    }
  }

  lemma MineOfOne(one: Option<Request>, p: nat)
    ensures Mine(AsList(one), p) == if one.Some? && one.value.quorumID == p then [one.value] else []
  {
    if one.Some? { assert AsList(one)[1..] == []; }
  }

  // Everything that assigning requests changes.
  datatype Places = Places(submitted: seq<Request>, queues: Queues, controller: seq<Request>, badSchema: seq<Request>)

  ghost predicate Assigned(
      l: seq<Request>, known: bool, quorums: map<nat, QuorumView>, quorumOf: Request -> Option<nat>, a: Places, b: Places)
  {
    && b.submitted == Select(l, Backs(known, quorums, quorumOf))
    && b.controller == a.controller + Select(l, Controls(known, quorums, quorumOf))
    && b.badSchema == a.badSchema + Select(l, Strays(known, quorums, quorumOf))
    && Delivered(a.queues, b.queues, Select(l, Routes(known, quorums, quorumOf)))
  }

  lemma NothingAssigned(known: bool, quorums: map<nat, QuorumView>, quorumOf: Request -> Option<nat>, a: Places)
    requires a.submitted == []
    ensures Assigned([], known, quorums, quorumOf, a, a)
  {
    NothingDelivered(a.queues);
  }

  lemma OneMoreAssigned(l: seq<Request>, r: Request, known: bool, quorums: map<nat, QuorumView>,
                        quorumOf: Request -> Option<nat>, a: Places, b: Places, c: Places)
    requires Assigned(l, known, quorums, quorumOf, a, b)
    requires c.submitted == b.submitted + AsList(Backs(known, quorums, quorumOf)(r))
    requires c.controller == b.controller + AsList(Controls(known, quorums, quorumOf)(r))
    requires c.badSchema == b.badSchema + AsList(Strays(known, quorums, quorumOf)(r))
    requires var one := Routes(known, quorums, quorumOf)(r);
             forall p :: Queue(c.queues, p) == Queue(b.queues, p) + if one.Some? && one.value.quorumID == p then [one.value] else []
    ensures Assigned(l + [r], known, quorums, quorumOf, a, c)
  {
    hide Select, AsList, Backs, Controls, Strays, Routes, Delivered;
    var back, route := Backs(known, quorums, quorumOf), Routes(known, quorums, quorumOf);
    var control, stray := Controls(known, quorums, quorumOf), Strays(known, quorums, quorumOf);
    SelectAppend(l, r, back);
    SelectAppend(l, r, route);
    SelectAppend(l, r, control);
    SelectAppend(l, r, stray);
    Regroup(a.controller, Select(l, control), AsList(control(r)));
    Regroup(a.badSchema, Select(l, stray), AsList(stray(r)));
    DeliverOne(a.queues, b.queues, c.queues, Select(l, route), route(r));
  }

  // What the loss of a node needs to know of a quorum: the quorum itself, and, if the node was its
  // primary, a connection object for each of its active nodes.
  predicate CanInvalidate(quorums: map<nat, QuorumView>, connected: set<nat>, q: nat, nodeID: nat) {
    q in quorums &&
    (quorums[q].hasPrimary && quorums[q].primaryID == nodeID ==> forall n :: n in quorums[q].activeNodes ==> n in connected)
  }

  predicate Leaves(view: QuorumView, nodeID: nat) {
    view.hasPrimary && view.primaryID == nodeID && nodeID in view.activeNodes
  }

  // ---- the client's queues

  class Client {
    var submittedRequests: seq<Request>
    var quorumRequests: Queues
    var controllerRequests: seq<Request>
    var badSchema: seq<Request>       // answered with that error
    var quorums: map<nat, QuorumView>
    var connected: set<nat>           // the nodes with a connection object

    predicate Valid()
      reads this
    {
      Filed(quorumRequests)
    }

    constructor ()
      ensures Valid()
    {
      submittedRequests, quorumRequests, quorums, connected := [], map[], map[], {};
      controllerRequests, badSchema := [], [];
    }

    method AddRequestToQuorum(r: Request, end: bool)
      requires Valid()
      modifies this`quorumRequests
      ensures Valid()
      ensures quorumRequests == old(quorumRequests)[r.quorumID :=
                if end then Queue(old(quorumRequests), r.quorumID) + [r] else [r] + Queue(old(quorumRequests), r.quorumID)]
    {
      if r.quorumID !in quorumRequests { quorumRequests := quorumRequests[r.quorumID := []]; }
      var l := quorumRequests[r.quorumID];
      quorumRequests := quorumRequests[r.quorumID := if end then l + [r] else [r] + l];
    }

    // The requests of a quorum go back in front of the submitted ones.
    method InvalidateQuorumRequests(q: nat)
      requires Valid()
      modifies this`submittedRequests, this`quorumRequests
      ensures Valid() && Queue(quorumRequests, q) == []
      ensures submittedRequests == Queue(old(quorumRequests), q) + old(submittedRequests)
      ensures forall p :: p != q ==> Queue(quorumRequests, p) == Queue(old(quorumRequests), p)
      ensures forall p :: Waiting(submittedRequests, quorumRequests, p) == Waiting(old(submittedRequests), old(quorumRequests), p)
    {
      ghost var l, s, m := Queue(quorumRequests, q), submittedRequests, quorumRequests;
      forall p ensures Mine(l + s, p) == (if p == q then l else []) + Mine(s, p) {
        MineConcat(l, s, p);
        MineOfSame(l, q, p);
      }
      if q !in quorumRequests {
        assert [] + submittedRequests == submittedRequests;
        return;
      }
      submittedRequests := quorumRequests[q] + submittedRequests;
      quorumRequests := quorumRequests[q := []];
      forall p ensures Waiting(submittedRequests, quorumRequests, p) == Waiting(s, m, p) {
        assert [] + Mine(s, p) == Mine(s, p) && [] + (l + Mine(s, p)) == l + Mine(s, p);
      }
    }

    // Only the loss of the primary concerns a quorum.  cleared: the connection leaves the quorum.
    method InvalidateQuorum(q: nat, nodeID: nat) returns (ok: bool, cleared: bool)
      requires Valid()
      modifies this`submittedRequests, this`quorumRequests
      ensures ok <==> CanInvalidate(quorums, connected, q, nodeID)
      ensures cleared <==> ok && Leaves(quorums[q], nodeID)
      ensures ok ==> Valid()
      ensures ok ==> forall p :: Waiting(submittedRequests, quorumRequests, p) == Waiting(old(submittedRequests), old(quorumRequests), p)
      ensures ok ==> q in quorums && (quorums[q].hasPrimary && quorums[q].primaryID == nodeID ==> Queue(quorumRequests, q) == [])
      ensures ok && q in quorums && !(quorums[q].hasPrimary && quorums[q].primaryID == nodeID) ==>
                quorumRequests == old(quorumRequests) && submittedRequests == old(submittedRequests)
    {
      ok, cleared := true, false;
      if q !in quorums { return false, false; }
      var view := quorums[q];
      if view.hasPrimary && view.primaryID == nodeID {
        for k := 0 to |view.activeNodes|
          invariant forall j :: 0 <= j < k ==> view.activeNodes[j] in connected
          invariant cleared <==> nodeID in view.activeNodes[..k]
        {
          if view.activeNodes[k] !in connected { return false, false; }
          if view.activeNodes[k] == nodeID { cleared := true; }
        }
        InvalidateQuorumRequests(q);
      }
    }

    // The code also fails a transaction whose request had a quorum before, in the branch where the
    // request has none; that never happens.
    method ReassignRequest(r: Request, schemaKnown: bool, quorumOf: Request -> Option<nat>)
      requires Valid()
      modifies this`submittedRequests, this`quorumRequests, this`controllerRequests, this`badSchema
      ensures Valid()
      ensures submittedRequests == old(submittedRequests) + AsList(Backs(schemaKnown, quorums, quorumOf)(r))
      ensures controllerRequests == old(controllerRequests) + AsList(Controls(schemaKnown, quorums, quorumOf)(r))
      ensures badSchema == old(badSchema) + AsList(Strays(schemaKnown, quorums, quorumOf)(r))
      ensures var one := Routes(schemaKnown, quorums, quorumOf)(r);
              forall p :: Queue(quorumRequests, p) ==
                Queue(old(quorumRequests), p) + if one.Some? && one.value.quorumID == p then [one.value] else []
      ensures submittedRequests == old(submittedRequests) +
                if !schemaKnown then [r]
                else if Placed(r, quorumOf).Some? && GoesBack(r, Placed(r, quorumOf).value, quorums, quorumOf) then [Placed(r, quorumOf).value]
                else []
      ensures controllerRequests == old(controllerRequests) + if schemaKnown && r.forController then [r] else []
      ensures badSchema == old(badSchema) + if schemaKnown && KeyUnknown(r, quorumOf) then [r] else []
      ensures forall p :: Queue(quorumRequests, p) ==
                Queue(old(quorumRequests), p) +
                if schemaKnown && Placed(r, quorumOf).Some? && Placed(r, quorumOf).value.quorumID == p
                   && Joins(r, Placed(r, quorumOf).value, quorums, quorumOf) then [Placed(r, quorumOf).value] else []
    {
      if !schemaKnown {
        submittedRequests := submittedRequests + [r];
        return;
      }
      if r.forController {
        controllerRequests := controllerRequests + [r];
        return;
      }
      var r1 := r;
      if r.quorumID == 0 {
        var q := quorumOf(r);
        if q.None? {
          badSchema := badSchema + [r];
          return;
        }
        r1 := r.(quorumID := q.value);
      }
      if !r1.isRead && r1.quorumID in quorums && !quorums[r1.quorumID].hasPrimary {
        submittedRequests := submittedRequests + [r1];
      } else {
        AddRequestToQuorum(r1, true);
      }
    }

    // Every submitted request is sent on its way; those that cannot go yet stay, in order.
    method AssignRequestsToQuorums(schemaKnown: bool, quorumOf: Request -> Option<nat>)
      requires Valid()
      modifies this`submittedRequests, this`quorumRequests, this`controllerRequests, this`badSchema
      ensures Valid() && submittedRequests == Select(old(submittedRequests), Backs(schemaKnown, quorums, quorumOf))
      ensures controllerRequests == old(controllerRequests) + Select(old(submittedRequests), Controls(schemaKnown, quorums, quorumOf))
      ensures badSchema == old(badSchema) + Select(old(submittedRequests), Strays(schemaKnown, quorums, quorumOf))
      ensures Delivered(old(quorumRequests), quorumRequests, Select(old(submittedRequests), Routes(schemaKnown, quorums, quorumOf)))
      ensures schemaKnown ==> Went(old(submittedRequests), quorums, quorumOf, old(AllPlaces()), AllPlaces())
      ensures !schemaKnown ==> AllStay(old(submittedRequests), old(AllPlaces()), AllPlaces())
    {
      hide Select, Delivered, AsList, Backs, Routes, Controls, Strays, Queue, Went, AllStay;
      var all := submittedRequests;
      submittedRequests := [];
      NothingAssigned(schemaKnown, quorums, quorumOf, Places([], quorumRequests, controllerRequests, badSchema));
      for k := 0 to |all|
        invariant Valid()
        invariant Assigned(all[..k], schemaKnown, quorums, quorumOf, old(Places([], quorumRequests, controllerRequests, badSchema)),
                           Places(submittedRequests, quorumRequests, controllerRequests, badSchema))
      {
        hide Assigned;
        ghost var before := Places(submittedRequests, quorumRequests, controllerRequests, badSchema);
        ReassignRequest(all[k], schemaKnown, quorumOf);
        OneMoreAssigned(all[..k], all[k], schemaKnown, quorums, quorumOf, old(Places([], quorumRequests, controllerRequests, badSchema)),
                        before, Places(submittedRequests, quorumRequests, controllerRequests, badSchema));
        assert all[..k + 1] == all[..k] + [all[k]];
      }
      assert all[..|all|] == all;
      ghost var a, b := old(AllPlaces()), AllPlaces();
      OtherPlaces(all, schemaKnown, quorums, quorumOf, a.(submitted := []), a, b);
      hide Assigned;
      if schemaKnown { AllWent(all, quorums, quorumOf, a, b); } else { NothingKnown(all, quorums, quorumOf, a, b); }
    }

    function AllPlaces(): Places
      reads this
    {
      Places(submittedRequests, quorumRequests, controllerRequests, badSchema)
    }
  }

  // ---- a connection

  class ShardConnection {
    const client: Client
    const nodeID: nat
    var sentRequests: seq<Request>
    var quorums: seq<nat>

    constructor (client: Client, nodeID: nat)
      ensures this.client == client && this.nodeID == nodeID && sentRequests == [] && quorums == []
    {
      this.client, this.nodeID, sentRequests, quorums := client, nodeID, [], [];
    }

    // The requests sent for a quorum go back in front of its queue, from the last to the first.
    method TakeBack(q: nat)
      requires client.Valid()
      modifies this`sentRequests, client`quorumRequests
      ensures client.Valid() && sentRequests == Others(old(sentRequests), q)
      ensures Queue(client.quorumRequests, q) == Mine(old(sentRequests), q) + Queue(old(client.quorumRequests), q)
      ensures forall p :: p != q ==> Queue(client.quorumRequests, p) == Queue(old(client.quorumRequests), p)
    {
      ghost var sent, m := sentRequests, client.quorumRequests;
      var i := |sentRequests|;
      Regroup([], [], Queue(m, q));
      assert sent[..i] == sent && sent + [] == sent;
      while i > 0
        invariant i <= |sent| && client.Valid()
        invariant sentRequests == sent[..i] + Others(sent[i..], q)
        invariant Queue(client.quorumRequests, q) == Mine(sent[i..], q) + Queue(m, q)
        invariant forall p :: p != q ==> Queue(client.quorumRequests, p) == Queue(m, p)
      {
        hide Mine, Others;
        i := i - 1;
        TakeStep(sent, i, q);
        var r := sentRequests[i];
        Regroup([r], Mine(sent[i + 1..], q), Queue(m, q));
        if r.quorumID == q {
          sentRequests := sentRequests[..i] + sentRequests[i + 1..];
          client.AddRequestToQuorum(r, false);
        }
      }
      assert sent[0..] == sent && [] + Others(sent, q) == Others(sent, q);
    }

    // All that concerns one quorum when its shard server is lost.
    method InvalidateQuorum(q: nat) returns (ok: bool)
      requires client.Valid()
      modifies this, client`submittedRequests, client`quorumRequests
      ensures ok <==> CanInvalidate(client.quorums, client.connected, q, nodeID)
      ensures ok ==> quorums == if Leaves(client.quorums[q], nodeID) then Remove(old(quorums), q) else old(quorums)
      ensures ok ==> client.Valid() && SamePending(old(sentRequests), old(client.submittedRequests), old(client.quorumRequests),
                                                   sentRequests, client.submittedRequests, client.quorumRequests)
    {
      ghost var sent, s, m := sentRequests, client.submittedRequests, client.quorumRequests;
      TakeBack(q);
      TakenBack(sent, s, m, client.quorumRequests, q);
      ghost var m1 := client.quorumRequests;
      var cleared;
      ok, cleared := client.InvalidateQuorum(q, nodeID);
      if !ok { return; }
      if cleared { quorums := Remove(quorums, q); }
    }

    // From the last to the first, each in front of its queue.
    method ReassignSentRequests()
      requires client.Valid()
      modifies this`sentRequests, client`quorumRequests
      ensures client.Valid() && sentRequests == []
      ensures SamePending(old(sentRequests), client.submittedRequests, old(client.quorumRequests),
                          sentRequests, client.submittedRequests, client.quorumRequests)
    {
      while sentRequests != []
        invariant client.Valid()
        invariant SamePending(old(sentRequests), client.submittedRequests, old(client.quorumRequests),
                              sentRequests, client.submittedRequests, client.quorumRequests)
        decreases |sentRequests|
      {
        hide SamePending;
        var r := sentRequests[|sentRequests| - 1];
        ghost var sent, m := sentRequests, client.quorumRequests;
        sentRequests := sentRequests[..|sentRequests| - 1];
        client.AddRequestToQuorum(r, false);
        LastBack(sent, client.submittedRequests, m, client.quorumRequests);
        PendingTwice(old(sentRequests), client.submittedRequests, old(client.quorumRequests), sent, client.submittedRequests, m,
                     sentRequests, client.submittedRequests, client.quorumRequests);
      }
    }

    // Main result: when the connection closes, for every quorum the requests already sent wait again,
    // in their order and ahead of those that waited before; none is lost and none is doubled.
    method OnClose() returns (ok: bool)
      requires client.Valid()
      modifies this, client`submittedRequests, client`quorumRequests
      ensures ok <==> forall q :: q in old(quorums) ==> CanInvalidate(client.quorums, client.connected, q, nodeID)
      ensures ok ==> client.Valid() && sentRequests == []
      ensures ok ==> forall q :: Waiting(client.submittedRequests, client.quorumRequests, q)
                                 == Mine(old(sentRequests), q) + Waiting(old(client.submittedRequests), old(client.quorumRequests), q)
      ensures ok ==> forall x :: Copies(client.submittedRequests, client.quorumRequests, sentRequests, x)
                                 == Copies(old(client.submittedRequests), old(client.quorumRequests), old(sentRequests), x)
    {
      ghost var sent, s, m := sentRequests, client.submittedRequests, client.quorumRequests;
      var members := quorums;
      for k := 0 to |members|
        invariant client.Valid()
        invariant forall j :: 0 <= j < k ==> CanInvalidate(client.quorums, client.connected, members[j], nodeID)
        invariant SamePending(sent, s, m, sentRequests, client.submittedRequests, client.quorumRequests)
      {
        hide SamePending;
        ghost var sent1, s1, m1 := sentRequests, client.submittedRequests, client.quorumRequests;
        ok := InvalidateQuorum(members[k]);
        if !ok { return; }
        PendingTwice(sent, s, m, sent1, s1, m1, sentRequests, client.submittedRequests, client.quorumRequests);
      }
      ghost var sent1, m1 := sentRequests, client.quorumRequests;
      ReassignSentRequests();
      PendingTwice(sent, s, m, sent1, client.submittedRequests, m1, sentRequests, client.submittedRequests, client.quorumRequests);
      AllWaiting(sent, s, m, client.submittedRequests, client.quorumRequests);
      ok := true;
    }

    method SendFirst(q: nat) returns (r: Request)
      requires client.Valid() && q in client.quorumRequests && client.quorumRequests[q] != []
      modifies this`sentRequests, client`quorumRequests
      ensures client.Valid() && r == old(client.quorumRequests)[q][0] && sentRequests == old(sentRequests) + [r]
      ensures client.quorumRequests == old(client.quorumRequests)[q := old(client.quorumRequests)[q][1..]]
    {
      r := client.quorumRequests[q][0];
      client.quorumRequests := client.quorumRequests[q := client.quorumRequests[q][1..]];
      sentRequests := sentRequests + [r];
    }

    // Requests at the head of the queue are sent, in order; writes go to the primary alone, and in
    // strict mode all requests do.  After limit requests the other servers get their turn.  transmits
    // says of which requests the transport takes the message.
    method SendQuorumRequest(
        q: nat, schemaKnown: bool, strict: bool, isConnected: bool, limit: nat, transmits: Request -> bool)
      returns (ok: bool, served: nat)
      requires client.Valid()
      modifies this`sentRequests, client`quorumRequests
      ensures client.Valid() && served <= |Queue(old(client.quorumRequests), q)|
      ensures Queue(client.quorumRequests, q) == Queue(old(client.quorumRequests), q)[served..]
      ensures sentRequests == old(sentRequests) + Queue(old(client.quorumRequests), q)[..served]
      ensures forall p :: p != q ==> Queue(client.quorumRequests, p) == Queue(old(client.quorumRequests), p)
      ensures ok <==> !schemaKnown || Queue(old(client.quorumRequests), q) == [] || q in client.quorums
      ensures served > 0 ==> ok && schemaKnown && isConnected && q in client.quorums
                             && SentRun(Queue(old(client.quorumRequests), q), served, strict, client.quorums[q].primaryID == nodeID, limit, transmits)
      ensures ok && schemaKnown && isConnected && Queue(old(client.quorumRequests), q) != []
              && !(strict && client.quorums[q].primaryID != nodeID) ==>
                Stops(Queue(old(client.quorumRequests), q), served, client.quorums[q].primaryID == nodeID, limit, transmits)
    {
      hide SentRun, Stops;
      ok, served := true, 0;
      ghost var queue := Queue(client.quorumRequests, q);
      assert queue[0..] == queue && sentRequests + queue[..0] == sentRequests;
      if !schemaKnown || q !in client.quorumRequests || client.quorumRequests[q] == [] { return; }
      if q !in client.quorums { return false, 0; }
      var isPrimary := client.quorums[q].primaryID == nodeID;
      if (strict && !isPrimary) || !isConnected { return; }
      var all := client.quorumRequests[q];
      assert client.quorumRequests[q := all[0..]] == client.quorumRequests;
      while served < |all| && (isPrimary || all[served].isRead)
        invariant served <= |all| && client.quorumRequests == old(client.quorumRequests)[q := all[served..]] && client.Valid()
        invariant sentRequests == old(sentRequests) + all[..served]
        invariant limit > 0 ==> served < limit
        invariant forall k :: 0 <= k < served ==> (isPrimary || all[k].isRead) && transmits(all[k])
      {
        var r := SendFirst(q);
        assert all[served..][1..] == all[served + 1..] && all[..served + 1] == all[..served] + [r];
        served := served + 1;
        if !transmits(r) { break; }
        if limit != 0 && served >= limit { break; }
      }
      RunEnds(all, served, strict, isPrimary, limit, transmits);
    }

    // A response.  The request that it answers is found by its number; the parts of a listing leave it
    // with the connection, a refusal and the end of a shard send it on its way again, and any other
    // answer ends it.  delivered: the response goes to the result.
    method OnMessage(id: nat, answer: Answer, schemaKnown: bool, quorumOf: Request -> Option<nat>) returns (delivered: bool)
      requires client.Valid()
      modifies this`sentRequests, client`submittedRequests, client`quorumRequests, client`controllerRequests, client`badSchema
      ensures client.Valid()
      ensures var sent, i := old(sentRequests), FirstWith(old(sentRequests), id);
              && delivered == (i == |sent| || answer == Part || answer == Final)
              && sentRequests == (if i == |sent| || answer == Part then sent else sent[..i] + sent[i + 1..])
              && (delivered ==>
                    client.submittedRequests == old(client.submittedRequests) && client.quorumRequests == old(client.quorumRequests)
                    && client.controllerRequests == old(client.controllerRequests) && client.badSchema == old(client.badSchema))
              && (!delivered ==>
                    var r, view := sent[i], client.quorums;
                    var one := Routes(schemaKnown, view, quorumOf)(r);
                    && client.submittedRequests == old(client.submittedRequests) + AsList(Backs(schemaKnown, view, quorumOf)(r))
                    && client.controllerRequests == old(client.controllerRequests) + AsList(Controls(schemaKnown, view, quorumOf)(r))
                    && client.badSchema == old(client.badSchema) + AsList(Strays(schemaKnown, view, quorumOf)(r))
                    && forall p :: Queue(client.quorumRequests, p) ==
                         Queue(old(client.quorumRequests), p) + if one.Some? && one.value.quorumID == p then [one.value] else [])
              && (!delivered && sent[i].quorumID != 0 && !sent[i].forController ==>
                    forall x :: Copies(client.submittedRequests, client.quorumRequests, sentRequests, x)
                                == Copies(old(client.submittedRequests), old(client.quorumRequests), sent, x))
    {
      hide Queue, Copies, Backs, Routes, Controls, Strays, AsList;
      var i := 0;
      while i < |sentRequests| && sentRequests[i].id != id
        invariant i <= |sentRequests| && FirstWith(sentRequests, id) == i + FirstWith(sentRequests[i..], id)
      {
        assert sentRequests[i..][1..] == sentRequests[i + 1..];
        i := i + 1;
      }
      if i == |sentRequests| || answer == Part { return true; }
      var r := sentRequests[i];
      ghost var s, m := client.submittedRequests, client.quorumRequests;
      sentRequests := sentRequests[..i] + sentRequests[i + 1..];
      if answer == Final { return true; }
      client.ReassignRequest(r, schemaKnown, quorumOf);
      if r.quorumID != 0 && !r.forController {
        OneWay(r, schemaKnown, client.quorums, quorumOf, s, m, client.submittedRequests, client.quorumRequests);
        SentAgain(old(sentRequests), i, s, m, client.submittedRequests, client.quorumRequests);
      }
      return false;
    }
  }

  // Why a run of requests could be sent: a limit not passed before its last, servers that may take them.
  predicate SentRun(queue: seq<Request>, served: nat, strict: bool, isPrimary: bool, limit: nat, transmits: Request -> bool)
    requires 0 < served <= |queue|
  {
    && (strict ==> isPrimary) && (limit > 0 ==> served <= limit)
    && (forall k :: 0 <= k < served ==> isPrimary || queue[k].isRead)
    && (forall k :: 0 <= k < served - 1 ==> transmits(queue[k]))
  }

  lemma RunEnds(queue: seq<Request>, served: nat, strict: bool, isPrimary: bool, limit: nat, transmits: Request -> bool)
    requires served <= |queue| && (strict ==> isPrimary) && (limit > 0 ==> served <= limit)
    requires forall k :: 0 <= k < served ==> (isPrimary || queue[k].isRead) && (k < served - 1 ==> transmits(queue[k]))
    requires || served == |queue| || (limit > 0 && served == limit) || (!isPrimary && !queue[served].isRead)
             || (served > 0 && !transmits(queue[served - 1]))
    ensures served > 0 ==> SentRun(queue, served, strict, isPrimary, limit, transmits)
    ensures Stops(queue, served, isPrimary, limit, transmits)
  {}

  // To a server that is not the primary only reads are sent, and none in strict mode; and a run goes on past
  // a request only if its message was taken.
  lemma SentRunMeans(queue: seq<Request>, served: nat, strict: bool, isPrimary: bool, limit: nat, transmits: Request -> bool)
    requires 0 < served <= |queue| && SentRun(queue, served, strict, isPrimary, limit, transmits)
    ensures !isPrimary ==> !strict && forall r :: r in queue[..served] ==> r.isRead
    ensures forall r :: r in queue[..served - 1] ==> transmits(r)
    ensures limit == 0 || served <= limit
  {}

  // Why it ended: nothing left, a limit reached, a write that this server may not take, a transport
  // that did not take the last message.
  predicate Stops(queue: seq<Request>, served: nat, isPrimary: bool, limit: nat, transmits: Request -> bool)
    requires served <= |queue|
  {
    || served == |queue| || (limit > 0 && served == limit) || (!isPrimary && !queue[served].isRead)
    || (served > 0 && !transmits(queue[served - 1]))
  }

  // What a response says: a part of a listing or a count, an end, a refusal, the end of a shard.
  datatype Answer = Part | Final | NoService | Next

  function FirstWith(l: seq<Request>, id: nat): (i: nat)
    ensures i <= |l| && (i < |l| ==> l[i].id == id)
    ensures forall j :: 0 <= j < i ==> l[j].id != id
  {
    if l == [] || l[0].id == id then 0 else 1 + FirstWith(l[1..], id)
  }

  // A request that has its quorum waits again or joins the queue of its quorum.
  lemma OneWay(r: Request, known: bool, quorums: map<nat, QuorumView>, quorumOf: Request -> Option<nat>,
               s: seq<Request>, m: Queues, s': seq<Request>, m': Queues)
    requires r.quorumID != 0 && !r.forController && s' == s + AsList(Backs(known, quorums, quorumOf)(r))
    requires var one := Routes(known, quorums, quorumOf)(r);
             forall p :: Queue(m', p) == Queue(m, p) + if one.Some? && one.value.quorumID == p then [one.value] else []
    ensures (s' == s + [r] && forall p :: Queue(m', p) == Queue(m, p))
            || (s' == s && forall p :: Queue(m', p) == Queue(m, p) + if r.quorumID == p then [r] else [])
  {
    hide Queue;
    assert forall p :: Queue(m, p) + [] == Queue(m, p);
  }

  lemma TakenOut(sent: seq<Request>, i: nat, x: Request)
    requires i < |sent|
    ensures multiset(sent)[x] == multiset(sent[..i] + sent[i + 1..])[x] + multiset([sent[i]])[x]
  {
    assert sent == sent[..i] + ([sent[i]] + sent[i + 1..]);
  }

  lemma OneMore(l: seq<Request>, r: Request, x: Request)
    ensures multiset(l + [r])[x] == multiset(l)[x] + multiset([r])[x]
  {}

  // A request that leaves the connection and goes back to one place is neither lost nor doubled.
  lemma SentAgain(sent: seq<Request>, i: nat, s: seq<Request>, m: Queues, s': seq<Request>, m': Queues)
    requires i < |sent|
    requires var r := sent[i];
             (s' == s + [r] && forall p :: Queue(m', p) == Queue(m, p))
             || (s' == s && forall p :: Queue(m', p) == Queue(m, p) + if r.quorumID == p then [r] else [])
    ensures forall x :: Copies(s', m', sent[..i] + sent[i + 1..], x) == Copies(s, m, sent, x)
  {
    hide Queue;
    var r := sent[i];
    forall x ensures Copies(s', m', sent[..i] + sent[i + 1..], x) == Copies(s, m, sent, x) {
      var p := x.quorumID;
      TakenOut(sent, i, x);
      OneMore(s, r, x);
      OneMore(Queue(m, p), r, x);
      assert Queue(m, p) + [] == Queue(m, p);
      assert r.quorumID != p ==> multiset([r])[x] == 0;
    }
  }

  lemma TakeStep(sent: seq<Request>, i: nat, q: nat)
    requires i < |sent|
    ensures var l := sent[..i + 1] + Others(sent[i + 1..], q);
            l[i] == sent[i]
            && (sent[i].quorumID == q ==>
                  l[..i] + l[i + 1..] == sent[..i] + Others(sent[i..], q)
                  && Mine(sent[i..], q) == [sent[i]] + Mine(sent[i + 1..], q))
            && (sent[i].quorumID != q ==>
                  l == sent[..i] + Others(sent[i..], q) && Mine(sent[i..], q) == Mine(sent[i + 1..], q))
  {
    assert sent[i..][1..] == sent[i + 1..] && sent[i..][0] == sent[i];
    assert sent[..i + 1] == sent[..i] + [sent[i]];
    var o := Others(sent[i + 1..], q);
    Regroup(sent[..i], [sent[i]], o);
    Regroup([], [], o);
    Regroup([], [], Mine(sent[i + 1..], q));
  }

  // For every quorum the sent requests followed by the waiting ones are the same.
  ghost predicate SamePending(sent: seq<Request>, s: seq<Request>, m: Queues, sent': seq<Request>, s': seq<Request>, m': Queues) {
    forall q :: Mine(sent', q) + Waiting(s', m', q) == Mine(sent, q) + Waiting(s, m, q)
  }

  lemma PendingTwice(sent: seq<Request>, s: seq<Request>, m: Queues, sent': seq<Request>, s': seq<Request>, m': Queues,
                     sent'': seq<Request>, s'': seq<Request>, m'': Queues)
    requires SamePending(sent, s, m, sent', s', m') && SamePending(sent', s', m', sent'', s'', m'')
    ensures SamePending(sent, s, m, sent'', s'', m'')
  {}

  lemma TakenBack(sent: seq<Request>, s: seq<Request>, m: Queues, m': Queues, q: nat)
    requires Queue(m', q) == Mine(sent, q) + Queue(m, q) && forall p :: p != q ==> Queue(m', p) == Queue(m, p)
    ensures SamePending(sent, s, m, Others(sent, q), s, m')
  {
    forall p ensures Mine(Others(sent, q), p) + Waiting(s, m', p) == Mine(sent, p) + Waiting(s, m, p) {
      MineOfOthers(sent, q, p);
      Regroup(Mine(sent, p), Queue(m, p), Mine(s, p));
      Regroup([], [], Waiting(s, m', p));
    }
  }

  lemma LastBack(sent: seq<Request>, s: seq<Request>, m: Queues, m': Queues)
    requires sent != []
    requires var r := sent[|sent| - 1]; m' == m[r.quorumID := [r] + Queue(m, r.quorumID)]
    ensures SamePending(sent, s, m, sent[..|sent| - 1], s, m')
  {
    forall p ensures Mine(sent[..|sent| - 1], p) + Waiting(s, m', p) == Mine(sent, p) + Waiting(s, m, p) {
      LastBackFor(sent, s, m, m', p);
    }
  }

  lemma LastBackFor(sent: seq<Request>, s: seq<Request>, m: Queues, m': Queues, p: nat)
    requires sent != []
    requires var r := sent[|sent| - 1]; m' == m[r.quorumID := [r] + Queue(m, r.quorumID)]
    ensures Mine(sent[..|sent| - 1], p) + Waiting(s, m', p) == Mine(sent, p) + Waiting(s, m, p)
  {
    hide Queue, Mine;
    var r, front := sent[|sent| - 1], sent[..|sent| - 1];
    assert sent == front + [r];
    MineConcat(front, [r], p);
    OneMine(r, p);
    QueueOfPut(m, r.quorumID, [r] + Queue(m, r.quorumID), p);
    var f, w, one := Mine(front, p), Waiting(s, m, p), if r.quorumID == p then [r] else [];
    if p == r.quorumID { Regroup([r], Queue(m, p), Mine(s, p)); } else { Regroup([], [], w); }
    hide Waiting;
    Regroup(f, one, w);
  }

  lemma QueueOfPut(m: Queues, q: nat, l: seq<Request>, p: nat)
    ensures Queue(m[q := l], p) == if p == q then l else Queue(m, p)
  {}

  lemma OneMine(r: Request, p: nat)
    ensures Mine([r], p) == if r.quorumID == p then [r] else []
  {
    assert [r][1..] == [];
  }

  lemma AllWaiting(sent: seq<Request>, s: seq<Request>, m: Queues, s': seq<Request>, m': Queues)
    requires SamePending(sent, s, m, [], s', m')
    ensures forall q :: Waiting(s', m', q) == Mine(sent, q) + Waiting(s, m, q)
    ensures forall x :: Copies(s', m', [], x) == Copies(s, m, sent, x)
  {
    forall q ensures Waiting(s', m', q) == Mine(sent, q) + Waiting(s, m, q) { Regroup([], [], Waiting(s', m', q)); }
    forall x ensures Copies(s', m', [], x) == Copies(s, m, sent, x) { SameCopies(s, m, sent, s', m', [], x); }
  }
}
