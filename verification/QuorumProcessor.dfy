// The queues of the controller: messages waiting to be appended to the log, and the clients whose
// requests caused them (src/Application/ConfigServer/ConfigQuorumProcessor.cpp and the one value
// in flight of ConfigQuorumContext.cpp).

module QuorumProcessors {
  import opened Bytes
  import opened KeyedLists
  import opened Formatting
  import opened ConfigMessages
  import opened MessageCodec
  import opened Schema
  import opened SchemaInvariant
  import opened SchemaSteps
  import opened ConfigStates
  import opened Lookups
  import Controllers

  // A client's request, with the message constructed from it.
  datatype Request = Request(id: nat, message: Message)

  datatype Pending = Pending(message: Message, fromClient: bool)

  datatype Response = OK | Number(n: nat) | Failure | NoService

  // A response that was sent, and the message it was sent for, if any.
  datatype Reply = Reply(request: Request, response: Response, cause: Option<Message>)

  // ---- the pairing of the two queues

  function ClientMessages(l: seq<Pending>): seq<Message> {
    if l == [] then [] else (if l[0].fromClient then [l[0].message] else []) + ClientMessages(l[1..])
  }

  function Messages(l: seq<Request>): (r: seq<Message>)
    ensures |r| == |l| && forall i :: 0 <= i < |l| ==> r[i] == l[i].message
  {
    seq(|l|, i requires 0 <= i < |l| => l[i].message)
  }

  function Answered(l: seq<Reply>): (r: seq<Request>)
    ensures |r| == |l| && forall i :: 0 <= i < |l| ==> r[i] == l[i].request
  {
    seq(|l|, i requires 0 <= i < |l| => l[i].request)
  }

  lemma {:induction false} ClientMessagesAppend(l: seq<Pending>, p: Pending)
    ensures ClientMessages(l + [p]) == ClientMessages(l) + (if p.fromClient then [p.message] else [])
  {
    if l == [] {
      assert [p][1..] == [];
      assert l + [p] == [p];
    } else {
      ClientMessagesAppend(l[1..], p);
      assert (l + [p])[1..] == l[1..] + [p];
    }
  }

  lemma {:induction false} FirstClient(l: seq<Pending>, rs: seq<Request>)
    requires l != [] && l[0].fromClient && ClientMessages(l) == Messages(rs)
    ensures rs != [] && rs[0].message == l[0].message && ClientMessages(l[1..]) == Messages(rs[1..])
  {
    assert ClientMessages(l) == [l[0].message] + ClientMessages(l[1..]);
    assert Messages(rs)[0] == l[0].message;
    assert Messages(rs[1..]) == Messages(rs)[1..] == ClientMessages(l[1..]);
  }

  lemma AnsweredAppend(l: seq<Reply>, r: Reply, rs: seq<Request>)
    requires rs != [] && r.request == rs[0]
    ensures Answered(l) + rs == Answered(l + [r]) + rs[1..]
  {
    assert Answered(l + [r]) == Answered(l) + [rs[0]];
  }

  // How many messages at the head of the queue are turned down before one is accepted.
  function Refusals(s: State, l: seq<Pending>): (k: nat)
    ensures k <= |l|
    ensures forall i :: 0 <= i < k ==> CompleteMessage(s, l[i].message).Rejected?
    ensures k < |l| ==> !CompleteMessage(s, l[k].message).Rejected?
  {
    if l == [] || !CompleteMessage(s, l[0].message).Rejected? then 0 else 1 + Refusals(s, l[1..])
  }

  // A message of the controller's own that makes another one needless.  A server that is registered
  // for the first time has no number yet.
  predicate Covers(queued: Message, m: Message) {
    match m
    case RegisterShardServer(nodeID, endpoint) =>
      queued.RegisterShardServer? && (queued.endpoint == endpoint || (nodeID != 0 && queued.nodeID == nodeID))
    case SplitShardBegin(shardID, _) => queued.SplitShardBegin? && queued.shardID == shardID
    case SplitShardComplete(shardID) => queued.SplitShardComplete? && queued.shardID == shardID
    case TruncateTableBegin(tableID) => queued.TruncateTableBegin? && queued.tableID == tableID
    case TruncateTableComplete(tableID) => queued.TruncateTableComplete? && queued.tableID == tableID
    case _ => false
  }

  predicate Covered(l: seq<Pending>, m: Message) { exists p :: p in l && Covers(p.message, m) }

  // The first message that is not turned down cannot be checked: the controller stops.
  predicate Stuck(s: State, l: seq<Pending>) {
    var k := Refusals(s, l);
    k < |l| && CompleteMessage(s, l[k].message).Aborted?
  }

  // In a well-formed state that message is the completion of a split whose shard is gone.
  lemma StuckMeans(s: State, l: seq<Pending>)
    requires WellFormed(s)
    ensures var k := Refusals(s, l);
            Stuck(s, l) <==> k < |l| && l[k].message.SplitShardComplete? && !Has(s.shards, l[k].message.shardID)
  {
    hide WellFormed, CompleteMessage;
    var k := Refusals(s, l);
    if k < |l| { CheckStops(s, l[k].message); }
  }

  // What offering the queue to the state does: the messages at its front that are turned down go, and
  // the first that is not is accepted.
  predicate Offered(s: State, l: seq<Pending>, s': State, l': seq<Pending>) {
    var k := Refusals(s, l);
    k <= |l| && l' == l[k..] && if l' == [] then s' == s else CompleteMessage(s, l'[0].message) == Accepted(s')
  }

  lemma NothingOffered(s: State)
    ensures Offered(s, [], s, [])
  {}

  lemma NothingStuck(s: State)
    ensures !Stuck(s, [])
  {}

  // The response to a request whose message was applied.
  function ResponseTo(m: Message, number: nat): Response {
    if m.CreateQuorum? || m.CreateDatabase? || m.CreateTable? || m.SplitShardBegin? then Number(number) else OK
  }

  // A reply is for the message of its own request, or for none.
  predicate Paired(r: Reply) { r.cause.Some? ==> r.cause.value == r.request.message }

  // The client whose message was applied learns the number of the object that it created; a split
  // whose parent is gone creates none and yet is answered with a number.
  predicate AnsweredHead(s: State, m: Message, r: Reply) {
    r.request.message == m && r.cause == Some(m) &&
    if GivenNumber(s, m).Some? then r.response == Number(GivenNumber(s, m).value)
    else if m.SplitShardBegin? then r.response.Number?
    else r.response == OK
  }

  // All later replies tell their clients that their messages were turned down.
  predicate TurnedDown(before: seq<Reply>, after: seq<Reply>) {
    before <= after && forall i :: |before| <= i < |after| ==> after[i].response == Failure && after[i].cause.Some?
  }

  lemma OneDown(before: seq<Reply>, after: seq<Reply>, r: Reply)
    requires TurnedDown(before, after) && r.response == Failure && r.cause.Some?
    ensures TurnedDown(before, after + [r])
  {}

  lemma NoneDown(replies: seq<Reply>)
    ensures TurnedDown(replies, replies)
  {}

  lemma HeadAnswered(before: seq<Reply>, r: Reply, after: seq<Reply>)
    requires TurnedDown(before + [r], after)
    ensures |after| > |before| && before <= after && after[|before|] == r && TurnedDown(after[..|before| + 1], after)
  {
    assert after[..|before| + 1] == before + [r];
  }

  // The number in a response is that of a new object with the properties asked for.
  lemma NumberNamesNewObject(s: State, m: Message)
    requires Numbered(s) && OnMessage(s, m).Ok? && GivenNumber(s, m).Some?
    ensures var n, s' := GivenNumber(s, m).value, OnMessage(s, m).value;
            match m
            case CreateQuorum(name, _) =>
              !Has(s.quorums, n) && Has(s'.quorums, n) && (name != [] ==> Get(s'.quorums, n).name == name)
            case CreateDatabase(name) =>
              !Has(s.databases, n) && Has(s'.databases, n) && Get(s'.databases, n) == Database(name, [])
            case CreateTable(d, _, name) =>
              !Has(s.tables, n) && Has(s'.tables, n) && Get(s'.tables, n).databaseID == d && Get(s'.tables, n).name == name
            case SplitShardBegin(id, key) =>
              !Has(s.shards, n) && Has(s'.shards, n) && Get(s'.shards, n).parentShardID == id && Get(s'.shards, n).firstKey == key
            case _ => true
  {
    hide AddSorted, AddAll, DatabaseNamed, TableNamed;
  }

  // Some accepted messages stop every controller that learns them: a quorum without nodes passes
  // the check but cannot be read from the log.
  lemma AcceptedButUnreadable()
    ensures exists m :: CompleteMessage(EmptyState, m).Accepted? && MessageFits(m) && ReadMessage(MessageText(m)) == Failed
  {
    var m := CreateQuorum([], []);
    MessageRoundTrip(m);
    assert CompleteMessage(EmptyState, m).Accepted? && MessageFits(m) && ReadMessage(MessageText(m)) == Failed;
  }

  class ConfigQuorumProcessor {
    const config: ConfigState
    var configMessages: seq<Pending>
    var requests: seq<Request>
    var nextValue: bytes               // the value in flight, or empty
    var replies: seq<Reply>            // everything sent so far
    ghost var submitted: seq<Request>  // everything received so far

    ghost predicate Valid()
      reads this
    {
      && ClientMessages(configMessages) == Messages(requests)
      && (nextValue != [] ==> configMessages != [] && nextValue == MessageText(configMessages[0].message))
      && (forall p :: p in configMessages ==> MessageFits(p.message))
      && submitted == Answered(replies) + requests
      && (forall r :: r in replies ==> Paired(r))
    }

    constructor (config: ConfigState)
      ensures Valid() && this.config == config && submitted == []
    {
      this.config := config;
      configMessages, requests, nextValue, replies, submitted := [], [], [], [], [];
    }

    // Answers the oldest request, which waits for the message at the head of the queue.
    method AnswerFirst(response: Response, cause: Message)
      requires Valid() && configMessages != [] && configMessages[0].fromClient && cause == configMessages[0].message
      requires nextValue == []
      modifies this`requests, this`replies, this`configMessages
      ensures Valid() && configMessages == old(configMessages)[1..]
      ensures old(requests) != [] && requests == old(requests)[1..]
      ensures replies == old(replies) + [Reply(old(requests)[0], response, Some(cause))]
    {
      FirstClient(configMessages, requests);
      var request := requests[0];
      AnsweredAppend(replies, Reply(request, response, Some(cause)), requests);
      hide ClientMessages, Messages, Answered, MessageText, MessageFits;
      requests := requests[1..];
      replies := replies + [Reply(request, response, Some(cause))];
      configMessages := configMessages[1..];
    }

    // Appends the first message that the state accepts; those before it fail.
    method TryAppend() returns (ok: bool)
      requires Valid()
      modifies this`requests, this`replies, this`configMessages, this`nextValue, config
      ensures ok <==> old(nextValue) != [] || !Stuck(old(config.View()), old(configMessages))
      ensures ok ==> Valid() && (nextValue != [] || configMessages == []) && TurnedDown(old(replies), replies)
      ensures old(nextValue) != [] ==>
                ok && configMessages == old(configMessages) && requests == old(requests) && replies == old(replies)
                && config.View() == old(config.View())
      ensures ok && old(nextValue) == [] ==> Offered(old(config.View()), old(configMessages), config.View(), configMessages)
    {
      NoneDown(replies);
      hide CompleteMessage, MessageText, MessageFits, Messages, Answered, Paired, TurnedDown;
      if nextValue != [] { return true; }
      ghost var s, all := config.View(), configMessages;
      ghost var done := 0;
      while configMessages != []
        invariant Valid() && nextValue == [] && config.View() == s && TurnedDown(old(replies), replies)
        invariant done <= |all| && configMessages == all[done..]
        invariant Refusals(s, all) == done + Refusals(s, configMessages)
        decreases |configMessages|
      {
        var head := configMessages[0];
        var sound, accepted := config.CompleteMessage(head.message);
        if !sound { return false; }
        if accepted {
          nextValue := MessageText(head.message);
          return true;
        }
        if head.fromClient {
          ghost var answered := replies;
          AnswerFirst(Failure, head.message);
          OneDown(old(replies), answered, replies[|answered|]);
        } else {
          configMessages := configMessages[1..];
        }
        done := done + 1;
      }
      return true;
    }

    // The end of OnClientRequest: the request waits and so does its message.
    method OnClientRequest(request: Request) returns (ok: bool)
      requires Valid() && MessageFits(request.message)
      modifies this, config
      ensures ok <==> old(nextValue) != [] || !Stuck(old(config.View()), old(configMessages) + [Pending(request.message, true)])
      ensures ok ==> Valid() && submitted == old(submitted) + [request] && TurnedDown(old(replies), replies)
      ensures ok ==>
                var l := old(configMessages) + [Pending(request.message, true)];
                if old(nextValue) == [] then Offered(old(config.View()), l, config.View(), configMessages)
                else configMessages == l && config.View() == old(config.View())
      ensures ok && old(nextValue != [] || configMessages == []) ==> nextValue != [] || configMessages == []
    {
      ClientMessagesAppend(configMessages, Pending(request.message, true));
      requests := requests + [request];
      submitted := submitted + [request];
      configMessages := configMessages + [Pending(request.message, true)];
      assert Messages(requests) == Messages(old(requests)) + [request.message];
      ok := TryAppend();
    }

    // A message of the controller's own, as the managers and the shard servers cause them.
    method Enqueue(message: Message) returns (ok: bool)
      requires Valid() && MessageFits(message)
      modifies this, config
      ensures ok <==> old(nextValue) != [] || !Stuck(old(config.View()), old(configMessages) + [Pending(message, false)])
      ensures ok ==> Valid() && submitted == old(submitted) && TurnedDown(old(replies), replies)
      ensures ok && old(nextValue != [] || configMessages == []) ==> nextValue != [] || configMessages == []
      ensures ok ==>
                var l := old(configMessages) + [Pending(message, false)];
                if old(nextValue) == [] then Offered(old(config.View()), l, config.View(), configMessages)
                else configMessages == l && config.View() == old(config.View())
    {
      ClientMessagesAppend(configMessages, Pending(message, false));
      configMessages := configMessages + [Pending(message, false)];
      ok := TryAppend();
    }

    // A message that need not be queued again while one like it waits.
    method EnqueueOnce(message: Message) returns (ok: bool)
      requires Valid() && MessageFits(message)
      modifies this, config
      ensures Covered(old(configMessages), message) ==>
                ok && Valid() && configMessages == old(configMessages) && requests == old(requests) && replies == old(replies)
                && nextValue == old(nextValue) && submitted == old(submitted) && config.View() == old(config.View())
      ensures !Covered(old(configMessages), message) ==>
                (ok <==> old(nextValue) != [] || !Stuck(old(config.View()), old(configMessages) + [Pending(message, false)]))
      ensures ok && !Covered(old(configMessages), message) ==>
                var l := old(configMessages) + [Pending(message, false)];
                if old(nextValue) == [] then Offered(old(config.View()), l, config.View(), configMessages)
                else configMessages == l && config.View() == old(config.View())
      ensures ok ==> Valid() && submitted == old(submitted) && TurnedDown(old(replies), replies)
      ensures ok && old(nextValue != [] || configMessages == []) ==> nextValue != [] || configMessages == []
    {
      hide ClientMessages, Messages, Answered, MessageText, MessageFits, Stuck;
      for k := 0 to |configMessages|
        invariant forall j :: 0 <= j < k ==> !Covers(configMessages[j].message, message)
      {
        if Covers(configMessages[k].message, message) {
          assert configMessages[k] in configMessages;
          return true;
        }
      }
      ok := Enqueue(message);
    }

    // A shard server reports that a shard has arrived: the leader proposes the completion of the
    // migration that it knows of, with the numbers that it has noted itself.
    method OnShardMigrationReported(quorumID: nat, isLeader: bool) returns (ok: bool)
      requires Valid() && MessageFits(ShardMigrationComplete(quorumID, config.migrateSrcShardID, config.migrateDstShardID))
      modifies this, config
      ensures !isLeader || !old(config.isMigrating) ==> ok && configMessages == old(configMessages) && config.View() == old(config.View())
      ensures isLeader && old(config.isMigrating) ==>
                var m := ShardMigrationComplete(quorumID, old(config.migrateSrcShardID), old(config.migrateDstShardID));
                (ok <==> old(nextValue) != [] || !Stuck(old(config.View()), old(configMessages) + [Pending(m, false)]))
                && (ok ==> var l := old(configMessages) + [Pending(m, false)];
                           if old(nextValue) == [] then Offered(old(config.View()), l, config.View(), configMessages)
                           else configMessages == l && config.View() == old(config.View()))
      ensures ok ==> Valid() && submitted == old(submitted) && TurnedDown(old(replies), replies)
    {
      hide ClientMessages, Messages, Answered, MessageText, MessageFits, Stuck;
      if !isLeader || !config.isMigrating { return true; }
      ok := Enqueue(ShardMigrationComplete(quorumID, config.migrateSrcShardID, config.migrateDstShardID));
    }

    method CanMigrate(quorums: seq<Keyed<Quorum>>, shards: seq<Keyed<Shard>>, quorumID: nat, shardID: nat) returns (can: bool)
      ensures can == Controllers.CanMigrate(quorums, shards, quorumID, shardID)
    {
      var i := Find(shards, shardID);
      if i == |shards| { return false; }
      var src := shards[i].obj.quorumID;
      var q := Find(quorums, src);
      if q == |quorums| || !quorums[q].obj.hasPrimary { return false; }
      q := Find(quorums, quorumID);
      if q == |quorums| || !quorums[q].obj.hasPrimary { return false; }
      return src != quorumID;
    }

    method OnShardMigrationBegin(quorumID: nat, shardID: nat, isLeader: bool)
      modifies config
      ensures config.View() == Controllers.OnShardMigrationBegin(old(config.View()), quorumID, shardID, isLeader)
    {
      hide Controllers.CanMigrate;
      var nextShardID := config.nextShardID;
      config.nextShardID := config.nextShardID + 1;
      if !isLeader || config.isMigrating { return; }
      var can := CanMigrate(config.quorums, config.shards, quorumID, shardID);
      if !can { return; }
      config.isMigrating := true;
      config.migrateQuorumID := quorumID;
      config.migrateSrcShardID := shardID;
      config.migrateDstShardID := nextShardID;
    }

    // A leader that completes a migration forgets it, if it is the one that it knows of.
    method FinishMigration(m: Message, isLeader: bool) returns (ok: bool)
      requires m.ShardMigrationComplete?
      modifies config
      ensures Controllers.BeforeMigrationComplete(old(config.View()), m, isLeader) == if ok then Ok(config.View()) else Stopped
    {
      if isLeader && config.isMigrating {
        if config.migrateQuorumID != m.quorumID { return false; }
        if config.migrateSrcShardID != m.srcShardID { return false; }
        if config.migrateDstShardID != m.dstShardID { return false; }
        config.isMigrating := false;
        config.migrateQuorumID := 0;
        config.migrateSrcShardID := 0;
        config.migrateDstShardID := 0;
      }
      return true;
    }

    // The part of OnAppend that changes the state.
    method Apply(paxosID: nat, m: Message, isLeader: bool) returns (ok: bool, number: nat)
      modifies config
      ensures Controllers.OnAppend(old(config.View()), paxosID, m, isLeader) == if ok then Ok(config.View()) else Stopped
      ensures ok && GivenNumber(old(config.View()), m).Some? ==> number == GivenNumber(old(config.View()), m).value
    {
      hide OnMessage, Controllers.OnShardMigrationBegin, Controllers.BeforeMigrationComplete;
      if m.ShardMigrationBegin? {
        OnShardMigrationBegin(m.quorumID, m.shardID, isLeader);
      }
      if m.ShardMigrationComplete? {
        ok := FinishMigration(m, isLeader);
        if !ok { return false, 0; }
      }
      SetPosition(paxosID);
      ok, number := config.OnMessage(m);
      if ok && m.SplitShardComplete? { EndSplitting(); }
    }

    method SetPosition(paxosID: nat)
      modifies config`paxosID
      ensures config.View() == old(config.View()).(paxosID := paxosID)
    {
      config.paxosID := paxosID;
    }

    method EndSplitting()
      modifies config`isSplitting
      ensures config.View() == old(config.View()).(isSplitting := false)
    {
      config.isSplitting := false;
    }

    // The message at the head of the queue was applied.
    method EndOwn(m: Message, number: nat, ghost s: State)
      requires Valid() && configMessages != [] && configMessages[0].message == m && nextValue == []
      requires GivenNumber(s, m).Some? ==> number == GivenNumber(s, m).value
      modifies this`requests, this`replies, this`configMessages
      ensures Valid() && configMessages == old(configMessages)[1..]
      ensures old(configMessages)[0].fromClient ==>
                |replies| == |old(replies)| + 1 && replies == old(replies) + [replies[|old(replies)|]]
                && AnsweredHead(s, m, replies[|old(replies)|])
      ensures !old(configMessages)[0].fromClient ==> replies == old(replies)
    {
      hide MessageText, MessageFits, Messages, Answered;
      if configMessages[0].fromClient {
        AnswerFirst(ResponseTo(m, number), m);
      } else {
        configMessages := configMessages[1..];
      }
    }

    // An entry of the log arrives, the value in flight itself or one of another controller.
    method OnAppend(paxosID: nat, value: bytes, ownAppend: bool, isLeader: bool, databasePaxosID: nat) returns (ok: bool)
      requires Valid() && (ownAppend ==> nextValue != [] && value == nextValue && paxosID > databasePaxosID)
      modifies this, config
      ensures ok <==> ReadMessage(value).Got? &&
                      (paxosID > databasePaxosID ==>
                         var r := Controllers.OnAppend(old(config.View()), paxosID, ReadMessage(value).value, isLeader);
                         r.Ok? && !Stuck(r.value, if ownAppend then old(configMessages)[1..] else old(configMessages)))
      ensures ok ==> Valid() && submitted == old(submitted)
      ensures ok && paxosID > databasePaxosID ==> nextValue != [] || configMessages == []
      ensures ok && paxosID <= databasePaxosID ==>
                config.View() == old(config.View()) && configMessages == old(configMessages) && nextValue == []
                && requests == old(requests) && replies == old(replies)
      ensures ok && paxosID > databasePaxosID ==>
                Offered(Controllers.OnAppend(old(config.View()), paxosID, ReadMessage(value).value, isLeader).value,
                        if ownAppend then old(configMessages)[1..] else old(configMessages), config.View(), configMessages)
      ensures ok && ownAppend ==>
                var head := old(configMessages)[0];
                ReadMessage(value).value == head.message
                && (head.fromClient ==> |replies| > |old(replies)| && AnsweredHead(old(config.View()), head.message, replies[|old(replies)|]))
      ensures ok && ownAppend && old(configMessages)[0].fromClient ==>
                old(replies) <= replies && TurnedDown(replies[..|old(replies)| + 1], replies)
      ensures ok && !(ownAppend && old(configMessages)[0].fromClient) ==> TurnedDown(old(replies), replies)
    {
      hide Controllers.OnAppend, CompleteMessage, MessageText, MessageFits, Messages, Answered, ReadMessage, Stuck, Offered, TurnedDown,
        Paired, AnsweredHead;
      NoneDown(replies);
      nextValue := [];
      var r := Read(value);
      if !r.Got? { return false; }
      if paxosID <= databasePaxosID { return true; }
      var m := r.value;
      if ownAppend { MessageRoundTrip(configMessages[0].message); }
      var number;
      ok, number := Apply(paxosID, m, isLeader);
      if !ok { return; }
      if ownAppend { EndOwn(m, number, old(config.View())); }
      ghost var answered := replies;
      NoneDown(answered);
      if configMessages == [] {
        NothingOffered(config.View());
        NothingStuck(config.View());
      } else {
        ok := TryAppend();
      }
      if ok && ownAppend && old(configMessages)[0].fromClient {
        HeadAnswered(old(replies), answered[|old(replies)|], replies);
      }
    }

    // Every client that still waits is told that there is no service.
    method DropRequests()
      requires submitted == Answered(replies) + requests && forall r :: r in replies ==> Paired(r)
      modifies this`requests, this`replies
      ensures requests == [] && Answered(replies) == submitted
      ensures forall r :: r in replies ==> Paired(r)
      ensures old(replies) <= replies && forall i :: |old(replies)| <= i < |replies| ==> replies[i].response == NoService
    {
      ghost var count := |replies|;
      while requests != []
        invariant submitted == Answered(replies) + requests
        invariant forall r :: r in replies ==> Paired(r)
        invariant old(replies) <= replies && forall i :: count <= i < |replies| ==> replies[i].response == NoService
        decreases |requests|
      {
        AnsweredAppend(replies, Reply(requests[0], NoService, None), requests);
        replies := replies + [Reply(requests[0], NoService, None)];
        requests := requests[1..];
      }
      assert Answered(replies) + [] == Answered(replies);
    }

    // The controller is no longer the master: messages are forgotten and clients turned away.
    method OnLeaseTimeout()
      requires Valid()
      modifies this, config
      ensures Valid() && configMessages == [] && requests == [] && nextValue == [] && submitted == old(submitted)
      ensures Answered(replies) == submitted
      ensures old(replies) <= replies && forall i :: |old(replies)| <= i < |replies| ==> replies[i].response == NoService
      ensures config.View() == old(config.View()).(hasMaster := false, masterID := 0, paxosID := 0)
    {
      hide Answered, MessageText, MessageFits, Paired;
      nextValue := [];
      configMessages := [];
      DropRequests();
      ForgetMaster();
    }

    method ForgetMaster()
      modifies config`hasMaster, config`masterID, config`paxosID
      ensures config.View() == old(config.View()).(hasMaster := false, masterID := 0, paxosID := 0)
    {
      config.hasMaster, config.masterID, config.paxosID := false, 0, 0;
    }
  }
}
