/** The gateway's socket index and the offline queue of MessageQueueService: who is online, and what a user
    who was offline receives on the next connection.

    A connection, a disconnection, a send and an acknowledgement are one atomic step each. */
module OfflineDelivery {

  type UserId = string
  type SocketId = string

  datatype Message = Message(id: string, conversationId: string, senderId: string, content: string)

  /** `queues` holds the Redis lists `offline_queue:<user>`, head first, so the newest message comes first;
      `batches` and `confirmed` record what was emitted: one batch per delivery, and the confirmations. */
  datatype State = State(
    socketToUser: map<SocketId, UserId>,
    connectedUsers: map<UserId, set<SocketId>>,
    queues: map<UserId, seq<Message>>,
    batches: map<UserId, seq<seq<Message>>>,
    confirmed: map<UserId, seq<Message>>)

  const Empty := State(map[], map[], map[], map[], map[])

  function Get<T>(m: map<UserId, seq<T>>, u: UserId): seq<T> {
    if u in m then m[u] else []
  }

  predicate IsUserOnline(connectedUsers: map<UserId, set<SocketId>>, u: UserId) {
    u in connectedUsers && |connectedUsers[u]| > 0
  }

  // ---------------------------------------------------------------- operations

  /** The index part of handleConnection. */
  function Index(s: State, socket: SocketId, u: UserId): State {
    var sockets := (if u in s.connectedUsers then s.connectedUsers[u] else {}) + {socket};
    s.(socketToUser := s.socketToUser[socket := u], connectedUsers := s.connectedUsers[u := sockets])
  }

  /** deliverQueuedMessages, the confirmations, and clearDeliveredMessages: an empty queue emits no batch. */
  function Deliver(s: State, u: UserId): State {
    var q := Get(s.queues, u);
    s.(queues := s.queues - {u},
    batches := if q == [] then s.batches else s.batches[u := Get(s.batches, u) + [q]],
    confirmed := if q == [] then s.confirmed else s.confirmed[u := Get(s.confirmed, u) + q])
  }

  function Connect(s: State, socket: SocketId, u: UserId): State {
    Deliver(Index(s, socket, u), u)
  }

  function Disconnect(s: State, socket: SocketId): State {
    if socket !in s.socketToUser then s
    else
      var u := s.socketToUser[socket];
      var rest := (if u in s.connectedUsers then s.connectedUsers[u] else {}) - {socket};
      s.(socketToUser := s.socketToUser - {socket},
      connectedUsers := if rest == {} then s.connectedUsers - {u} else s.connectedUsers[u := rest])
  }

  function Push(queues: map<UserId, seq<Message>>, u: UserId, m: Message): map<UserId, seq<Message>> {
    queues[u := [m] + Get(queues, u)]
  }

  /** One participant of queueMessageForOfflineParticipants. */
  function QueueOne(s: State, p: UserId, sender: UserId, m: Message): State {
    if p == sender || IsUserOnline(s.connectedUsers, p) then s else s.(queues := Push(s.queues, p, m))
  }

  /** queueMessageForOfflineParticipants. */
  function QueueFor(s: State, participants: seq<UserId>, sender: UserId, m: Message): State
    decreases |participants|
  {
    if participants == [] then s else QueueFor(QueueOne(s, participants[0], sender, m), participants[1..], sender, m)
  }

  /** The acknowledgement callback of a delivered batch deletes the queue key. */
  function Ack(s: State, u: UserId): State {
    s.(queues := s.queues - {u})
  }

  // ---------------------------------------------------------------- runs

  datatype Event =
    | ConnectE(socket: SocketId, user: UserId)
    | DisconnectE(socket: SocketId)
    | SendE(participants: seq<UserId>, sender: UserId, message: Message)
    | AckE(user: UserId)

  /** Socket ids are fresh, and an acknowledgement is taken while its user still has a socket. */
  predicate Enabled(s: State, e: Event) {
    match e
    case ConnectE(socket, _) => socket !in s.socketToUser
    case AckE(u) => u in s.connectedUsers
    case _ => true
  }

  function Step(s: State, e: Event): State {
    match e
    case ConnectE(socket, u) => Connect(s, socket, u)
    case DisconnectE(socket) => Disconnect(s, socket)
    case SendE(participants, sender, m) => QueueFor(s, participants, sender, m)
    case AckE(u) => Ack(s, u)
  }

  ghost predicate Run(s: State, events: seq<Event>, t: State)
    decreases |events|
  {
    if events == [] then s == t
    else Enabled(s, events[0]) && Run(Step(s, events[0]), events[1..], t)
  }

  // ---------------------------------------------------------------- the reference: read off the events alone

  function Copy(p: UserId, sender: UserId, u: UserId, m: Message): seq<Message> {
    if p == u && u != sender then [m] else []
  }

  /** One copy of m for each time u is listed, unless u is the sender. */
  function Copies(participants: seq<UserId>, sender: UserId, u: UserId, m: Message): seq<Message> {
    if participants == [] then [] else Copy(participants[0], sender, u, m) + Copies(participants[1..], sender, u, m)
  }

  /** Who holds which socket after an event. */
  function NextSockets(sockets: map<SocketId, UserId>, e: Event): map<SocketId, UserId> {
    match e
    case ConnectE(socket, v) => sockets[socket := v]
    case DisconnectE(socket) => sockets - {socket}
    case _ => sockets
  }

  function MissedBy(sockets: map<SocketId, UserId>, e: Event, u: UserId): seq<Message> {
    if e.SendE? && u !in sockets.Values then Copies(e.participants, e.sender, u, e.message) else []
  }

  /** What was sent to u while u had no socket, in send order. */
  function Missed(sockets: map<SocketId, UserId>, events: seq<Event>, u: UserId): seq<Message>
    decreases |events|
  {
    if events == [] then []
    else MissedBy(sockets, events[0], u) + Missed(NextSockets(sockets, events[0]), events[1..], u)
  }

  function Reverse(q: seq<Message>): seq<Message> {
    if q == [] then [] else Reverse(q[1..]) + [q[0]]
  }

  function Flatten(batches: seq<seq<Message>>): seq<Message> {
    if batches == [] then [] else Flatten(batches[..|batches|-1]) + batches[|batches|-1]
  }

  function ReverseEach(batches: seq<seq<Message>>): seq<seq<Message>> {
    if batches == [] then [] else ReverseEach(batches[..|batches|-1]) + [Reverse(batches[|batches|-1])]
  }

  /** Everything handed to u so far, oldest first, then what still waits, oldest first. */
  function Received(s: State, u: UserId): seq<Message> {
    Flatten(ReverseEach(Get(s.batches, u))) + Reverse(Get(s.queues, u))
  }

  // ---------------------------------------------------------------- invariants

  /** connectedUsers is the inverse of socketToUser and has no empty sets. */
  ghost predicate IndexInverse(s: State) {
    && (forall k :: k in s.socketToUser ==>
          s.socketToUser[k] in s.connectedUsers && k in s.connectedUsers[s.socketToUser[k]])
    && (forall u :: u in s.connectedUsers ==> s.connectedUsers[u] != {})
    && (forall u, k :: u in s.connectedUsers && k in s.connectedUsers[u] ==>
          k in s.socketToUser && s.socketToUser[k] == u)
  }

  ghost predicate OnlineQueuesEmpty(s: State) {
    forall u :: u in s.connectedUsers ==> Get(s.queues, u) == []
  }

  ghost predicate ConfirmedOnce(s: State) {
    forall u :: Get(s.confirmed, u) == Flatten(Get(s.batches, u))
  }

  ghost predicate Good(s: State) {
    IndexInverse(s) && OnlineQueuesEmpty(s) && ConfirmedOnce(s)
  }

  // ---------------------------------------------------------------- every step keeps them

  lemma {:induction false} QueueForFrame(s: State, participants: seq<UserId>, sender: UserId, m: Message)
    ensures var t := QueueFor(s, participants, sender, m);
            t.socketToUser == s.socketToUser && t.connectedUsers == s.connectedUsers
            && t.batches == s.batches && t.confirmed == s.confirmed
    decreases |participants|
  {
    if participants != [] { QueueForFrame(QueueOne(s, participants[0], sender, m), participants[1..], sender, m); }
  }

  lemma {:induction false} QueueForOnline(s: State, participants: seq<UserId>, sender: UserId, m: Message, u: UserId)
    requires IsUserOnline(s.connectedUsers, u)
    ensures Get(QueueFor(s, participants, sender, m).queues, u) == Get(s.queues, u)
    decreases |participants|
  {
    if participants != [] { QueueForOnline(QueueOne(s, participants[0], sender, m), participants[1..], sender, m, u); }
  }

  lemma {:induction false} QueueForOffline(s: State, participants: seq<UserId>, sender: UserId, m: Message, u: UserId)
    requires !IsUserOnline(s.connectedUsers, u)
    ensures Get(QueueFor(s, participants, sender, m).queues, u) == Copies(participants, sender, u, m) + Get(s.queues, u)
    decreases |participants|
  {
    var q := Get(s.queues, u);
    if participants == [] {
      assert [] + q == q;
    } else {
      var p, rest := participants[0], Copies(participants[1..], sender, u, m);
      var one := Copy(p, sender, u, m);
      QueueForOffline(QueueOne(s, p, sender, m), participants[1..], sender, m, u);
      assert Get(QueueOne(s, p, sender, m).queues, u) == one + q;
      CopyCommutes(p, participants[1..], sender, u, m);
      Associative(rest, one, q);
    }
  }

  lemma QueueForUser(s: State, participants: seq<UserId>, sender: UserId, m: Message, u: UserId)
    ensures Get(QueueFor(s, participants, sender, m).queues, u)
            == (if IsUserOnline(s.connectedUsers, u) then [] else Copies(participants, sender, u, m)) + Get(s.queues, u)
  {
    var q := Get(s.queues, u);
    assert [] + q == q;
    if IsUserOnline(s.connectedUsers, u) {
      QueueForOnline(s, participants, sender, m, u);
    } else {
      QueueForOffline(s, participants, sender, m, u);
    }
  }

  /** All copies are equal, so adding one at either end is the same. */
  lemma {:induction false} CopyCommutes(p: UserId, participants: seq<UserId>, sender: UserId, u: UserId, m: Message)
    ensures var one, rest := Copy(p, sender, u, m), Copies(participants, sender, u, m); one + rest == rest + one
  {
    if participants != [] {
      var one, first, rest :=
        Copy(p, sender, u, m), Copy(participants[0], sender, u, m), Copies(participants[1..], sender, u, m);
      CopyCommutes(p, participants[1..], sender, u, m);
      assert one + first == first + one;
      Associative(one, first, rest);
      Associative(first, one, rest);
      Associative(first, rest, one);
    } else {
      assert Copy(p, sender, u, m) + [] == [] + Copy(p, sender, u, m);
    }
  }

  lemma {:induction false} CopiesUniform(participants: seq<UserId>, sender: UserId, u: UserId, m: Message)
    ensures Reverse(Copies(participants, sender, u, m)) == Copies(participants, sender, u, m)
  {
    if participants != [] {
      var first, rest := Copy(participants[0], sender, u, m), Copies(participants[1..], sender, u, m);
      CopiesUniform(participants[1..], sender, u, m);
      ReverseConcat(first, rest);
      assert Reverse(first) == first by { if first != [] { assert first[1..] == []; } }
      CopyCommutes(participants[0], participants[1..], sender, u, m);
    }
  }

  lemma OnlineIff(s: State, u: UserId)
    requires IndexInverse(s)
    ensures IsUserOnline(s.connectedUsers, u) <==> u in s.socketToUser.Values
    ensures IsUserOnline(s.connectedUsers, u) <==> u in s.connectedUsers
  {
    if u in s.connectedUsers {
      var k :| k in s.connectedUsers[u];
      assert k in s.socketToUser && s.socketToUser[k] == u;
    }
  }

  lemma {:induction false} ReverseConcat(a: seq<Message>, b: seq<Message>)
    ensures Reverse(a + b) == Reverse(b) + Reverse(a)
  {
    if a == [] {
      assert a + b == b;
    } else {
      assert (a + b)[1..] == a[1..] + b;
      ReverseConcat(a[1..], b);
    }
  }

  lemma IndexGood(s: State, socket: SocketId, u: UserId)
    requires IndexInverse(s) && socket !in s.socketToUser
    ensures IndexInverse(Index(s, socket, u))
    ensures Index(s, socket, u).connectedUsers.Keys == s.connectedUsers.Keys + {u}
  {}

  lemma DeliverReceived(s: State, u: UserId, v: UserId)
    ensures Received(Deliver(s, u), v) == Received(s, v)
  {}

  lemma DeliverConfirmed(s: State, u: UserId, v: UserId)
    requires Get(s.confirmed, v) == Flatten(Get(s.batches, v))
    ensures Get(Deliver(s, u).confirmed, v) == Flatten(Get(Deliver(s, u).batches, v))
  {}

  lemma ConnectGood(s: State, socket: SocketId, u: UserId)
    requires Good(s) && socket !in s.socketToUser
    ensures Good(Connect(s, socket, u))
    ensures forall v :: Received(Connect(s, socket, u), v) == Received(s, v)
  {
    var i := Index(s, socket, u);
    var t := Connect(s, socket, u);
    IndexGood(s, socket, u);
    assert IndexInverse(t) by { assert t.socketToUser == i.socketToUser && t.connectedUsers == i.connectedUsers; }
    forall v ensures Received(t, v) == Received(s, v) {
      DeliverReceived(i, u, v);
      assert Received(i, v) == Received(s, v);
    }
    forall v ensures Get(t.confirmed, v) == Flatten(Get(t.batches, v)) {
      assert Get(s.confirmed, v) == Flatten(Get(s.batches, v));
      DeliverConfirmed(i, u, v);
    }
  }

  lemma DisconnectGood(s: State, socket: SocketId)
    requires Good(s)
    ensures Good(Disconnect(s, socket))
    ensures Disconnect(s, socket).connectedUsers.Keys <= s.connectedUsers.Keys
  {}

  lemma SendReceived(s: State, participants: seq<UserId>, sender: UserId, m: Message, u: UserId)
    requires IndexInverse(s)
    ensures Received(QueueFor(s, participants, sender, m), u)
            == Received(s, u) + MissedBy(s.socketToUser, SendE(participants, sender, m), u)
  {
    QueueForFrame(s, participants, sender, m);
    QueueForUser(s, participants, sender, m, u);
    OnlineIff(s, u);
    var c := MissedBy(s.socketToUser, SendE(participants, sender, m), u);
    CopiesUniform(participants, sender, u, m);
    ReverseConcat(c, Get(s.queues, u));
    Associative(Flatten(ReverseEach(Get(s.batches, u))), Reverse(Get(s.queues, u)), c);
  }

  lemma SendGood(s: State, participants: seq<UserId>, sender: UserId, m: Message)
    requires Good(s)
    ensures Good(QueueFor(s, participants, sender, m))
  {
    var t := QueueFor(s, participants, sender, m);
    QueueForFrame(s, participants, sender, m);
    forall u | u in t.connectedUsers ensures Get(t.queues, u) == [] {
      OnlineIff(s, u);
      QueueForUser(s, participants, sender, m, u);
    }
    forall u ensures Get(t.confirmed, u) == Flatten(Get(t.batches, u)) {
      assert Get(s.confirmed, u) == Flatten(Get(s.batches, u));
    }
  }

  /** The exact condition for an acknowledgement to lose nothing: the user's queue is empty when it is taken. */
  lemma AckKeepsReceivedIff(s: State, u: UserId)
    ensures Received(Ack(s, u), u) == Received(s, u) <==> Get(s.queues, u) == []
  {}

  lemma AckGood(s: State, u: UserId)
    requires Good(s) && u in s.connectedUsers
    ensures Good(Ack(s, u)) && forall v :: Received(Ack(s, u), v) == Received(s, v)
  {}

  // ---------------------------------------------------------------- main results

  lemma Associative(a: seq<Message>, b: seq<Message>, c: seq<Message>)
    ensures a + (b + c) == (a + b) + c
  {}

  lemma StepGood(s: State, e: Event, u: UserId)
    requires Good(s) && Enabled(s, e)
    ensures Good(Step(s, e)) && Step(s, e).socketToUser == NextSockets(s.socketToUser, e)
    ensures Received(Step(s, e), u) == Received(s, u) + MissedBy(s.socketToUser, e, u)
  {
    match e
    case ConnectE(socket, v) => ConnectGood(s, socket, v);
    case DisconnectE(socket) =>
      DisconnectGood(s, socket);
      assert socket !in s.socketToUser ==> s.socketToUser - {socket} == s.socketToUser;
    case SendE(participants, sender, m) =>
      SendGood(s, participants, sender, m);
      SendReceived(s, participants, sender, m, u);
      QueueForFrame(s, participants, sender, m);
    case AckE(v) => AckGood(s, v);
  }

  /** In every run the index is the inverse of the socket map, online users have empty queues, every batched
      message is confirmed once, and each user's reversed batches in order, then the reversed queue, are the
      messages sent while that user had no socket, in send order. */
  lemma {:induction false} ExactlyOnce(s: State, events: seq<Event>, t: State, u: UserId)
    requires Good(s) && Run(s, events, t)
    ensures Good(t)
    ensures Received(t, u) == Received(s, u) + Missed(s.socketToUser, events, u)
    decreases |events|
  {
    if events == [] {
      assert Received(s, u) + [] == Received(s, u);
    } else {
      var s1 := Step(s, events[0]);
      StepGood(s, events[0], u);
      ExactlyOnce(s1, events[1..], t, u);
      Associative(Received(s, u), MissedBy(s.socketToUser, events[0], u), Missed(s1.socketToUser, events[1..], u));
    }
  }

  lemma ReceivedOnline(t: State, u: UserId)
    requires Get(t.queues, u) == []
    ensures Received(t, u) == Flatten(ReverseEach(Get(t.batches, u)))
  {
    var handed := Flatten(ReverseEach(Get(t.batches, u)));
    assert handed + [] == handed;
  }

  lemma ReceivedInFull(events: seq<Event>, t: State, u: UserId)
    requires Run(Empty, events, t)
    ensures Good(t) && Received(t, u) == Missed(map[], events, u)
  {
    ExactlyOnce(Empty, events, t, u);
    ReceivedOnline(Empty, u);
    assert [] + Missed(map[], events, u) == Missed(map[], events, u);
  }

  /** From the start, a user who is online at the end has been handed exactly the missed messages. */
  lemma OnlineUserHasAll(events: seq<Event>, t: State, u: UserId)
    requires Run(Empty, events, t) && u in t.connectedUsers
    ensures Flatten(ReverseEach(Get(t.batches, u))) == Missed(map[], events, u)
    ensures Get(t.confirmed, u) == Flatten(Get(t.batches, u))
  {
    ReceivedInFull(events, t, u);
    ReceivedOnline(t, u);
  }

  // ---------------------------------------------------------------- the order within a batch

  /** What was sent to u since u last connected, while u had no socket, in send order. */
  function SinceConnect(sockets: map<SocketId, UserId>, events: seq<Event>, u: UserId, sofar: seq<Message>): seq<Message>
    decreases |events|
  {
    if events == [] then sofar
    else
      var e := events[0];
      SinceConnect(NextSockets(sockets, e), events[1..], u,
                   if e.ConnectE? && e.user == u then [] else sofar + MissedBy(sockets, e, u))
  }

  lemma SendQueue(s: State, participants: seq<UserId>, sender: UserId, m: Message, u: UserId)
    requires IndexInverse(s)
    ensures Reverse(Get(QueueFor(s, participants, sender, m).queues, u))
            == Reverse(Get(s.queues, u)) + MissedBy(s.socketToUser, SendE(participants, sender, m), u)
  {
    QueueForUser(s, participants, sender, m, u);
    OnlineIff(s, u);
    var c := MissedBy(s.socketToUser, SendE(participants, sender, m), u);
    CopiesUniform(participants, sender, u, m);
    ReverseConcat(c, Get(s.queues, u));
  }

  lemma StepQueue(s: State, e: Event, u: UserId)
    requires Good(s) && Enabled(s, e)
    ensures Reverse(Get(Step(s, e).queues, u))
            == if e.ConnectE? && e.user == u then [] else Reverse(Get(s.queues, u)) + MissedBy(s.socketToUser, e, u)
  {
    var q := Reverse(Get(s.queues, u));
    assert q + [] == q;
    if e.SendE? { SendQueue(s, e.participants, e.sender, e.message, u); }
  }

  lemma {:induction false} QueueSinceConnect(s: State, events: seq<Event>, t: State, u: UserId)
    requires Good(s) && Run(s, events, t)
    ensures Reverse(Get(t.queues, u)) == SinceConnect(s.socketToUser, events, u, Reverse(Get(s.queues, u)))
    decreases |events|
  {
    if events != [] {
      StepQueue(s, events[0], u);
      StepGood(s, events[0], u);
      QueueSinceConnect(Step(s, events[0]), events[1..], t, u);
    }
  }

  lemma {:induction false} ReverseTwice(q: seq<Message>)
    ensures Reverse(Reverse(q)) == q
  {
    if q != [] {
      ReverseConcat(Reverse(q[1..]), [q[0]]);
      ReverseTwice(q[1..]);
      assert Reverse([q[0]]) == [q[0]] by { assert [q[0]][1..] == []; }
    }
  }

  lemma {:induction false} ReverseAt(q: seq<Message>, i: nat)
    requires i < |q|
    ensures |Reverse(q)| == |q| && Reverse(q)[i] == q[|q| - 1 - i]
  {
    if |q| > 1 {
      ReverseAt(q[1..], if i < |q| - 1 then i else 0);
    }
  }

  predicate Palindrome(q: seq<Message>) {
    forall i :: 0 <= i < |q| ==> q[i] == q[|q| - 1 - i]
  }

  predicate AllDifferent(q: seq<Message>) {
    forall i, j :: 0 <= i < j < |q| ==> q[i] != q[j]
  }

  lemma InOrderIff(q: seq<Message>)
    ensures Reverse(q) == q <==> Palindrome(q)
    ensures AllDifferent(q) ==> (Palindrome(q) <==> |q| <= 1)
  {
    forall i | 0 <= i < |q| ensures |Reverse(q)| == |q| && Reverse(q)[i] == q[|q| - 1 - i] { ReverseAt(q, i); }
    if |q| > 1 && Palindrome(q) { assert q[0] == q[|q| - 1]; }
    if Palindrome(q) {
      assert |Reverse(q)| == |q| by { if q != [] { ReverseAt(q, 0); } }
      assert forall i :: 0 <= i < |q| ==> Reverse(q)[i] == q[i];
    }
  }

  /** At every connection of a run the new batch is what the user missed since the last one, newest first. So it is
      in send order iff it reads the same backwards; for different messages, iff there is only one. */
  lemma BatchInSendOrderIff(events: seq<Event>, s: State, socket: SocketId, u: UserId)
    requires Run(Empty, events, s)
    ensures var missed := SinceConnect(map[], events, u, []);
            && Connect(s, socket, u).batches
               == (if missed == [] then s.batches else s.batches[u := Get(s.batches, u) + [Reverse(missed)]])
            && (Reverse(missed) == missed <==> Palindrome(missed))
            && (AllDifferent(missed) ==> (Reverse(missed) == missed <==> |missed| <= 1))
  {
    var missed := SinceConnect(map[], events, u, []);
    QueueSinceConnect(Empty, events, s, u);
    ReverseTwice(Get(s.queues, u));
    assert Reverse(missed) == Get(s.queues, u);
    InOrderIff(missed);
    ReverseTwice(missed);
  }

  lemma SendToOne(s: State, u: UserId, sender: UserId, m: Message)
    requires u != sender && !IsUserOnline(s.connectedUsers, u)
    ensures QueueFor(s, [u], sender, m) == s.(queues := Push(s.queues, u, m))
  {
    assert [u][1..] == [];
  }

  /** Two messages missed in a row are handed over in the wrong order. */
  lemma TwoMissedComeReversed(u: UserId, sender: UserId, m: Message, n: Message, socket: SocketId)
    requires u != sender
    ensures var s := QueueFor(QueueFor(Empty, [u], sender, m), [u], sender, n);
            Run(Empty, [SendE([u], sender, m), SendE([u], sender, n)], s)
            && Get(Connect(s, socket, u).batches, u) == [[n, m]]
  {
    SendToOne(Empty, u, sender, m);
    var s1 := QueueFor(Empty, [u], sender, m);
    SendToOne(s1, u, sender, n);
    var s2 := QueueFor(s1, [u], sender, n);
    assert Get(s2.queues, u) == [n, m];
    var events := [SendE([u], sender, m), SendE([u], sender, n)];
    assert events[1..] == [events[1]] && events[1..][1..] == [];
    assert Run(s2, [], s2) && Run(s1, events[1..], s2);
    assert [] + [[n, m]] == [[n, m]];
  }

  /** A late acknowledgement loses mail, in the run: u misses m, connects and is sent the batch [m], disconnects, and
      misses n. The acknowledgement of that batch, taken only now, deletes n, which was never handed over. */
  lemma LateAckLosesMessage(u: UserId, sender: UserId, m: Message, n: Message, socket: SocketId)
    requires u != sender
    ensures var events := [SendE([u], sender, m), ConnectE(socket, u), DisconnectE(socket), SendE([u], sender, n)];
            exists t :: Run(Empty, events, t)
                        && Get(t.batches, u) == [[m]] && Get(t.queues, u) == [n]
                        && Received(t, u) == [m, n] && Received(Ack(t, u), u) == [m]
  {
    var events := [SendE([u], sender, m), ConnectE(socket, u), DisconnectE(socket), SendE([u], sender, n)];
    SendToOne(Empty, u, sender, m);
    var s1 := Step(Empty, events[0]);
    assert Get(s1.queues, u) == [m];
    var s2 := Step(s1, events[1]);
    assert {} + {socket} == {socket} && [] + [[m]] == [[m]];
    assert Get(s2.batches, u) == [[m]] && Get(s2.queues, u) == [] && s2.connectedUsers == map[u := {socket}];
    var s3 := Step(s2, events[2]);
    assert s3.connectedUsers == map[] && s3.batches == s2.batches && s3.queues == s2.queues;
    SendToOne(s3, u, sender, n);
    var t := Step(s3, events[3]);
    RunOfFour(events, t);
    ReceivedPair(t, u, m, n);
  }

  lemma RunOfFour(e: seq<Event>, t: State)
    requires |e| == 4 && Enabled(Empty, e[0]) && Enabled(Step(Empty, e[0]), e[1])
    requires Enabled(Step(Step(Empty, e[0]), e[1]), e[2])
    requires Enabled(Step(Step(Step(Empty, e[0]), e[1]), e[2]), e[3])
    requires t == Step(Step(Step(Step(Empty, e[0]), e[1]), e[2]), e[3])
    ensures Run(Empty, e, t)
  {
    var s3 := Step(Step(Step(Empty, e[0]), e[1]), e[2]);
    assert e[1..][1..] == e[2..] && e[2..][1..] == e[3..] && e[3..][1..] == [];
    assert Run(t, [], t);
    assert Run(s3, e[3..], t);
    assert Run(Step(Step(Empty, e[0]), e[1]), e[2..], t);
    assert Run(Step(Empty, e[0]), e[1..], t);
  }

  lemma ReceivedPair(t: State, u: UserId, m: Message, n: Message)
    requires Get(t.batches, u) == [[m]] && Get(t.queues, u) == [n]
    ensures Received(t, u) == [m, n] && Received(Ack(t, u), u) == [m]
  {
    assert [[m]][..0] == [] && [m][1..] == [] && [n][1..] == [];
    assert Reverse([m]) == [m] && Reverse([n]) == [n];
    assert ReverseEach([[m]]) == [[m]];
    assert Flatten([[m]]) == [m];
    assert [m] + [] == [m] && Get(Ack(t, u).queues, u) == [];
  }

  // ---------------------------------------------------------------- the gateway, updating its maps in place

  class Gateway {
    var socketToUser: map<SocketId, UserId>
    var connectedUsers: map<UserId, set<SocketId>>
    var queues: map<UserId, seq<Message>>
    var batches: map<UserId, seq<seq<Message>>>
    var confirmed: map<UserId, seq<Message>>

    constructor ()
      ensures Maps() == Empty && Good(Maps())
    {
      socketToUser, connectedUsers, queues, batches, confirmed := map[], map[], map[], map[], map[];
    }

    function Maps(): State
      reads this
    {
      State(socketToUser, connectedUsers, queues, batches, confirmed)
    }

    method HandleConnection(socket: SocketId, u: UserId)
      modifies this
      ensures Maps() == Connect(old(Maps()), socket, u)
    {
      socketToUser := socketToUser[socket := u];
      if u !in connectedUsers { connectedUsers := connectedUsers[u := {}]; }
      connectedUsers := connectedUsers[u := connectedUsers[u] + {socket}];
      DeliverQueuedMessages(u);
      SendDeliveryConfirmations(u);
    }

    method DeliverQueuedMessages(u: UserId)
      modifies this`batches
      ensures batches == if Get(queues, u) == [] then old(batches)
                         else old(batches)[u := Get(old(batches), u) + [Get(queues, u)]]
    {
      var messages := Get(queues, u);
      if |messages| == 0 { return; }
      batches := batches[u := Get(batches, u) + [messages]];
    }

    /** One confirmation per queued message, in list order, then the queue is cleared. */
    method SendDeliveryConfirmations(u: UserId)
      modifies this`confirmed, this`queues
      ensures confirmed == if Get(old(queues), u) == [] then old(confirmed)
                           else old(confirmed)[u := Get(old(confirmed), u) + Get(old(queues), u)]
      ensures queues == old(queues) - {u}
    {
      var messages := Get(queues, u);
      for i := 0 to |messages|
        invariant queues == old(queues)
        invariant confirmed == if i == 0 then old(confirmed) else old(confirmed)[u := Get(old(confirmed), u) + messages[..i]]
      {
        assert messages[..i+1] == messages[..i] + [messages[i]];
        assert Get(confirmed, u) + [messages[i]] == Get(old(confirmed), u) + messages[..i+1];
        confirmed := confirmed[u := Get(confirmed, u) + [messages[i]]];
      }
      assert messages[..|messages|] == messages;
      queues := queues - {u};
    }

    method HandleDisconnect(socket: SocketId)
      modifies this
      ensures Maps() == Disconnect(old(Maps()), socket)
    {
      if socket in socketToUser {
        var u := socketToUser[socket];
        if u in connectedUsers {
          connectedUsers := connectedUsers[u := connectedUsers[u] - {socket}];
          if connectedUsers[u] == {} { connectedUsers := connectedUsers - {u}; }
        }
      }
      socketToUser := socketToUser - {socket};
      assert socket !in old(socketToUser) ==> socketToUser == old(socketToUser);
    }

    method QueueForOfflineParticipants(participants: seq<UserId>, sender: UserId, m: Message)
      modifies this`queues
      ensures Maps() == QueueFor(old(Maps()), participants, sender, m)
    {
      assert participants[0..] == participants;
      for i := 0 to |participants|
        invariant QueueFor(Maps(), participants[i..], sender, m) == QueueFor(old(Maps()), participants, sender, m)
      {
        assert participants[i..][1..] == participants[i+1..];
        var p := participants[i];
        if p != sender && !IsUserOnline(connectedUsers, p) {
          queues := Push(queues, p, m);
        }
      }
    }

    method OnAck(u: UserId)
      modifies this`queues
      ensures Maps() == Ack(old(Maps()), u)
    {
      queues := queues - {u};
    }
  }
}
