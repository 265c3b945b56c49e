/** Two scenarios of the room hub of rooms.go, driven through the `Rooms.Room`
    event handlers; their outcome follows from the handlers' contracts and
    the lemmas of `RoomProperties`. Every outbox here has capacity 2. */
module RoomScenarios {
  import opened RoomModel
  import opened Rooms
  import RoomProperties

  /** A fresh open outbox of capacity 2 already holding `backlog`, as left by
      a client that has not drained its channel. */
  method NewOutbox(backlog: seq<Message>) returns (q: Outbox)
    requires |backlog| <= 2
    ensures fresh(q) && q.State() == Queue(backlog, 2, false)
  {
    q := new Outbox(2);
    var sent: bool;
    if |backlog| > 0 {
      sent := q.TrySend(backlog[0]);
    }
    if |backlog| > 1 {
      sent := q.TrySend(backlog[1]);
      assert backlog == [backlog[0], backlog[1]];
    }
  }

  /** A new client with outbox `backlog` registers with `room`. */
  method Join(room: Room, id: string, backlog: seq<Message>) returns (c: Client)
    requires room.Valid() && |backlog| <= 2
    modifies room
    ensures fresh(c) && fresh(c.send) && c.id == id
    ensures c.send.State() == Queue(backlog, 2, false)
    ensures room.Valid()
    ensures room.clients == old(room.clients) + {c} && room.known == old(room.known) + {c}
  {
    var q := NewOutbox(backlog);
    c := new Client(id, q);
    room.Register(c);
  }

  /** Clients A, B and C, with empty outboxes, join a new room. */
  method ThreeJoin() returns (room: Room, a: Client, b: Client, c: Client)
    ensures fresh(room) && fresh(a.send) && fresh(b.send) && fresh(c.send) && room.Valid()
    ensures room.clients == room.known == {a, b, c} && |{a, b, c}| == 3
    ensures a.send.State() == b.send.State() == c.send.State() == Queue([], 2, false)
  {
    room := new Room();
    a := Join(room, "A", []);
    b := Join(room, "B", []);
    c := Join(room, "C", []);
  }

  /** Clients A, B and C join a new room; A says "hi". Every member, the
      sender included, receives exactly that message and all three stay. */
  method EveryoneReceives() returns (members: set<Client>, a: Client, b: Client, c: Client, got: seq<seq<Message>>)
    ensures members == {a, b, c} && |{a, b, c}| == 3
    ensures got == [[Message("hi", "message", "A")], [Message("hi", "message", "A")], [Message("hi", "message", "A")]]
  {
    var room;
    room, a, b, c := ThreeJoin();
    ghost var h := room.Model();
    assert h.members == {a, b, c};
    assert h.outboxes[a] == h.outboxes[b] == h.outboxes[c] == Queue([], 2, false);
    var hi := Message("hi", "message", "A");
    assert room.MemberOutboxes() == {a.send, b.send, c.send};
    room.Broadcast(hi);
    ghost var r := room.Model();
    RoomProperties.BroadcastDelivers(h, hi, a);
    RoomProperties.BroadcastDelivers(h, hi, b);
    RoomProperties.BroadcastDelivers(h, hi, c);
    assert r.outboxes[a] == a.send.State() && r.outboxes[b] == b.send.State() && r.outboxes[c] == c.send.State();
    assert a.send.items == b.send.items == c.send.items == [hi];
    members := room.clients;
    got := [a.send.items, b.send.items, c.send.items];
  }

  /** A and B join; B's outbox is full and not drained. One more broadcast
      evicts B and closes its outbox, while A receives the message. */
  method SlowConsumerEvicted() returns (members: set<Client>, a: Client, b: Client, aGot: seq<Message>, bClosed: bool)
    ensures members == {a} && a != b
    ensures aGot == [Message("3", "message", "A")]
    ensures bClosed
  {
    var room := new Room();
    var m1 := Message("1", "message", "B");
    var m2 := Message("2", "message", "B");
    a := Join(room, "A", []);
    b := Join(room, "B", [m1, m2]);
    ghost var h := room.Model();
    assert h.members == {a, b};
    assert h.outboxes[a] == Queue([], 2, false);
    assert h.outboxes[b] == Queue([m1, m2], 2, false);
    var m3 := Message("3", "message", "A");
    assert room.MemberOutboxes() == {a.send, b.send};
    room.Broadcast(m3);
    ghost var r := room.Model();
    RoomProperties.BroadcastDelivers(h, m3, a);
    RoomProperties.BroadcastEvicts(h, m3);
    assert Full(h) == {b};
    assert r.outboxes[a] == a.send.State() && r.outboxes[b] == b.send.State();
    members := room.clients;
    aGot := a.send.items;
    bClosed := b.send.closed;
  }
}
