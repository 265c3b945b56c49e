/** The room hub of rooms.go as Go runs it: a `Room` object whose event
    handlers update its member set in place and push onto, or close, the
    clients' buffered `send` channels. Each handler states its effect through
    `Model()`, the value of the room as a `RoomModel.Hub`, in terms of the
    functions of `RoomModel`, whose properties `RoomProperties` proves. */
module Rooms {
  import opened RoomModel
  import RoomProperties

  newtype uint32 = x: int | 0 <= x < 0x1_0000_0000

  /** A client's buffered `send` channel. */
  class Outbox {
    const capacity: nat
    var items: seq<Message>
    var closed: bool

    /** `make(chan *Message, capacity)`: empty and open. */
    constructor (capacity: nat)
      ensures State() == Queue([], capacity, false)
    {
      this.capacity := capacity;
      items := [];
      closed := false;
    }

    function State(): Queue
      reads this
    {
      Queue(items, capacity, closed)
    }

    /** `select { case ch <- m: ... default: ... }`: enqueue `m` without
        blocking if the buffer has room, and report whether it did. Sending on
        a closed channel panics in Go, hence the precondition. */
    method TrySend(m: Message) returns (sent: bool)
      requires !closed
      modifies this
      ensures sent == old(State()).HasRoom()
      ensures items == if sent then old(items) + [m] else old(items)
      ensures closed == old(closed)
    {
      sent := |items| < capacity;
      if sent {
        items := items + [m];
      }
    }

    /** `close(ch)`. Closing a closed channel panics in Go, hence the
        precondition. */
    method Close()
      requires !closed
      modifies this
      ensures State() == RoomModel.Close(old(State()))
    {
      closed := true;
    }
  }

  /** The two fields of a client that the room uses. */
  class Client {
    const id: string
    const send: Outbox

    constructor (id: string, send: Outbox)
      ensures this.id == id && this.send == send
    {
      this.id := id;
      this.send := send;
    }
  }

  class Room {
    const id: uint32
    /** The keys of `r.clients`. */
    var clients: set<Client>
    /** Every client ever registered, members or not. */
    ghost var known: set<Client>

    ghost function KnownOutboxes(): set<Outbox>
      reads this
    {
      set c | c in known :: c.send
    }

    ghost function MemberOutboxes(): set<Outbox>
      reads this
    {
      set c | c in clients :: c.send
    }

    /** The room as a value: its members and the outbox of every client it
        has seen. */
    ghost function Model(): Hub<Client>
      reads this, KnownOutboxes()
    {
      Hub(clients, map c | c in known :: c.send.State())
    }

    /** Members are known clients; no two known clients share an outbox;
        every member's outbox is open and within capacity. */
    ghost predicate Valid()
      reads this, KnownOutboxes()
    {
      && clients <= known
      && (forall c, d :: c in known && d in known && c.send == d.send ==> c == d)
      && Model().Valid()
    }

    /** `newRoom`: room 1, no clients. */
    constructor ()
      ensures Valid()
      ensures id == 1 && clients == {} && known == {}
      ensures Model() == Empty()
    {
      id := 1;
      clients := {};
      known := {};
    }

    /** The register arm: `r.clients[client] = true`. The client arrives with
        an open outbox within capacity that it shares with no other client. */
    method Register(c: Client)
      requires Valid()
      requires c.send.State().Healthy()
      requires forall d :: d in known && d.send == c.send ==> d == c
      modifies this
      ensures Valid()
      ensures clients == old(clients) + {c} && known == old(known) + {c}
      ensures Model() == RoomModel.Register(old(Model()), c, c.send.State())
    {
      clients := clients + {c};
      known := known + {c};
    }

    /** The unregister arm: a member is deleted and its outbox closed; for a
        client that is not a member nothing happens. */
    method Unregister(c: Client)
      requires Valid()
      modifies this, c.send
      ensures Valid()
      ensures known == old(known)
      ensures clients == old(clients) - {c}
      ensures Model() == RoomModel.Unregister(old(Model()), c)
      ensures c !in old(clients) ==> unchanged(c.send)
    {
      if c in clients {
        ghost var before := Model();
        clients := clients - {c};
        c.send.Close();
        assert Model().outboxes == before.outboxes[c := RoomModel.Close(before.outboxes[c])];
      }
    }

    /** One iteration of the broadcast arm's range loop, for member `c`: the
        inner `select` either enqueues `m` or, on a full outbox, closes it and
        deletes `c`. */
    method Step(c: Client, m: Message)
      requires Valid() && c in clients
      modifies this, c.send
      ensures Valid()
      ensures known == old(known)
      ensures clients == if old(c.send.State()).HasRoom() then old(clients) else old(clients) - {c}
      ensures Model() == RoomModel.Step(old(Model()), c, m)
    {
      ghost var before := Model();
      assert before.outboxes[c] == c.send.State();
      var sent := c.send.TrySend(m);
      if !sent {
        c.send.Close();
        clients := clients - {c};
      }
      assert Model().outboxes == before.outboxes[c := SendOrClose(before.outboxes[c], m)];
    }

    /** The broadcast arm: every member is offered `m` without blocking; a
        member whose outbox is full has its outbox closed and is deleted. The
        loop visits the members in an arbitrary order, as a Go map range does;
        the result is that of the order-free `RoomModel.Broadcast`. */
    method Broadcast(m: Message)
      requires Valid()
      modifies this, MemberOutboxes()
      ensures Valid()
      ensures known == old(known)
      ensures Model() == RoomModel.Broadcast(old(Model()), m)
    {
      ghost var visited: seq<Client> := [];
      var pending := clients;
      while pending != {}
        invariant known == old(known) && Valid()
        invariant pending <= clients
        invariant Elements(visited) !! pending
        invariant Elements(visited) + pending == old(clients)
        invariant Distinct(visited)
        invariant Model() == BroadcastInOrder(old(Model()), visited, m)
        decreases pending
      {
        var c :| c in pending;
        Step(c, m);
        pending := pending - {c};
        visited := visited + [c];
        assert Elements(visited) == Elements(visited[..|visited| - 1]) + {c};
      }
      RoomProperties.BroadcastOrderIndependent(old(Model()), visited, m);
    }
  }
}
