/** A value model of the room hub of rooms.go.

    The hub owns a set of member clients; each client is assumed to have its
    own buffered `send` channel (its outbox), made by client code that is not
    part of this model. The hub reacts to three events: register, unregister
    and broadcast. Here each event is a function from one hub state to the next,
    and the properties the hub promises are lemmas about these functions. The
    class `Rooms.Room` performs the same events in place and states its effect
    in terms of the functions below. */
module RoomModel {

  /** A chat message (`Message` in rooms.go): body, type tag, sender id. */
  datatype Message = Message(text: string, kind: string, clientId: string)

  /** What the hub can observe of one client's buffered `send` channel. */
  datatype Queue = Queue(items: seq<Message>, capacity: nat, closed: bool)
  {
    /** A non-blocking send succeeds exactly when the buffer is not full. */
    predicate HasRoom() {
      |items| < capacity
    }

    /** What the hub needs of every member's outbox: open, within capacity. */
    predicate Healthy() {
      !closed && |items| <= capacity
    }
  }

  /** `close(ch)`: only the closed flag changes. Closing a closed channel
      panics in Go, hence the precondition. */
  function Close(q: Queue): (r: Queue)
    requires !q.closed
    ensures r.closed && r.items == q.items && r.capacity == q.capacity
  {
    q.(closed := true)
  }

  /** The inner `select` of a broadcast for one client: a non-blocking send of
      `m`, and on a full buffer the `default` arm, which closes the channel.
      Sending on a closed channel panics in Go, hence the precondition. */
  function SendOrClose(q: Queue, m: Message): (r: Queue)
    requires !q.closed
    ensures r.capacity == q.capacity
    ensures r.closed <==> !q.HasRoom()
    ensures q.Healthy() ==> (r.Healthy() <==> q.HasRoom())
    ensures q.items <= r.items
    ensures !r.closed ==> r.items == q.items + [m]
    ensures r.closed ==> r.items == q.items
  {
    if q.HasRoom() then q.(items := q.items + [m]) else Close(q)
  }

  /** The state of a hub: the members (the keys of `r.clients`) and the outbox of
      every client the hub has seen, members or not, so that the outbox of a
      client that left stays visible. */
  datatype Hub<K> = Hub(members: set<K>, outboxes: map<K, Queue>)
  {
    /** Every member has an outbox, and that outbox is open and within capacity. */
    predicate Valid() {
      && members <= outboxes.Keys
      && forall k :: k in members ==> outboxes[k].Healthy()
    }
  }

  /** `newRoom`: no members yet. */
  function Empty<K>(): (h: Hub<K>)
    ensures h.Valid() && h.members == {}
  {
    Hub({}, map[])
  }

  /** The register arm: `r.clients[client] = true`. `q` must be the current
      state of the client's own outbox; the insert itself does not touch the
      channel. For a client the hub already knows, `q` is therefore the outbox
      recorded for it (`Rooms.Room.Register` ties `q` to `c.send`). */
  function Register<K>(h: Hub<K>, k: K, q: Queue): (r: Hub<K>)
    ensures h.Valid() && q.Healthy() ==> r.Valid()
  {
    Hub(h.members + {k}, h.outboxes[k := q])
  }

  /** The unregister arm: only a member is deleted and has its outbox closed. */
  function Unregister<K>(h: Hub<K>, k: K): (r: Hub<K>)
    requires h.Valid()
    ensures r.Valid()
  {
    if k in h.members then Hub(h.members - {k}, h.outboxes[k := Close(h.outboxes[k])])
    else h
  }

  /** The members whose outbox is full: the ones a broadcast evicts. */
  function Full<K>(h: Hub<K>): (s: set<K>)
    requires h.Valid()
    ensures s <= h.members
  {
    set k | k in h.members && !h.outboxes[k].HasRoom()
  }

  /** A broadcast that has so far offered `m` to the members in `done`: each
      of them received `m` or was evicted, independently of the others. */
  function BroadcastTo<K>(h: Hub<K>, done: set<K>, m: Message): (r: Hub<K>)
    requires h.Valid()
    ensures r.Valid()
  {
    Hub(set k | k in h.members && (k !in done || h.outboxes[k].HasRoom()),
        map k | k in h.outboxes ::
          if k in h.members && k in done then SendOrClose(h.outboxes[k], m) else h.outboxes[k])
  }

  /** The broadcast arm, as a reference definition without any iteration order:
      every member is offered `m`. */
  function Broadcast<K>(h: Hub<K>, m: Message): (r: Hub<K>)
    requires h.Valid()
    ensures r.Valid()
  {
    BroadcastTo(h, h.members, m)
  }

  /** One iteration of `for client := range r.clients` in the broadcast arm.
      A key that is no longer in the map is not visited, hence the no-op. */
  function Step<K>(h: Hub<K>, k: K, m: Message): (r: Hub<K>)
    requires h.Valid()
    ensures r.Valid()
  {
    if k in h.members then
      var q := h.outboxes[k];
      Hub(if q.HasRoom() then h.members else h.members - {k}, h.outboxes[k := SendOrClose(q, m)])
    else h
  }

  /** The broadcast arm as Go runs it: the loop visits the members in `order`,
      whatever order the map iteration happens to produce. */
  function BroadcastInOrder<K>(h: Hub<K>, order: seq<K>, m: Message): (r: Hub<K>)
    requires h.Valid()
    ensures r.Valid()
    decreases |order|
  {
    if order == [] then h
    else Step(BroadcastInOrder(h, order[..|order| - 1], m), order[|order| - 1], m)
  }

  predicate Distinct<K(==)>(s: seq<K>) {
    forall i, j :: 0 <= i < j < |s| ==> s[i] != s[j]
  }

  function Elements<K>(s: seq<K>): set<K> {
    set x | x in s
  }
}
