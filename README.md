# Room hub of go-chat-server, in Dafny

This project models the room hub of the chat relay, `rooms.go`. A `Room` owns the
set of connected clients, the keys of its `clients` map. The client code is
not shown; the model assumes that each client has its own buffered `send`
channel, called its outbox here. The room's loop handles three
events, one at a time:

- **register** puts the client into the map;
- **unregister** deletes a client that is a member and closes its outbox, and
  ignores a client that is not;
- **broadcast** offers the message to every member without blocking; a member
  whose outbox is full has it closed and is deleted from the map while the map
  is being ranged over.

The model has four modules:

- `RoomModel` (`room_model.dfy`): the values. `Message` is the three-string
  record of `rooms.go`. `Queue` is what the hub can see of an outbox: its
  buffered messages, its capacity and whether it is closed. `Hub<K>` holds the
  members and the outbox of every client the hub has seen. `Register`,
  `Unregister` and `Broadcast` are the three events as functions. `Broadcast`
  is the order-free reference. `Step` is one iteration of the range loop and
  `BroadcastInOrder` runs the loop in a given visiting order. `Hub.Valid()` is
  the hub's invariant: every member's outbox is open and holds no more than its
  capacity.
- `RoomProperties` (`room_properties.dfy`): the lemmas about these functions.
  They cover what each event adds, removes, closes and leaves alone;
  idempotence; per-member FIFO delivery; that any visiting order of the range
  loop gives the order-free result; and membership after any sequence of
  register and unregister requests.
- `Rooms` (`rooms.dfy`): the objects, updated in place as Go does. `Outbox` is
  a channel with `TrySend` (the non-blocking send) and `Close`. `Client` keeps
  its `id` and `send`. `Room` has the `clients` set and methods `Register`,
  `Unregister` and `Broadcast`. `Broadcast` loops over the members in an
  arbitrary order, like a Go map range. Each method keeps `Valid()` and states
  its effect as `Model() == RoomModel.<event>(old(Model()), …)`. So the
  lemmas of `RoomProperties` apply to the objects.
- `RoomScenarios` (`scenarios.dfy`): two verified end-to-end scenarios
  through the `Room` methods. Three members all receive a broadcast. A
  member with a full outbox is evicted while the others receive the message.

Go panics when a program sends on a closed channel or closes it twice. The
model turns both into preconditions: `Outbox.TrySend` and `Outbox.Close`
require an open outbox, and so do `RoomModel.Close`, the value form of
`close`, and `RoomModel.SendOrClose`, the value form of the whole inner
`select` (a send, then a close when the send fails). Every call the room makes
discharges these from its invariant. So the model proves that the hub never
sends on a closed outbox and never closes one twice. `rooms.go` does not test
whether an outbox is closed before sending on it (rooms.go:50); the model
proves that no such test is needed while `Valid()` holds.

## Model

| member | source | states |
|---|---|---|
| `RoomModel.Empty` | rooms.go:21-28 | a new room has no members and satisfies the hub invariant |
| `RoomModel.Close` | rooms.go:44 | closing an open outbox sets only its closed flag; its messages and capacity are kept; requires an open outbox |
| `RoomModel.SendOrClose` | rooms.go:49-53 | appends the message at the tail when the buffer has room, otherwise closes the outbox with its messages kept; the result is closed exactly when the buffer was full; a healthy outbox stays healthy exactly when it had room; earlier messages stay a prefix; requires an open outbox |
| `RoomModel.Register` | rooms.go:38-39 | registering a client that arrives with an open outbox within capacity preserves the hub invariant |
| `RoomModel.Unregister` | rooms.go:41-46 | unregistering preserves the hub invariant; closing is applied only to an open outbox |
| `RoomModel.Step` | rooms.go:48-54 | one iteration of the range loop preserves the hub invariant; it sends only to an open outbox |
| `RoomModel.BroadcastInOrder` | rooms.go:48-55 | the range loop, in any visiting order, preserves the hub invariant after every iteration |
| `RoomModel.BroadcastTo` | rooms.go:48-55 | offering the message to any subset of the members preserves the hub invariant |
| `RoomModel.Broadcast` | rooms.go:47-55 | the order-free broadcast preserves the hub invariant |
| `RoomProperties.RegisterAdds` | rooms.go:38-39 | registering adds exactly that client, to the members and to the known outboxes, and leaves every other member and outbox unchanged |
| `RoomProperties.RegisterMemberIsNoOp` | rooms.go:39 | registering a client that is already a member leaves the hub as it was |
| `RoomProperties.UnregisterMember` | rooms.go:41-44 | unregistering a member removes exactly it and closes exactly its outbox, which was open; the queued messages and every other outbox are unchanged |
| `RoomProperties.UnregisterNonMember` | rooms.go:42 | unregistering a non-member changes nothing: no removal, no close |
| `RoomProperties.UnregisterIdempotent` | rooms.go:41-46 | unregistering twice has the effect of unregistering once |
| `RoomProperties.BroadcastDelivers` | rooms.go:48-50 | a member with room stays, stays open, and gets the message unchanged at the tail of its queue |
| `RoomProperties.BroadcastEvicts` | rooms.go:48-55 | the members afterwards are the old members minus those whose outbox was full; exactly those outboxes get closed, with their contents and capacity kept; non-members' outboxes are untouched; no member is added |
| `RoomProperties.BroadcastFifo` | rooms.go:47-50 | a member that survives two broadcasts receives the two messages in the order they were made |
| `RoomProperties.StepExtends` | rooms.go:48-54 | offering the message to one more member extends a partial broadcast, whatever was done before |
| `RoomProperties.InOrderIsBroadcastTo` | rooms.go:48-55 | visiting distinct clients one after another equals offering the message to all of them independently |
| `RoomProperties.BroadcastOrderIndependent` | rooms.go:48-55 | a range loop that visits every member exactly once, in any order, ends in the state of the order-free broadcast |
| `RoomProperties.AnyTwoOrdersAgree` | rooms.go:48-55 | any two visiting orders of the members give the same resulting state |
| `RoomProperties.Replay` | rooms.go:36-46 | handling any sequence of register and unregister requests, with every client arriving healthy, preserves the hub invariant |
| `RoomProperties.ReplayMembership` | rooms.go:36-46 | after any sequence of register and unregister requests, a client is a member exactly when its last request was a register, or it was a member and made no request |
| `Rooms.Outbox.TrySend` | rooms.go:49-51 | the non-blocking send succeeds exactly when the buffer has room, and then appends the message at the tail; it never runs on a closed channel |
| `Rooms.Outbox.Close` | rooms.go:44 | closing marks the outbox closed and keeps its contents; it never runs on an already closed channel |
| `Rooms.Room.constructor` | rooms.go:21-28 | `newRoom` gives room id 1 with no clients and a valid state |
| `Rooms.Room.Register` | rooms.go:38-40 | the clients set becomes the old set plus the client; the room's value follows `RoomModel.Register`; the invariant is kept |
| `Rooms.Room.Unregister` | rooms.go:41-46 | the clients set loses the client; the room's value follows `RoomModel.Unregister`; a non-member's outbox is untouched; the invariant is kept |
| `Rooms.Room.Step` | rooms.go:49-54 | one loop iteration: the client stays exactly when its outbox had room; the room's value follows `RoomModel.Step` |
| `Rooms.Room.Broadcast` | rooms.go:47-55 | the loop over members in arbitrary order ends in the room value `RoomModel.Broadcast(old value, m)`; the invariant is kept |
| `RoomScenarios.EveryoneReceives` | rooms.go:47-50 | three members, sender included, each receive exactly the broadcast message and all stay members |
| `RoomScenarios.SlowConsumerEvicted` | rooms.go:47-55 | a member whose outbox is full is evicted and its outbox closed, while the other member receives the message |

## Left out

- Goroutines, the unbuffered `register`, `unregister` and `broadcast` channels and the `select` between them (rooms.go:24-26, 30, 37) are left out. Each arm is a method that can be called on its own; the loop's serialization is what makes this sound.
- The `log.Println` calls (rooms.go:40, 45) are left out because they are observability side effects only.
- `Rooms.Room.Register`: requires the client's outbox to be open and within capacity, and not shared with another known client. Go accepts any client, but one that arrives with a closed channel makes a later broadcast or unregister panic. The client code is not shown; the model assumes that each client brings its own buffered channel, open and shared with no other client.
- `RoomModel.Register`: takes the client's outbox as an argument. Only `Rooms.Room.Register` ties it to the client's own channel, so at the value level (and in `RoomProperties.Replay`) a client that left may rejoin with an open outbox, which a Go client whose `send` is closed cannot do.
- A channel is full when it holds `capacity` messages. With an unbuffered channel, a send can also succeed while a receiver is waiting. The receiving side (the client's write pump) is not part of this model, so its draining of outboxes is not modelled.
- The `Client` type and its read and write pumps, deadlines and ping/pong keepalive are not part of this model. Only `client.id` and `client.send`, which `rooms.go` uses, are modelled.
- The room id is a 32-bit unsigned integer (`uint32`), set to 1 and never read.
- `main.go` is left out because it does HTTP, TCP, WebSocket and Redis I/O and holds an HTML template. `app.js` is left out because it is browser UI code.
- A Go panic is not modelled as a behaviour. Each operation that would panic requires the state that avoids the panic.
