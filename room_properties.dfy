/** What the room hub of rooms.go promises, stated and proved over the value
    model of `RoomModel`. */
module RoomProperties {
  import opened RoomModel

  // ---------------------------------------------------------------- register

  /** Registering adds the client and leaves every other member and every
      other outbox as it was. */
  lemma RegisterAdds<K>(h: Hub<K>, k: K, q: Queue)
    ensures Register(h, k, q).members == h.members + {k}
    ensures Register(h, k, q).outboxes.Keys == h.outboxes.Keys + {k}
    ensures Register(h, k, q).outboxes[k] == q
    ensures forall j :: j in h.outboxes && j != k ==> Register(h, k, q).outboxes[j] == h.outboxes[j]
  {
  }

  /** Registering a client that is already a member, with the outbox it
      already has, leaves the hub as it was. */
  lemma RegisterMemberIsNoOp<K>(h: Hub<K>, k: K)
    requires k in h.members && k in h.outboxes
    ensures Register(h, k, h.outboxes[k]) == h
  {
    assert h.outboxes[k := h.outboxes[k]] == h.outboxes;
  }

  // -------------------------------------------------------------- unregister

  /** Unregistering a member removes exactly that member and closes exactly
      its outbox, which was open; nothing else changes. */
  lemma UnregisterMember<K>(h: Hub<K>, k: K)
    requires h.Valid() && k in h.members
    ensures !h.outboxes[k].closed
    ensures Unregister(h, k).members == h.members - {k}
    ensures Unregister(h, k).outboxes.Keys == h.outboxes.Keys
    ensures Unregister(h, k).outboxes[k] == h.outboxes[k].(closed := true)
    ensures forall j :: j in h.outboxes && j != k ==> Unregister(h, k).outboxes[j] == h.outboxes[j]
  {
  }

  /** Unregistering a client that is not a member changes nothing: nothing is
      removed and nothing is closed. */
  lemma UnregisterNonMember<K>(h: Hub<K>, k: K)
    requires h.Valid() && k !in h.members
    ensures Unregister(h, k) == h
  {
  }

  /** Unregistering the same client twice has the effect of doing it once. */
  lemma UnregisterIdempotent<K>(h: Hub<K>, k: K)
    requires h.Valid()
    ensures Unregister(Unregister(h, k), k) == Unregister(h, k)
  {
  }

  // --------------------------------------------------------------- broadcast

  /** A member with room in its outbox stays a member and receives `m` at the
      tail of its queue, unchanged and after everything queued before. */
  lemma {:induction false} BroadcastDelivers<K>(h: Hub<K>, m: Message, k: K)
    requires h.Valid() && k in h.members && h.outboxes[k].HasRoom()
    ensures k in Broadcast(h, m).members
    ensures Broadcast(h, m).outboxes[k].items == h.outboxes[k].items + [m]
    ensures Broadcast(h, m).outboxes[k].capacity == h.outboxes[k].capacity
    ensures !Broadcast(h, m).outboxes[k].closed
  {
  }

  /** A broadcast removes exactly the members whose outbox was full, closes
      exactly their outboxes, never adds a member, and leaves the outbox of
      every non-member alone. */
  lemma {:induction false} BroadcastEvicts<K>(h: Hub<K>, m: Message)
    requires h.Valid()
    ensures Broadcast(h, m).members == h.members - Full(h)
    ensures Broadcast(h, m).outboxes.Keys == h.outboxes.Keys
    ensures forall k :: k in h.outboxes ==>
      (Broadcast(h, m).outboxes[k].closed <==> h.outboxes[k].closed || k in Full(h))
    ensures forall k :: k in Full(h) ==> Broadcast(h, m).outboxes[k] == h.outboxes[k].(closed := true)
    ensures forall k :: k in h.outboxes && k !in h.members ==> Broadcast(h, m).outboxes[k] == h.outboxes[k]
  {
  }

  /** Successive broadcasts reach a member that survives both in the order
      they were made (first-in first-out per member). */
  lemma {:induction false} BroadcastFifo<K>(h: Hub<K>, m1: Message, m2: Message, k: K)
    requires h.Valid()
    requires k in Broadcast(Broadcast(h, m1), m2).members
    ensures Broadcast(Broadcast(h, m1), m2).outboxes[k].items == h.outboxes[k].items + [m1, m2]
  {
    var h1 := Broadcast(h, m1);
    BroadcastEvicts(h, m1);
    BroadcastEvicts(h1, m2);
    BroadcastDelivers(h, m1, k);
    BroadcastDelivers(h1, m2, k);
  }

  // ------------------------------------------------------ order independence

  /** Offering `m` to one more member `k` extends a partial broadcast. */
  lemma {:induction false} StepExtends<K>(h: Hub<K>, done: set<K>, k: K, m: Message)
    requires h.Valid() && k !in done
    ensures Step(BroadcastTo(h, done, m), k, m) == BroadcastTo(h, done + {k}, m)
  {
    var p := BroadcastTo(h, done, m);
    var r := BroadcastTo(h, done + {k}, m);
    if k in h.members {
      assert k in p.members && p.outboxes[k] == h.outboxes[k];
      var s := Step(p, k, m);
      assert s.members == r.members;
      assert s.outboxes == r.outboxes;
    } else {
      assert p.members == r.members;
      assert p.outboxes == r.outboxes;
    }
  }

  /** Visiting the clients of `order` one after another, as the range loop
      does, is the same as offering `m` to all of them at once. */
  lemma {:induction false} InOrderIsBroadcastTo<K>(h: Hub<K>, order: seq<K>, m: Message)
    requires h.Valid() && Distinct(order)
    ensures BroadcastInOrder(h, order, m) == BroadcastTo(h, Elements(order), m)
    decreases |order|
  {
    if order == [] {
      var r := BroadcastTo(h, {}, m);
      assert r.members == h.members;
      assert r.outboxes == h.outboxes;
    } else {
      var init, k := order[..|order| - 1], order[|order| - 1];
      assert Distinct(init);
      InOrderIsBroadcastTo(h, init, m);
      assert Elements(order) == Elements(init) + {k} by {
        assert order == init + [k];
      }
      StepExtends(h, Elements(init), k, m);
    }
  }

  /** Whatever order the map iteration visits the members in, once each, the
      broadcast arm ends in the state of the order-free reference `Broadcast`. */
  lemma {:induction false} BroadcastOrderIndependent<K>(h: Hub<K>, order: seq<K>, m: Message)
    requires h.Valid() && Distinct(order) && Elements(order) == h.members
    ensures BroadcastInOrder(h, order, m) == Broadcast(h, m)
  {
    InOrderIsBroadcastTo(h, order, m);
  }

  /** Hence any two iteration orders give the same resulting state. */
  lemma {:induction false} AnyTwoOrdersAgree<K>(h: Hub<K>, o1: seq<K>, o2: seq<K>, m: Message)
    requires h.Valid()
    requires Distinct(o1) && Elements(o1) == h.members
    requires Distinct(o2) && Elements(o2) == h.members
    ensures BroadcastInOrder(h, o1, m) == BroadcastInOrder(h, o2, m)
  {
    BroadcastOrderIndependent(h, o1, m);
    BroadcastOrderIndependent(h, o2, m);
  }

  // ------------------------------------------- membership under join / leave

  /** A register or unregister request, as it reaches the hub's loop. A
      `Join` carries the current state of the client's own outbox. */
  datatype Event<K> = Join(client: K, outbox: Queue) | Leave(client: K)

  predicate ArriveHealthy<K>(events: seq<Event<K>>) {
    forall i :: 0 <= i < |events| && events[i].Join? ==> events[i].outbox.Healthy()
  }

  /** The hub's loop handling `events` one after another. */
  function Replay<K>(h: Hub<K>, events: seq<Event<K>>): (r: Hub<K>)
    requires h.Valid() && ArriveHealthy(events)
    ensures r.Valid()
    decreases |events|
  {
    if events == [] then h
    else
      var p := Replay(h, events[..|events| - 1]);
      match events[|events| - 1]
      case Join(k, q) => Register(p, k, q)
      case Leave(k) => Unregister(p, k)
  }

  /** Whether `k` is a member after `events`, judged by the last event that
      names `k`; `initially` when none does. */
  function MemberAfter<K(==)>(initially: bool, events: seq<Event<K>>, k: K): bool
    decreases |events|
  {
    if events == [] then initially
    else if events[|events| - 1].client == k then events[|events| - 1].Join?
    else MemberAfter(initially, events[..|events| - 1], k)
  }

  /** After any sequence of register and unregister requests, the members are
      exactly the clients whose last request was a register (or, for clients
      with no request, the members before). */
  lemma {:induction false} ReplayMembership<K>(h: Hub<K>, events: seq<Event<K>>, k: K)
    requires h.Valid() && ArriveHealthy(events)
    ensures k in Replay(h, events).members <==> MemberAfter(k in h.members, events, k)
    decreases |events|
  {
    if events != [] {
      var init := events[..|events| - 1];
      assert ArriveHealthy(init) by {
        forall i | 0 <= i < |init| && init[i].Join?
          ensures init[i].outbox.Healthy()
        {
          assert init[i] == events[i];
        }
      }
      ReplayMembership(h, init, k);
    }
  }
}
