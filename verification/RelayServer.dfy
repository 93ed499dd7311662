/** The relay's calls run one at a time: what a flush does to every queue, and why no outbox is left waiting. */
module RelayServer {
  import opened Types
  import opened Events
  import opened Router
  import opened Relay

  /** What a bounded queue holds after offering it `events` one by one until the first refusal. */
  function Filled(queue: seq<WireEvent>, events: seq<WireEvent>, reading: bool): seq<WireEvent> {
    queue + events[..Taken(queue, events, reading)]
  }

  /** How many of `events` the queue takes. */
  function Taken(queue: seq<WireEvent>, events: seq<WireEvent>, reading: bool): (n: nat)
    ensures n <= |events|
  {
    if !reading || |queue| >= OUTBOX_CAPACITY then 0
    else if |events| <= OUTBOX_CAPACITY - |queue| then |events|
    else OUTBOX_CAPACITY - |queue|
  }

  /** The queue takes as much as fits: everything if it reads and has room, else it ends up with 256 events or more. */
  lemma TakesWhatFits(queue: seq<WireEvent>, events: seq<WireEvent>, reading: bool)
    ensures var n := Taken(queue, events, reading);
            && (n == |events| <==> events == [] || (reading && |queue| + |events| <= 256))
            && (n < |events| && reading ==> |queue| + n >= 256)
            && (!reading ==> n == 0)
            && (n > 0 ==> |queue| + n <= 256)
  {
  }

  datatype Delivery = Delivery(handle: nat, client: ClientId, events: seq<WireEvent>)

  /** `now` is `before` with the outboxes of the deliverable clients among `targets` emptied. */
  ghost predicate IsDrained(before: Outboxes<WireEvent>, now: Outboxes<WireEvent>,
                            handles: map<ClientId, nat>, targets: seq<ClientId>)
  {
    && now.Keys == before.Keys
    && forall c | c in now :: now[c] == if c in targets && c in handles then [] else before[c]
  }

  /** `ds` holds exactly one delivery for each client among `targets` that has a handle and something queued. */
  ghost predicate Collected(ds: seq<Delivery>, before: Outboxes<WireEvent>,
                            handles: map<ClientId, nat>, targets: seq<ClientId>)
  {
    && (forall k | 0 <= k < |ds| :: IsDelivery(ds[k], before, handles, targets))
    && (forall j, k | 0 <= j < k < |ds| :: ds[j].client != ds[k].client)
    && (forall c | c in targets && c in handles && c in before && before[c] != [] :: HasDelivery(ds, c))
  }

  predicate IsDelivery(d: Delivery, before: Outboxes<WireEvent>, handles: map<ClientId, nat>, targets: seq<ClientId>) {
    && d.client in targets && d.client in handles && d.client in before
    && d.handle == handles[d.client] && d.events == before[d.client] != []
  }

  ghost predicate HasDelivery(ds: seq<Delivery>, c: ClientId) {
    exists k | 0 <= k < |ds| :: ds[k].client == c
  }

  lemma HasDeliveryGrows(ds: seq<Delivery>, d: Delivery, c: ClientId)
    requires HasDelivery(ds, c) || d.client == c
    ensures HasDelivery(ds + [d], c)
  {
    if HasDelivery(ds, c) {
      var k :| 0 <= k < |ds| && ds[k].client == c;
      assert (ds + [d])[k].client == c;
    } else {
      assert (ds + [d])[|ds|].client == c;
    }
  }

  /** One turn of the drain loop. */
  lemma CollectNext(ds: seq<Delivery>, before: Outboxes<WireEvent>, now: Outboxes<WireEvent>,
                    handles: map<ClientId, nat>, targets: seq<ClientId>, c: ClientId)
    requires Collected(ds, before, handles, targets) && IsDrained(before, now, handles, targets)
    ensures c in handles && c in now && now[c] != []
            ==> Collected(ds + [Delivery(handles[c], c, now[c])], before, handles, targets + [c])
    ensures !(c in handles && c in now && now[c] != []) ==> Collected(ds, before, handles, targets + [c])
    ensures c in handles && c in now ==> IsDrained(before, now[c := []], handles, targets + [c])
    ensures !(c in handles && c in now) ==> IsDrained(before, now, handles, targets + [c])
  {
    if c in handles && c in now && now[c] != [] {
      var d := Delivery(handles[c], c, now[c]);
      forall e | e in targets + [c] && e in handles && e in before && before[e] != []
        ensures HasDelivery(ds + [d], e)
      {
        HasDeliveryGrows(ds, d, e);
      }
    }
  }

  // ---------- the send loop, on values ----------

  /** The connection map with the queues behind it. */
  datatype Wires = Wires(queues: map<nat, seq<WireEvent>>, closing: set<nat>, connections: map<ClientId, nat>)

  function DeliverOne(w: Wires, d: Delivery, reading: set<nat>): Wires
    requires d.handle in w.queues
  {
    var queue := w.queues[d.handle];
    var filled := w.queues[d.handle := Filled(queue, d.events, d.handle in reading)];
    if Taken(queue, d.events, d.handle in reading) == |d.events| then w.(queues := filled)
    else Wires(filled, w.closing + {d.handle}, w.connections - {d.client})
  }

  function DeliverAll(w: Wires, ds: seq<Delivery>, reading: set<nat>): (r: Wires)
    requires forall k | 0 <= k < |ds| :: ds[k].handle in w.queues
    ensures r.queues.Keys == w.queues.Keys
  {
    if ds == [] then w else DeliverOne(DeliverAll(w, ds[..|ds| - 1], reading), ds[|ds| - 1], reading)
  }

  function EventsFor(ds: seq<Delivery>, c: ClientId): seq<WireEvent> {
    if ds == [] then [] else if ds[|ds| - 1].client == c then ds[|ds| - 1].events else EventsFor(ds[..|ds| - 1], c)
  }

  /** Offering `events` to client `c`: its queue takes them in order; it keeps its handle exactly if it took all. */
  predicate Outcome(before: Wires, now: Wires, reading: set<nat>, c: ClientId, events: seq<WireEvent>)
    requires c in before.connections && before.connections[c] in before.queues
  {
    var h := before.connections[c];
    var all := Taken(before.queues[h], events, h in reading) == |events|;
    && h in now.queues && now.queues[h] == Filled(before.queues[h], events, h in reading)
    && (c in now.connections <==> all)
    && (c in now.connections ==> now.connections[c] == h)
    && (!all ==> h in now.closing)
  }

  predicate OneHandleEach(handles: map<ClientId, nat>) {
    forall c, d | c in handles && d in handles && handles[c] == handles[d] :: c == d
  }

  predicate FitsHandles(ds: seq<Delivery>, w: Wires) {
    && (forall k | 0 <= k < |ds| ::
          && ds[k].client in w.connections && ds[k].handle == w.connections[ds[k].client]
          && ds[k].handle in w.queues)
    && (forall j, k | 0 <= j < k < |ds| :: ds[j].client != ds[k].client)
  }

  lemma NoDeliveryNoEvents(ds: seq<Delivery>, c: ClientId)
    requires forall k | 0 <= k < |ds| :: ds[k].client != c
    ensures EventsFor(ds, c) == []
  {
  }

  lemma {:induction false} DeliverAllOutcome(w: Wires, ds: seq<Delivery>, reading: set<nat>, c: ClientId)
    requires OneHandleEach(w.connections) && FitsHandles(ds, w)
    requires c in w.connections && w.connections[c] in w.queues
    ensures Outcome(w, DeliverAll(w, ds, reading), reading, c, EventsFor(ds, c))
  {
    if ds != [] {
      var front, d := ds[..|ds| - 1], ds[|ds| - 1];
      DeliverAllOutcome(w, front, reading, c);
      if d.client == c {
        NoDeliveryNoEvents(front, c);
        assert w.queues[d.handle] + [] == w.queues[d.handle];
      }
    }
  }

  lemma {:induction false} DeliverAllShrinks(w: Wires, ds: seq<Delivery>, reading: set<nat>)
    requires FitsHandles(ds, w)
    ensures var left := DeliverAll(w, ds, reading).connections;
            left.Keys <= w.connections.Keys && forall c | c in left :: left[c] == w.connections[c]
  {
    if ds != [] {
      DeliverAllShrinks(w, ds[..|ds| - 1], reading);
    }
  }

  lemma {:induction false} EventsForDelivery(ds: seq<Delivery>, k: nat)
    requires k < |ds| && forall i, j | 0 <= i < j < |ds| :: ds[i].client != ds[j].client
    ensures EventsFor(ds, ds[k].client) == ds[k].events
  {
    if k < |ds| - 1 {
      EventsForDelivery(ds[..|ds| - 1], k);
    }
  }

  /** The deliveries collected for `targets` carry each target's whole outbox, and nothing for anyone else. */
  lemma CollectedEvents(ds: seq<Delivery>, before: Outboxes<WireEvent>,
                        handles: map<ClientId, nat>, targets: seq<ClientId>, c: ClientId)
    requires Collected(ds, before, handles, targets) && c in handles && c in before
    ensures EventsFor(ds, c) == if c in targets then before[c] else []
  {
    if HasDelivery(ds, c) {
      var k :| 0 <= k < |ds| && ds[k].client == c;
      EventsForDelivery(ds, k);
    } else {
      NoDeliveryNoEvents(ds, c);
    }
  }

  /** What a flush leaves behind, for every client that had a handle. */
  lemma FlushOutcome(w: Wires, ds: seq<Delivery>, before: Outboxes<WireEvent>,
                     reading: set<nat>, targets: seq<ClientId>)
    requires OneHandleEach(w.connections) && Collected(ds, before, w.connections, targets)
    requires forall c | c in w.connections :: w.connections[c] in w.queues && c in before
    ensures FitsHandles(ds, w)
    ensures var w' := DeliverAll(w, ds, reading);
            && (forall c | c in w.connections :: Outcome(w, w', reading, c, if c in targets then before[c] else []))
            && w'.connections.Keys <= w.connections.Keys && w'.queues.Keys == w.queues.Keys
            && (forall c | c in w'.connections :: w'.connections[c] == w.connections[c])
  {
    assert forall k | 0 <= k < |ds| :: IsDelivery(ds[k], before, w.connections, targets);
    DeliverAllShrinks(w, ds, reading);
    forall c | c in w.connections
      ensures Outcome(w, DeliverAll(w, ds, reading), reading, c, if c in targets then before[c] else [])
    {
      DeliverAllOutcome(w, ds, reading, c);
      CollectedEvents(ds, before, w.connections, targets, c);
    }
  }

  class Server {
    const router: InMemoryRouter
    var connections: map<ClientId, nat>
    var queues: map<nat, seq<WireEvent>>  // what each connection's channel holds
    var reading: set<nat>                 // connections whose writer still reads
    var closing: set<nat>                 // connections sent a close signal

    /** Handles belong to one client each, and clients with a handle are registered. */
    ghost predicate Valid()
      reads this, router
    {
      && (forall c | c in connections :: connections[c] in queues && c in router.outboxes)
      && OneHandleEach(connections)
    }

    /** No registered client with a live handle has anything waiting in the router. */
    ghost predicate Flushed()
      reads this, router
    {
      forall c | c in connections && c in router.outboxes :: router.outboxes[c] == []
    }

    constructor ()
      ensures Valid() && Flushed() && fresh(router)
      ensures connections == map[] && router.outboxes == map[]
    {
      router := new InMemoryRouter();
      connections := map[];
      queues := map[];
      reading := {};
      closing := {};
    }

    method RegisterClient(client: ClientId, handle: nat) returns (accepted: bool)
      requires Valid() && Flushed() && handle !in queues
      modifies this, router
      ensures Valid() && Flushed()
      ensures accepted <==> client !in old(router.outboxes)
      ensures accepted ==> router.outboxes == old(router.outboxes)[client := []]
                           && connections == old(connections)[client := handle]
                           && queues == old(queues)[handle := []] && reading == old(reading) + {handle}
      ensures !accepted ==> router.outboxes == old(router.outboxes)
                            && Wiring() == old(Wiring()) && reading == old(reading)
      ensures closing == old(closing)
    {
      var joined := router.Connect(client);
      if joined.Err? {
        return false;
      }
      connections := connections[client := handle];
      queues := queues[handle := []];
      reading := reading + {handle};
      return true;
    }

    method UnregisterClient(client: ClientId)
      requires Valid() && Flushed()
      modifies this`connections, router
      ensures Valid() && Flushed()
      ensures connections == old(connections) - {client} && router.outboxes == old(router.outboxes) - {client}
    {
      connections := connections - {client};
      var left := router.Disconnect(client);
    }

    /** The writer of a connection takes the oldest event of its channel. */
    method WriterTakes(handle: nat) returns (event: WireEvent)
      requires Valid() && handle in reading && handle in queues && queues[handle] != []
      modifies this`queues
      ensures Valid() && (old(Flushed()) ==> Flushed())
      ensures queues.Keys == old(queues).Keys && [event] + queues[handle] == old(queues)[handle]
      ensures forall h | h in queues && h != handle :: queues[h] == old(queues)[h]
    {
      event := queues[handle][0];
      queues := queues[handle := queues[handle][1..]];
    }

    /** The writer of a connection stops: from now on its channel refuses every event. */
    method WriterStops(handle: nat)
      requires Valid()
      modifies this`reading
      ensures Valid() && (old(Flushed()) ==> Flushed())
      ensures reading == old(reading) - {handle}
      ensures forall events | handle in queues && events != [] :: Taken(queues[handle], events, handle in reading) == 0
    {
      reading := reading - {handle};
    }

    /** Sends a batch until the queue refuses an event; then tells the connection to close and drops its handle. */
    method Deliver(d: Delivery)
      requires d.handle in queues
      modifies this`queues, this`closing, this`connections
      ensures queues == old(queues)[d.handle := Filled(old(queues)[d.handle], d.events, d.handle in reading)]
      ensures var all := Taken(old(queues)[d.handle], d.events, d.handle in reading) == |d.events|;
              && closing == (if all then old(closing) else old(closing) + {d.handle})
              && connections == (if all then old(connections) else old(connections) - {d.client})
    {
      ghost var before, open := queues[d.handle], d.handle in reading;
      ghost var n := Taken(before, d.events, open);
      var i := 0;
      assert before + d.events[..0] == before;
      while i < |d.events|
        invariant 0 <= i <= n
        invariant queues == old(queues)[d.handle := before + d.events[..i]]
        invariant closing == old(closing) && connections == old(connections)
      {
        if d.handle !in reading || |queues[d.handle]| >= OUTBOX_CAPACITY {
          assert i == n;
          closing := closing + {d.handle};
          connections := connections - {d.client};
          return;
        }
        assert before + d.events[..i] + [d.events[i]] == before + d.events[..i + 1];
        queues := queues[d.handle := queues[d.handle] + [d.events[i]]];
        i := i + 1;
      }
    }

    /** The drain loop, under both locks. */
    method DrainTargets(targets: seq<ClientId>) returns (deliveries: seq<Delivery>)
      requires Valid()
      modifies router
      ensures IsDrained(old(router.outboxes), router.outboxes, connections, targets)
      ensures Collected(deliveries, old(router.outboxes), connections, targets)
    {
      deliveries := [];
      for i := 0 to |targets|
        invariant IsDrained(old(router.outboxes), router.outboxes, connections, targets[..i])
        invariant Collected(deliveries, old(router.outboxes), connections, targets[..i])
      {
        var c := targets[i];
        assert targets[..i + 1] == targets[..i] + [c];
        CollectNext(deliveries, old(router.outboxes), router.outboxes, connections, targets[..i], c);
        if c in connections {
          var events := router.DrainOutbox(c);
          if events != [] {
            deliveries := deliveries + [Delivery(connections[c], c, events)];
          }
        }
      }
      assert targets[..|targets|] == targets;
    }

    ghost function Wiring(): Wires
      reads this
    {
      Wires(queues, closing, connections)
    }

    /**
     Drains the targets, then delivers: each target with a handle gets its whole outbox in order, or as much as fits,
     in which case it is told to close and loses its handle. Nobody else is touched.
     */
    method FlushOutboxes(targets: seq<ClientId>)
      requires Valid()
      modifies this`queues, this`closing, this`connections, router
      ensures Valid()
      ensures IsDrained(old(router.outboxes), router.outboxes, old(connections), targets)
      ensures forall c | c in old(connections) ::
                Outcome(old(Wiring()), Wiring(), reading, c, if c in targets then old(router.outboxes)[c] else [])
      ensures connections.Keys <= old(connections).Keys
      ensures forall c | c in connections :: connections[c] == old(connections)[c]
    {
      ghost var before, w := router.outboxes, Wiring();
      var deliveries := DrainTargets(targets);
      DeliverEach(deliveries);
      FlushOutcome(w, deliveries, before, reading, targets);
    }

    /** The send loop. */
    method DeliverEach(deliveries: seq<Delivery>)
      requires forall k | 0 <= k < |deliveries| :: deliveries[k].handle in queues
      modifies this`queues, this`closing, this`connections
      ensures Wiring() == DeliverAll(old(Wiring()), deliveries, reading)
    {
      for k := 0 to |deliveries|
        invariant Wiring() == DeliverAll(old(Wiring()), deliveries[..k], reading)
      {
        assert deliveries[..k + 1][..k] == deliveries[..k];
        Deliver(deliveries[k]);
      }
      assert deliveries[..|deliveries|] == deliveries;
    }

    /** Routes one event and flushes what it queued; afterwards no client with a handle has anything waiting. */
    method RouteAndFlush(connection: ClientId, event: WireEvent) returns (r: Result<(), RouterError>)
      requires Valid() && Flushed()
      modifies this`queues, this`closing, this`connections, router
      ensures Valid() && Flushed()
      ensures r.Ok? <==> Verdict(old(router.outboxes).Keys, connection, event).Ok?
      ensures r.Err? ==> r.error == Verdict(old(router.outboxes).Keys, connection, event).error
                         && router.outboxes == old(router.outboxes) && Wiring() == old(Wiring())
      ensures r.Ok? ==> forall c | c in old(connections) ::
                Outcome(old(Wiring()), Wiring(), reading, c, Meaning(Entry(connection, event), c))
    {
      var routed := router.Route(connection, event);
      if routed.Err? {
        return Err(routed.error);
      }
      QueuedForTargets(old(router.outboxes), connections, connection, event);
      FlushOutboxes(DeliveryTargets(connection, event));
      return Ok(());
    }
  }

  /** When no deliverable client had anything waiting, routing queues the event's meaning, at targets only. */
  lemma QueuedForTargets(o: Outboxes<WireEvent>, handles: map<ClientId, nat>, connection: ClientId, event: WireEvent)
    requires Verdict(o.Keys, connection, event).Ok? && forall c | c in handles :: c in o && o[c] == []
    ensures var o' := Routed(o, connection, event, event, AckOrSelf(event));
            forall c | c in handles ::
              && c in o' && o'[c] == Meaning(Entry(connection, event), c)
              && (c !in DeliveryTargets(connection, event) ==> o'[c] == [])
  {
    forall c | c in handles
      ensures var o' := Routed(o, connection, event, event, AckOrSelf(event));
              && c in o' && o'[c] == Meaning(Entry(connection, event), c)
              && (c !in DeliveryTargets(connection, event) ==> o'[c] == [])
    {
      TargetsCoverRouting(o, connection, event, c);
    }
  }

  /** Routing appends to an outbox exactly what the event means for its client, and only to delivery targets. */
  lemma TargetsCoverRouting(o: Outboxes<WireEvent>, connection: ClientId, event: WireEvent, c: ClientId)
    requires Verdict(o.Keys, connection, event).Ok? && c in o
    ensures var o' := Routed(o, connection, event, event, AckOrSelf(event));
            && c in o' && o'[c] == o[c] + Meaning(Entry(connection, event), c)
            && (Meaning(Entry(connection, event), c) != [] <==> c in DeliveryTargets(connection, event))
  {
  }
}
