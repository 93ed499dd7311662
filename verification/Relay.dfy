/**
 The relay under concurrency. Each connection has a task; every step below is one critical section of one task
 (or one move of its writer), and steps of different tasks interleave freely.
 */
module Relay {
  import opened Types
  import opened Events
  import opened Router

  const OUTBOX_CAPACITY: nat := 256

  /** One queued instance of an event: its serial number, the event, and the client it was queued for. */
  datatype Item = Item(n: nat, event: WireEvent, client: ClientId)

  /** What one flush drained for one connection, and where in its channel each item sent so far landed. */
  datatype Batch = Batch(conn: nat, client: ClientId, items: seq<Item>, placed: seq<nat>, cut: bool)

  datatype Phase =
    | Greeted                                              // hello read, not registered
    | Joined                                               // in the router, handle not yet published
    | Serving                                              // waiting for the next message
    | Accepted(targets: seq<ClientId>)                     // event routed, flush not yet begun
    | Refused(event: WireEvent, error: RouterError)        // event rejected, report not yet sent
    | Sending(work: seq<nat>)                              // drained batches still to send
    | Evicting(client: ClientId, conn: nat, work: seq<nat>) // told a slow connection to close, handle not yet removed
    | Leaving                                              // message loop over
    | Withdrawn                                            // handle removed, still in the router
    | Gone

  datatype Task = Task(client: ClientId, phase: Phase)

  /** A connection's bounded event queue: everything ever put in, how much the writer took, whether it still reads. */
  datatype Channel = Channel(items: seq<Item>, taken: nat, reading: bool)

  datatype State = State(
    outboxes: Outboxes<Item>,
    connections: map<ClientId, nat>,
    tasks: map<nat, Task>,
    channels: map<nat, Channel>,
    batches: seq<Batch>,
    told: set<nat>,       // connections sent a close signal
    removed: seq<Item>,   // items dropped with their outbox
    log: seq<Item>)       // every instance ever queued, by serial number

  const EMPTY: State := State(map[], map[], map[], map[], [], {}, [], [])

  function DeliveryTargets(connection: ClientId, event: WireEvent): seq<ClientId> {
    match event
    case PeerKey(_, to, _) => [to]
    case EncryptedMessage(e) => [e.recipient, connection]
    case _ => []
  }

  predicate ShouldReport(event: WireEvent, error: RouterError) {
    !(event.PeerKey? && error == NoSuchRecipient)
  }

  predicate HasRoom(ch: Channel) {
    ch.reading && |ch.items| < ch.taken + OUTBOX_CAPACITY
  }

  // ---------- the steps ----------

  datatype Action =
    | Accept(t: nat, client: ClientId)
    | Join(t: nat)
    | Publish(t: nat)
    | Route(t: nat, event: WireEvent)
    | Report(t: nat, message: string)
    | Flush(t: nat)
    | Send(t: nat)
    | Evict(t: nat)
    | End(t: nat)
    | Withdraw(t: nat)
    | Disconnect(t: nat)
    | WriterTakes(t: nat)
    | WriterStops(t: nat)

  predicate Enabled(s: State, a: Action) {
    if a.Accept? then a.t !in s.tasks
    else if a.t !in s.tasks || a.t !in s.channels then false
    else
      var phase := s.tasks[a.t].phase;
      match a
      case Join(_) => phase.Greeted?
      case Publish(_) => phase.Joined?
      case Route(_, _) => phase.Serving?
      case Report(_, _) => phase.Refused?
      case Flush(_) => phase.Accepted?
      case Send(_) => phase.Sending? && (phase.work == [] || SendOk(s, phase.work[0]))
      case Evict(_) => phase.Evicting?
      case End(_) => phase.Serving?
      case Withdraw(_) => phase.Leaving?
      case Disconnect(_) => phase.Withdrawn?
      case WriterTakes(_) => s.channels[a.t].reading && s.channels[a.t].taken < |s.channels[a.t].items|
      case WriterStops(_) => true
      case Accept(_, _) => false
  }

  predicate SendOk(s: State, b: nat) {
    b < |s.batches| && |s.batches[b].placed| <= |s.batches[b].items| && s.batches[b].conn in s.channels
  }

  function In(s: State, t: nat, phase: Phase): State
    requires t in s.tasks
  {
    s.(tasks := s.tasks[t := s.tasks[t].(phase := phase)])
  }

  function PutIn(s: State, conn: nat, item: Item): State
    requires conn in s.channels
  {
    s.(channels := s.channels[conn := s.channels[conn].(items := s.channels[conn].items + [item])])
  }

  /** `route`: the event for its recipient, then the Ack for the sender. */
  function RouteStep(s: State, t: nat, event: WireEvent): State
    requires t in s.tasks
  {
    var client := s.tasks[t].client;
    match Verdict(s.outboxes.Keys, client, event)
    case Err(error) => In(s, t, Refused(event, error))
    case Ok(recipient) =>
      var item := Item(|s.log|, event, recipient);
      var ack := Item(|s.log| + 1, AckOrSelf(event), client);
      In(s.(outboxes := Routed(s.outboxes, client, event, item, ack),
            log := if AckFor(event).Some? then s.log + [item] + [ack] else s.log + [item]),
         t, Accepted(DeliveryTargets(client, event)))
  }

  function CodeOf(error: RouterError): RelayErrorCode {
    match error
    case AlreadyConnected => ClientAlreadyConnected
    case NotConnected => ClientNotConnected
    case WrongSender => SenderMismatch
    case NoSuchRecipient => UnknownRecipient
    case Unsupported => UnsupportedEvent
  }

  function ReportStep(s: State, t: nat, message: string): State
    requires t in s.tasks && t in s.channels && s.tasks[t].phase.Refused?
  {
    var Refused(event, error) := s.tasks[t].phase;
    var item := Item(|s.log|, Error(CodeOf(error), message), s.tasks[t].client);
    var told := if ShouldReport(event, error) && HasRoom(s.channels[t])
                then PutIn(s, t, item).(log := s.log + [item]) else s;
    In(told, t, Serving)
  }

  /** One turn of the drain loop: a client with a handle and a non-empty outbox yields a batch. */
  function DrainOne(s: State, client: ClientId): State {
    if client in s.connections && client in s.outboxes && s.outboxes[client] != [] then
      s.(outboxes := s.outboxes[client := []],
         batches := s.batches + [Batch(s.connections[client], client, s.outboxes[client], [], false)])
    else s
  }

  function DrainAll(s: State, targets: seq<ClientId>): (r: State)
    ensures s.batches <= r.batches && r.outboxes.Keys == s.outboxes.Keys
    ensures r == s.(outboxes := r.outboxes, batches := r.batches)
    decreases |targets|
  {
    if targets == [] then s else DrainAll(DrainOne(s, targets[0]), targets[1..])
  }

  function Range(lo: nat, hi: nat): seq<nat>
    requires lo <= hi
  {
    seq(hi - lo, i requires 0 <= i => lo + i)
  }

  /** `flush_outboxes`, first part: drain every target under both locks. */
  function FlushStep(s: State, t: nat): State
    requires t in s.tasks && s.tasks[t].phase.Accepted?
  {
    var drained := DrainAll(s, s.tasks[t].phase.targets);
    In(drained, t, Sending(Range(|s.batches|, |drained.batches|)))
  }

  /** `flush_outboxes`, second part: put the next item into the channel, or tell the connection to close. */
  function SendStep(s: State, t: nat): State
    requires t in s.tasks && s.tasks[t].phase.Sending?
    requires s.tasks[t].phase.work == [] || SendOk(s, s.tasks[t].phase.work[0])
  {
    var work := s.tasks[t].phase.work;
    if work == [] then In(s, t, Serving)
    else
      var b := work[0];
      var batch := s.batches[b];
      if |batch.placed| == |batch.items| then In(s, t, Sending(work[1..]))
      else if HasRoom(s.channels[batch.conn]) then
        PutIn(s, batch.conn, batch.items[|batch.placed|])
          .(batches := s.batches[b := batch.(placed := batch.placed + [|s.channels[batch.conn].items|])])
      else
        In(s.(told := s.told + {batch.conn}, batches := s.batches[b := batch.(cut := true)]),
           t, Evicting(batch.client, batch.conn, work[1..]))
  }

  function DisconnectStep(s: State, t: nat): State
    requires t in s.tasks
  {
    var client := s.tasks[t].client;
    In(s.(outboxes := s.outboxes - {client},
          removed := s.removed + (if client in s.outboxes then s.outboxes[client] else [])), t, Gone)
  }

  function Do(s: State, a: Action): State
    requires Enabled(s, a)
  {
    match a
    case Accept(t, client) =>
      s.(tasks := s.tasks[t := Task(client, Greeted)], channels := s.channels[t := Channel([], 0, true)])
    case Join(t) =>
      var client := s.tasks[t].client;
      if client in s.outboxes then In(s, t, Gone) else In(s.(outboxes := s.outboxes[client := []]), t, Joined)
    case Publish(t) => In(s.(connections := s.connections[s.tasks[t].client := t]), t, Serving)
    case Route(t, event) => RouteStep(s, t, event)
    case Report(t, message) => ReportStep(s, t, message)
    case Flush(t) => FlushStep(s, t)
    case Send(t) => SendStep(s, t)
    case Evict(t) => In(s.(connections := s.connections - {s.tasks[t].phase.client}), t, Sending(s.tasks[t].phase.work))
    case End(t) => In(s, t, Leaving)
    case Withdraw(t) => In(s.(connections := s.connections - {s.tasks[t].client}), t, Withdrawn)
    case Disconnect(t) => DisconnectStep(s, t)
    case WriterTakes(t) => s.(channels := s.channels[t := s.channels[t].(taken := s.channels[t].taken + 1)])
    case WriterStops(t) => s.(channels := s.channels[t := s.channels[t].(reading := false)])
  }

  predicate EnabledRun(s: State, actions: seq<Action>)
    decreases |actions|
  {
    actions == [] || (Enabled(s, actions[0]) && EnabledRun(Do(s, actions[0]), actions[1..]))
  }

  function After(s: State, actions: seq<Action>): State
    requires EnabledRun(s, actions)
    decreases |actions|
  {
    if actions == [] then s else After(Do(s, actions[0]), actions[1..])
  }

  lemma {:induction false} RunExtends(s: State, actions: seq<Action>, a: Action)
    requires EnabledRun(s, actions) && Enabled(After(s, actions), a)
    ensures EnabledRun(s, actions + [a]) && After(s, actions + [a]) == Do(After(s, actions), a)
    decreases |actions|
  {
    if actions == [] {
      assert [a][1..] == [];
      assert actions + [a] == [a];
      assert EnabledRun(Do(s, a), []);
    } else {
      assert (actions + [a])[1..] == actions[1..] + [a];
      RunExtends(Do(s, actions[0]), actions[1..], a);
    }
  }
}
