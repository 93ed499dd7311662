/** The in-memory router: one queue of outgoing events per connected client. */
module Router {
  import opened Types
  import opened Events

  datatype RouterError =
    | AlreadyConnected
    | NotConnected
    | WrongSender
    | NoSuchRecipient
    | Unsupported

  /** Queues of events, or of any items that stand for events. */
  type Outboxes<T> = map<ClientId, seq<T>>

  function RecipientFor(connection: ClientId, event: WireEvent): Result<ClientId, RouterError> {
    match event
    case PeerKey(from, to, _) => if from != connection then Err(WrongSender) else Ok(to)
    case EncryptedMessage(e) => if e.sender != connection then Err(WrongSender) else Ok(e.recipient)
    case _ => Err(Unsupported)
  }

  function AckFor(event: WireEvent): Option<WireEvent> {
    match event
    case EncryptedMessage(e) => Some(Ack(e.messageId))
    case _ => None
  }

  /** The acknowledgement, where there is one. */
  function AckOrSelf(event: WireEvent): WireEvent {
    if AckFor(event).Some? then AckFor(event).value else event
  }

  /** Where an event goes, or why it goes nowhere. */
  function Verdict(clients: set<ClientId>, connection: ClientId, event: WireEvent): (r: Result<ClientId, RouterError>)
    ensures r.Ok? ==> r.value in clients && connection in clients && Names(connection, event, r.value)
  {
    if connection !in clients then Err(NotConnected)
    else
      match RecipientFor(connection, event)
      case Err(e) => Err(e)
      case Ok(recipient) => if recipient in clients then Ok(recipient) else Err(NoSuchRecipient)
  }

  /** The event says of itself that it goes from `from` to `to`. */
  predicate Names(from: ClientId, event: WireEvent, to: ClientId) {
    || (event.PeerKey? && event.from == from && event.to == to)
    || (event.EncryptedMessage? && event.envelope.sender == from && event.envelope.recipient == to)
  }

  predicate NamesSender(event: WireEvent, from: ClientId) {
    (event.PeerKey? && event.from == from) || (event.EncryptedMessage? && event.envelope.sender == from)
  }

  /** Exactly what is routed, and the exact reason for each refusal. */
  lemma RoutedIffHonest(clients: set<ClientId>, connection: ClientId, event: WireEvent)
    ensures var r := Verdict(clients, connection, event);
            && (r.Ok? <==> connection in clients && exists to :: to in clients && Names(connection, event, to))
            && (r == Err(NotConnected) <==> connection !in clients)
            && (r == Err(Unsupported) <==> connection in clients && !event.PeerKey? && !event.EncryptedMessage?)
            && (r == Err(WrongSender) <==> connection in clients && (event.PeerKey? || event.EncryptedMessage?)
                                           && !NamesSender(event, connection))
            && (r == Err(NoSuchRecipient) <==> connection in clients && NamesSender(event, connection)
                                               && forall to | Names(connection, event, to) :: to !in clients)
  {
    if NamesSender(event, connection) {
      var to := if event.PeerKey? then event.to else event.envelope.recipient;
      assert Names(connection, event, to);
    }
  }

  function Push<T>(o: Outboxes<T>, client: ClientId, item: T): Outboxes<T>
    requires client in o
  {
    o[client := o[client] + [item]]
  }

  /** Queues the event for its recipient, then the acknowledgement, if one is due, for the sender. */
  function Routed<T>(o: Outboxes<T>, connection: ClientId, event: WireEvent, item: T, ack: T): Outboxes<T>
    requires Verdict(o.Keys, connection, event).Ok?
  {
    var delivered := Push(o, Verdict(o.Keys, connection, event).value, item);
    if AckFor(event).Some? then Push(delivered, connection, ack) else delivered
  }

  class InMemoryRouter {
    var outboxes: Outboxes<WireEvent>

    constructor ()
      ensures outboxes == map[]
    {
      outboxes := map[];
    }

    method Connect(client: ClientId) returns (r: Result<(), RouterError>)
      modifies this
      ensures r.Ok? <==> client !in old(outboxes)
      ensures outboxes == if r.Ok? then old(outboxes)[client := []] else old(outboxes)
      ensures r.Err? ==> r.error == AlreadyConnected
    {
      if client in outboxes {
        return Err(AlreadyConnected);
      }
      outboxes := outboxes[client := []];
      return Ok(());
    }

    method Disconnect(client: ClientId) returns (r: Result<(), RouterError>)
      modifies this
      ensures r.Ok? <==> client in old(outboxes)
      ensures outboxes == old(outboxes) - {client}
      ensures r.Err? ==> r.error == NotConnected && outboxes == old(outboxes)
    {
      if client in outboxes {
        outboxes := outboxes - {client};
        return Ok(());
      }
      return Err(NotConnected);
    }

    method Route(connection: ClientId, event: WireEvent) returns (r: Result<(), RouterError>)
      modifies this
      ensures r.Ok? <==> Verdict(old(outboxes).Keys, connection, event).Ok?
      ensures r.Ok? ==> outboxes == Routed(old(outboxes), connection, event, event, AckOrSelf(event))
      ensures r.Err? ==> r.error == Verdict(old(outboxes).Keys, connection, event).error && outboxes == old(outboxes)
    {
      if connection !in outboxes {
        return Err(NotConnected);
      }
      var recipient := RecipientFor(connection, event);
      if recipient.Err? {
        return Err(recipient.error);
      }
      var ack := AckFor(event);
      if recipient.value !in outboxes {
        return Err(NoSuchRecipient);
      }
      outboxes := outboxes[recipient.value := outboxes[recipient.value] + [event]];
      if ack.Some? && connection in outboxes {
        outboxes := outboxes[connection := outboxes[connection] + [ack.value]];
      }
      return Ok(());
    }

    method DrainOutbox(client: ClientId) returns (events: seq<WireEvent>)
      modifies this
      ensures client in old(outboxes) ==> events == old(outboxes)[client] && outboxes == old(outboxes)[client := []]
      ensures client !in old(outboxes) ==> events == [] && outboxes == old(outboxes)
    {
      if client in outboxes {
        events := outboxes[client];
        outboxes := outboxes[client := []];
      } else {
        events := [];
      }
    }
  }

  // ---------- the router as a view of a log ----------

  datatype Operation =
    | ConnectOp(client: ClientId)
    | DisconnectOp(client: ClientId)
    | RouteOp(connection: ClientId, event: WireEvent)
    | DrainOp(client: ClientId)

  /** An accepted event and the connection it came from. */
  datatype Entry = Entry(connection: ClientId, event: WireEvent)

  /** The router with its history: the accepted log, where each lifetime began in it, and what was drained since. */
  datatype History = History(
    outboxes: Outboxes<WireEvent>,
    log: seq<Entry>,
    began: map<ClientId, nat>,
    drained: map<ClientId, seq<WireEvent>>)

  function Apply(h: History, op: Operation): History {
    match op
    case ConnectOp(c) =>
      if c in h.outboxes then h
      else h.(outboxes := h.outboxes[c := []], began := h.began[c := |h.log|], drained := h.drained[c := []])
    case DisconnectOp(c) => h.(outboxes := h.outboxes - {c})
    case RouteOp(c, event) =>
      if Verdict(h.outboxes.Keys, c, event).Err? then h
      else h.(outboxes := Routed(h.outboxes, c, event, event, AckOrSelf(event)),
              log := h.log + [Entry(c, event)])
    case DrainOp(c) =>
      if c !in h.outboxes then h
      else h.(outboxes := h.outboxes[c := []],
              drained := h.drained[c := (if c in h.drained then h.drained[c] else []) + h.outboxes[c]])
  }

  function Replay(ops: seq<Operation>): History {
    if ops == [] then History(map[], [], map[], map[]) else Apply(Replay(ops[..|ops| - 1]), ops[|ops| - 1])
  }

  /** What one accepted event means for a client: the event if it is addressed to it, its Ack if it sent it. */
  function Meaning(e: Entry, client: ClientId): seq<WireEvent> {
    match e.event
    case PeerKey(_, to, _) => if to == client then [e.event] else []
    case EncryptedMessage(envelope) =>
      (if envelope.recipient == client then [e.event] else [])
      + (if e.connection == client then [Ack(envelope.messageId)] else [])
    case _ => []
  }

  /** The log as one client sees it. */
  function View(log: seq<Entry>, client: ClientId): seq<WireEvent> {
    if log == [] then [] else View(log[..|log| - 1], client) + Meaning(log[|log| - 1], client)
  }

  ghost predicate Faithful(h: History, c: ClientId)
    requires c in h.outboxes
  {
    && c in h.began && c in h.drained && h.began[c] <= |h.log|
    && h.drained[c] + h.outboxes[c] == View(h.log[h.began[c]..], c)
  }

  lemma RouteIsFaithful(h: History, connection: ClientId, event: WireEvent, c: ClientId)
    requires c in h.outboxes && Faithful(h, c)
    requires Verdict(h.outboxes.Keys, connection, event).Ok?
    ensures Faithful(Apply(h, RouteOp(connection, event)), c)
  {
    var h' := Apply(h, RouteOp(connection, event));
    var entry := Entry(connection, event);
    var start := h.began[c];
    assert h'.log[start..] == h.log[start..] + [entry];
    assert h'.log[start..][..|h'.log[start..]| - 1] == h.log[start..];
    assert h'.outboxes[c] == h.outboxes[c] + Meaning(entry, c);
    assert h.drained[c] + h'.outboxes[c] == h.drained[c] + h.outboxes[c] + Meaning(entry, c);
  }

  lemma OperationIsFaithful(h: History, op: Operation, c: ClientId)
    requires forall d | d in h.outboxes :: Faithful(h, d)
    requires c in Apply(h, op).outboxes
    ensures Faithful(Apply(h, op), c)
  {
    match op
    case ConnectOp(d) =>
      if d == c && c !in h.outboxes {
        assert h.log[|h.log|..] == [];
      }
    case DisconnectOp(d) =>
    case RouteOp(connection, event) =>
      if Verdict(h.outboxes.Keys, connection, event).Ok? {
        RouteIsFaithful(h, connection, event, c);
      }
    case DrainOp(d) =>
      DrainIsFaithful(h, d, c);
  }

  lemma DrainIsFaithful(h: History, d: ClientId, c: ClientId)
    requires (forall e | e in h.outboxes :: Faithful(h, e)) && c in Apply(h, DrainOp(d)).outboxes
    ensures Faithful(Apply(h, DrainOp(d)), c)
  {
    if d == c {
      assert h.drained[c] + h.outboxes[c] + [] == View(h.log[h.began[c]..], c);
    }
  }

  /** For every live connection, what was drained plus what is queued is exactly the log since it connected. */
  lemma {:induction false} RouterRefinesLog(ops: seq<Operation>)
    ensures forall c | c in Replay(ops).outboxes :: Faithful(Replay(ops), c)
  {
    if ops != [] {
      var front := ops[..|ops| - 1];
      RouterRefinesLog(front);
      forall c | c in Replay(ops).outboxes
        ensures Faithful(Replay(ops), c)
      {
        OperationIsFaithful(Replay(front), ops[|ops| - 1], c);
      }
    }
  }

  // ---------- who wrote what ----------

  /** Every accepted event names the connection it came from as its author. */
  predicate Signed(log: seq<Entry>) {
    forall i | 0 <= i < |log| :: NamesSender(log[i].event, log[i].connection)
  }

  lemma ApplyKeepsSigned(h: History, op: Operation)
    requires Signed(h.log)
    ensures Signed(Apply(h, op).log)
  {
  }

  lemma {:induction false} LogIsSigned(ops: seq<Operation>)
    ensures Signed(Replay(ops).log)
  {
    if ops != [] {
      LogIsSigned(ops[..|ops| - 1]);
      ApplyKeepsSigned(Replay(ops[..|ops| - 1]), ops[|ops| - 1]);
    }
  }

  /** `e` was accepted from its author's own connection for `c`, or acknowledges what `c` itself sent. */
  ghost predicate HasSource(log: seq<Entry>, c: ClientId, e: WireEvent) {
    exists j | 0 <= j < |log| ::
      || (log[j].event == e && Names(log[j].connection, e, c))
      || (e.Ack? && log[j].connection == c && log[j].event.EncryptedMessage?
          && log[j].event.envelope.sender == c && log[j].event.envelope.messageId == e.messageId)
  }

  lemma HasSourceGrows(log: seq<Entry>, entry: Entry, c: ClientId, e: WireEvent)
    requires HasSource(log, c, e)
    ensures HasSource(log + [entry], c, e)
  {
    var j :| 0 <= j < |log| &&
             (|| (log[j].event == e && Names(log[j].connection, e, c))
              || (e.Ack? && log[j].connection == c && log[j].event.EncryptedMessage?
                  && log[j].event.envelope.sender == c && log[j].event.envelope.messageId == e.messageId));
    assert (log + [entry])[j] == log[j];
  }

  lemma {:induction false} ViewHasSources(log: seq<Entry>, c: ClientId, i: nat)
    requires Signed(log) && i < |View(log, c)|
    ensures HasSource(log, c, View(log, c)[i])
  {
    var front, last := log[..|log| - 1], log[|log| - 1];
    assert log == front + [last];
    if i < |View(front, c)| {
      ViewHasSources(front, c, i);
      HasSourceGrows(front, last, c, View(log, c)[i]);
    } else {
      assert log[|log| - 1] == last && NamesSender(last.event, last.connection);
    }
  }

  lemma {:induction false} ViewOfSuffix(log: seq<Entry>, from: nat, c: ClientId, e: WireEvent)
    requires from <= |log| && HasSource(log[from..], c, e)
    ensures HasSource(log, c, e)
  {
    var j :| 0 <= j < |log[from..]| &&
             (|| (log[from..][j].event == e && Names(log[from..][j].connection, e, c))
              || (e.Ack? && log[from..][j].connection == c && log[from..][j].event.EncryptedMessage?
                  && log[from..][j].event.envelope.sender == c
                  && log[from..][j].event.envelope.messageId == e.messageId));
    assert log[from + j] == log[from..][j];
  }

  /** Over every sequence of calls: nothing is ever queued for or drained by a client under a forged sender. */
  lemma NothingIsForged(ops: seq<Operation>, c: ClientId, i: nat)
    requires c in Replay(ops).outboxes
    requires c in Replay(ops).drained && i < |Replay(ops).drained[c] + Replay(ops).outboxes[c]|
    ensures HasSource(Replay(ops).log, c, (Replay(ops).drained[c] + Replay(ops).outboxes[c])[i])
  {
    var h := Replay(ops);
    RouterRefinesLog(ops);
    LogIsSigned(ops);
    assert Faithful(h, c);
    ViewHasSources(h.log[h.began[c]..], c, i);
    ViewOfSuffix(h.log, h.began[c], c, (h.drained[c] + h.outboxes[c])[i]);
  }
}
