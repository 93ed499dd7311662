/** A client's events at the relay: none is refused as forged, and the Ack of a line names that line. */
module EndToEnd {
  import opened Types
  import opened Events
  import opened Crypto
  import opened Clients
  import opened Router
  import ClientRuns

  /** The event is from the client to its peer. */
  predicate FromClient(c: Client, event: WireEvent) {
    Names(c.localId, event, c.peerId)
  }

  /** Everything the client hands to the network in a call. */
  function Emitted(c: Client, call: ClientRuns.Call): seq<WireEvent> {
    match call
    case LineCall(text, draw) =>
      var r := EncryptLine(c, text, draw).result; if r.Ok? then r.value else []
    case RekeyCall(draw) =>
      var r := BeginRekey(c, draw.messageId, draw.rekeyId, draw.ephemeral).result; if r.Ok? then [r.value] else []
    case EventCall(event, draw) =>
      var r := HandleEvent(c, event, draw).result;
      if r.Ok? && r.value.reply.Some? then [r.value.reply.value] else []
  }

  /** The session speaks for the client. */
  predicate SpeaksFor(c: Client) {
    c.crypto.Some? ==> c.crypto.value.localId == c.localId && c.crypto.value.peerId == c.peerId
  }

  lemma LineFromClient(c: Client, text: string, draw: Draw)
    requires SpeaksFor(c)
    ensures var r := EncryptLine(c, text, draw).result;
            r.Ok? ==> forall i | 0 <= i < |r.value| :: FromClient(c, r.value[i])
  {
  }

  lemma ReplyFromClient(c: Client, s: Session, payload: SessionPayload, draw: Draw)
    requires s.localId == c.localId && s.peerId == c.peerId
    ensures var r := HandleOpened(c, s, payload, draw).result;
            r.Ok? && r.value.reply.Some? ==> FromClient(c, r.value.reply.value)
  {
  }

  lemma EmittedFromClient(c: Client, call: ClientRuns.Call)
    requires SpeaksFor(c)
    ensures forall i | 0 <= i < |Emitted(c, call)| :: FromClient(c, Emitted(c, call)[i])
  {
    match call
    case LineCall(text, draw) => LineFromClient(c, text, draw);
    case RekeyCall(_) =>
    case EventCall(event, draw) =>
      if event.EncryptedMessage? && c.crypto.Some? && Open(c.crypto.value, event.envelope).result.Ok? {
        var unsealed := Open(c.crypto.value, event.envelope);
        ReplyFromClient(c, unsealed.next, unsealed.result.value, draw);
      }
  }

  /**
   After any history, whatever a client announces or emits is routed to its peer if and only if both are connected; it
   is never refused for its sender or its kind.
   */
  lemma EmittedIsRouted(c: Client, calls: seq<ClientRuns.Call>, call: ClientRuns.Call, i: nat, clients: set<ClientId>)
    requires ClientRuns.Created(c) && i < |Emitted(ClientRuns.Run(c, calls), call)|
    ensures var event := Emitted(ClientRuns.Run(c, calls), call)[i];
            Verdict(clients, c.localId, event)
            == (if c.localId !in clients then Err(NotConnected)
                else if c.peerId !in clients then Err(NoSuchRecipient)
                else Ok(c.peerId))
    ensures Verdict(clients, c.localId, PeerKeyEvent(ClientRuns.Run(c, calls)))
            == (if c.localId !in clients then Err(NotConnected)
                else if c.peerId !in clients then Err(NoSuchRecipient)
                else Ok(c.peerId))
  {
    var d := ClientRuns.Run(c, calls);
    ClientRuns.RunKeepsKeyed(c, calls);
    ClientRuns.ClientStaysBound(c, calls);
    EmittedFromClient(d, call);
    assert FromClient(d, Emitted(d, call)[i]);
    RoutedIffHonest(clients, c.localId, Emitted(d, call)[i]);
  }

  /**
   After any history, a line that is sealed means for the peer that very envelope, and for its sender the Ack of the
   message id drawn for the line.
   */
  lemma AckNamesTheLine(c: Client, calls: seq<ClientRuns.Call>, text: string, draw: Draw)
    requires ClientRuns.Created(c) && c.localId != c.peerId
    requires EncryptLine(ClientRuns.Run(c, calls), text, draw).result.Ok?
    ensures var sent := EncryptLine(ClientRuns.Run(c, calls), text, draw).result.value;
            && sent != []
            && Meaning(Entry(c.localId, sent[0]), c.localId) == [Ack(draw.messageId)]
            && Meaning(Entry(c.localId, sent[0]), c.peerId) == [sent[0]]
            && (|sent| == 2 ==> Meaning(Entry(c.localId, sent[1]), c.localId) == [Ack(draw.secondMessageId)])
  {
    var d := ClientRuns.Run(c, calls);
    ClientRuns.RunKeepsKeyed(c, calls);
    ClientRuns.ClientStaysBound(c, calls);
    ClientRuns.LineOutcome(c, calls, text, draw);
    LineFromClient(d, text, draw);
  }
}
