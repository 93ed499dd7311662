/** The client-side conversation: key acceptance, chat, automatic rekey and handshake replies. */
module Clients {
  import opened Types
  import opened Events
  import opened Crypto

  datatype InboundEvent = ChatReceived(text: string) | RekeyCompleted(epoch: nat)

  datatype InboundOutcome = InboundOutcome(event: Option<InboundEvent>, reply: Option<WireEvent>)

  const NOTHING: InboundOutcome := InboundOutcome(None, None)

  datatype ClientError =
    | MissingPeerKey
    | UnexpectedPeerKey
    | PeerKeyFingerprintMismatch
    | UnexpectedSessionPayload
    | CryptoFailure(error: CryptoError)

  /** A key's fingerprint, as a collision-free hash. */
  datatype Fingerprint = Fingerprint(key: PublicKey)

  /** The random values one call may draw. */
  datatype Draw = Draw(messageId: MessageId, secondMessageId: MessageId, rekeyId: RekeyId, ephemeral: nat)

  datatype Client = Client(
    localId: ClientId,
    peerId: ClientId,
    secret: nat,
    peerKey: Option<PublicKey>,
    crypto: Option<Session>,
    pin: Option<Fingerprint>,
    autoRekeyAfter: Option<nat>,
    outboundSinceRekey: nat)

  datatype ClientStep<+T> = ClientStep(next: Client, result: Result<T, ClientError>)

  function NewClient(localId: ClientId, peerId: ClientId, secret: nat): Client {
    Client(localId, peerId, secret, None, None, None, None, 0)
  }

  predicate IsReady(c: Client) { c.crypto.Some? }

  function PeerKeyEvent(c: Client): WireEvent {
    PeerKey(c.localId, c.peerId, PublicKey(c.secret))
  }

  function EncryptPayload(c: Client, payload: SessionPayload, messageId: MessageId): ClientStep<WireEvent> {
    match c.crypto
    case None => ClientStep(c, Err(MissingPeerKey))
    case Some(s) =>
      var sealed := Seal(s, messageId, payload);
      ClientStep(c.(crypto := Some(sealed.next)),
                 match sealed.result
                 case Err(e) => Err(CryptoFailure(e))
                 case Ok(envelope) => Ok(EncryptedMessage(envelope)))
  }

  function BeginRekey(c: Client, messageId: MessageId, rekeyId: RekeyId, ephemeral: nat): ClientStep<WireEvent> {
    match c.crypto
    case None => ClientStep(c, Err(MissingPeerKey))
    case Some(s) =>
      var started := StartRekey(s, rekeyId, ephemeral);
      match started.result
      case Err(e) => ClientStep(c, Err(CryptoFailure(e)))
      case Ok(request) => EncryptPayload(c.(crypto := Some(started.next)), request, messageId)
  }

  /** Whether sending one more line makes an automatic rekey due. */
  predicate RekeyDue(c: Client) {
    c.autoRekeyAfter.Some? && c.outboundSinceRekey + 1 >= c.autoRekeyAfter.value
    && !(c.crypto.Some? && InProgress(c.crypto.value))
  }

  function EncryptLine(c: Client, line: string, draw: Draw): ClientStep<seq<WireEvent>> {
    var chat := EncryptPayload(c, Chat(line), draw.messageId);
    match chat.result
    case Err(e) => ClientStep(chat.next, Err(e))
    case Ok(event) =>
      if c.autoRekeyAfter.None? then ClientStep(chat.next, Ok([event])) else CountLine(chat.next, event, draw)
  }

  /** Counts a sealed line, and appends a request when the count is due and no handshake is in progress. */
  function CountLine(c: Client, chat: WireEvent, draw: Draw): ClientStep<seq<WireEvent>> {
    var counted := c.(outboundSinceRekey := c.outboundSinceRekey + 1);
    if !RekeyDue(c) then ClientStep(counted, Ok([chat]))
    else
      var request := BeginRekey(counted, draw.secondMessageId, draw.rekeyId, draw.ephemeral);
      match request.result
      case Err(e) => ClientStep(request.next, Err(e))
      case Ok(second) => ClientStep(request.next, Ok([chat, second]))
  }

  /** Answers a rekey request: stage, seal the reply at the old epoch, then commit. */
  function AnswerRequest(c: Client, s: Session, request: SessionPayload, draw: Draw): ClientStep<InboundOutcome> {
    var staged := HandlePayload(s, request, draw.ephemeral);
    match staged.result
    case Err(e) => ClientStep(c.(crypto := Some(staged.next)), Err(CryptoFailure(e)))
    case Ok(None) => ClientStep(c.(crypto := Some(staged.next)), Err(UnexpectedSessionPayload))
    case Ok(Some(reply)) =>
      var sealed := Seal(staged.next, draw.messageId, reply);
      match sealed.result
      case Err(e) => ClientStep(c.(crypto := Some(sealed.next)), Err(CryptoFailure(e)))
      case Ok(envelope) =>
        var committed := CommitStaged(sealed.next);
        match committed.result
        case Err(e) => ClientStep(c.(crypto := Some(committed.next)), Err(CryptoFailure(e)))
        case Ok(_) => ClientStep(c.(crypto := Some(committed.next)),
                                 Ok(InboundOutcome(None, Some(EncryptedMessage(envelope)))))
  }

  /** Completes the pending handshake and restarts the automatic count. */
  function FinishRekey(c: Client, s: Session, response: SessionPayload, draw: Draw): ClientStep<InboundOutcome> {
    var done := HandlePayload(s, response, draw.ephemeral);
    match done.result
    case Err(e) => ClientStep(c.(crypto := Some(done.next)), Err(CryptoFailure(e)))
    case Ok(_) => ClientStep(c.(crypto := Some(done.next), outboundSinceRekey := 0),
                             Ok(InboundOutcome(Some(RekeyCompleted(done.next.epoch)), None)))
  }

  function HandleEncrypted(c: Client, e: Envelope, draw: Draw): ClientStep<InboundOutcome> {
    if c.crypto.None? then ClientStep(c, Err(MissingPeerKey))
    else
      var unsealed := Open(c.crypto.value, e);
      match unsealed.result
      case Err(error) => ClientStep(c, Err(CryptoFailure(error)))
      case Ok(payload) => HandleOpened(c, unsealed.next, payload, draw)
  }

  function HandleOpened(c: Client, s: Session, payload: SessionPayload, draw: Draw): ClientStep<InboundOutcome> {
    match payload
    case Chat(text) => ClientStep(c.(crypto := Some(s)), Ok(InboundOutcome(Some(ChatReceived(text)), None)))
    case RekeyRequest(_, _) => AnswerRequest(c, s, payload, draw)
    case RekeyResponse(_, _) => FinishRekey(c, s, payload, draw)
  }

  function HandleEvent(c: Client, event: WireEvent, draw: Draw): ClientStep<InboundOutcome> {
    match event
    case PeerKey(from, to, key) =>
      if from != c.peerId || to != c.localId then ClientStep(c, Err(UnexpectedPeerKey))
      else if c.peerKey.Some? then
        ClientStep(c, if c.peerKey.value == key then Ok(NOTHING) else Err(UnexpectedPeerKey))
      else if c.pin.Some? && Fingerprint(key) != c.pin.value then ClientStep(c, Err(PeerKeyFingerprintMismatch))
      else ClientStep(c.(peerKey := Some(key), crypto := Some(Fresh(c.secret, key, c.localId, c.peerId))),
                      Ok(NOTHING))
    case EncryptedMessage(e) => HandleEncrypted(c, e, draw)
    case ClientHello(_, _) => ClientStep(c, Ok(NOTHING))
    case Ack(_) => ClientStep(c, Ok(NOTHING))
    case Error(_, _) => ClientStep(c, Ok(NOTHING))
  }
}
