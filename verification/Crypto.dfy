/** One end of an encrypted conversation: sealing, opening, replay tracking and key rotation. */
module Crypto {
  import opened Types
  import opened Contexts
  import opened Events

  const U64_MAX: nat := 0xFFFF_FFFF_FFFF_FFFF

  datatype CryptoError =
    | AuthenticationFailed
    | UnexpectedPeer
    | UnknownEpoch
    | NonceExhausted
    | RekeyAlreadyInProgress
    | UnknownRekeyId
    | NoStagedRekey
    | DuplicateNonce

  datatype Pending = Pending(rekeyId: RekeyId, ephemeral: nat)

  /** The contents of a session, as a value. */
  datatype Session = Session(
    master: Master,
    info: seq<byte>,
    localId: ClientId,
    peerId: ClientId,
    inbound: map<nat, set<Nonce>>,
    prefix: Digest,
    counter: nat,
    epoch: nat,
    pending: Option<Pending>,
    staged: Option<Master>)

  /** An operation's new session contents together with what it returns. */
  datatype Step<+T> = Step(next: Session, result: Result<T, CryptoError>)

  function Fresh(secret: nat, peerKey: PublicKey, localId: ClientId, peerId: ClientId): Session {
    Session(Root(DiffieHellman(secret, peerKey)), SessionInfo(localId, peerId), localId, peerId,
            map[], Digest(NoncePrefixInput(localId, peerId)), 0, 0, None, None)
  }

  function CipherFor(s: Session, epoch: nat): Key {
    SessionKey(s.master, s.info, epoch)
  }

  predicate InProgress(s: Session) {
    s.pending.Some? || s.staged.Some?
  }

  function SealedUnder(s: Session, messageId: MessageId, payload: SessionPayload): Envelope {
    var nonce := Nonce(s.prefix, s.counter + 1);
    Envelope(s.localId, s.peerId, messageId, s.epoch, nonce,
             Sealed(CipherFor(s, s.epoch), nonce, Aad(s.localId, s.peerId, messageId, s.epoch), payload))
  }

  /** `encrypt`: takes the next counter value, or refuses when there is none left. */
  function Seal(s: Session, messageId: MessageId, payload: SessionPayload): Step<Envelope> {
    if s.counter >= U64_MAX then Step(s, Err(NonceExhausted))
    else Step(s.(counter := s.counter + 1), Ok(SealedUnder(s, messageId, payload)))
  }

  predicate InWindow(s: Session, epoch: nat) {
    epoch == s.epoch || (s.epoch > 0 && epoch + 1 == s.epoch)
  }

  function Seen(s: Session, epoch: nat): set<Nonce> {
    if epoch in s.inbound then s.inbound[epoch] else {}
  }

  function Unlock(s: Session, e: Envelope): Option<SessionPayload> {
    AeadOpen(CipherFor(s, e.epoch), e.nonce, Aad(e.sender, e.recipient, e.messageId, e.epoch), e.ciphertext)
  }

  /** `decrypt`: peer check, epoch window, authentication, then replay. Only success changes the session. */
  function Open(s: Session, e: Envelope): Step<SessionPayload> {
    if e.sender != s.peerId || e.recipient != s.localId then Step(s, Err(UnexpectedPeer))
    else if !InWindow(s, e.epoch) then Step(s, Err(UnknownEpoch))
    else match Unlock(s, e)
      case None => Step(s, Err(AuthenticationFailed))
      case Some(payload) =>
        if e.nonce in Seen(s, e.epoch) then Step(s, Err(DuplicateNonce))
        else Step(s.(inbound := s.inbound[e.epoch := Seen(s, e.epoch) + {e.nonce}]), Ok(payload))
  }

  function StartRekey(s: Session, rekeyId: RekeyId, ephemeral: nat): Step<SessionPayload> {
    if s.pending.Some? then Step(s, Err(RekeyAlreadyInProgress))
    else Step(s.(pending := Some(Pending(rekeyId, ephemeral))), Ok(RekeyRequest(rekeyId, PublicKey(ephemeral))))
  }

  /** `apply_next_master`: one rotation, keeping only the replay sets of the last two epochs. */
  function Rotate(s: Session, next: Master): Session {
    s.(master := next, epoch := s.epoch + 1, inbound := Retained(s.inbound, s.epoch + 1))
  }

  function Retained<T>(m: map<nat, T>, epoch: nat): map<nat, T> {
    map g | g in m && g + 1 >= epoch :: m[g]
  }

  function HandlePayload(s: Session, payload: SessionPayload, ephemeral: nat): Step<Option<SessionPayload>> {
    match payload
    case Chat(_) => Step(s, Ok(None))
    case RekeyRequest(id, peer) =>
      if InProgress(s) then Step(s, Err(RekeyAlreadyInProgress))
      else Step(s.(staged := Some(Next(s.master, DiffieHellman(ephemeral, peer)))),
                Ok(Some(RekeyResponse(id, PublicKey(ephemeral)))))
    case RekeyResponse(id, peer) =>
      if s.pending.None? || s.pending.value.rekeyId != id then Step(s, Err(UnknownRekeyId))
      else Step(Rotate(s, Next(s.master, DiffieHellman(s.pending.value.ephemeral, peer))).(pending := None),
                Ok(None))
  }

  function CommitStaged(s: Session): Step<()> {
    match s.staged
    case None => Step(s, Err(NoStagedRekey))
    case Some(next) => Step(Rotate(s, next).(staged := None), Ok(()))
  }
}
