/**
 Symbolic cryptography and the protocol's message types.

 A key agreement result is an unordered pair of secrets, key derivation and the prefix hash are free
 constructors, and a sealed ciphertext opens only under the very key, nonce and associated data it was
 sealed with.
 */
module Events {
  import opened Types
  import opened Contexts

  // ---------- secrets ----------

  datatype PublicKey = PublicKey(secret: nat)

  /** An X25519 result: the two secrets, without an order. */
  datatype Shared = Shared(lo: nat, hi: nat)

  function DiffieHellman(secret: nat, peer: PublicKey): Shared {
    if secret <= peer.secret then Shared(secret, peer.secret) else Shared(peer.secret, secret)
  }

  /** The chained master secret: the long-term agreement, extended by one fresh agreement per rotation. */
  datatype Master = Root(dh: Shared) | Next(prev: Master, dh: Shared)

  /** Number of rotations behind a master. */
  function Depth(m: Master): nat {
    match m
    case Root(_) => 0
    case Next(prev, _) => 1 + Depth(prev)
  }

  /** The long-term agreement a master chain starts from. */
  function RootOf(m: Master): Shared {
    match m
    case Root(dh) => dh
    case Next(prev, _) => RootOf(prev)
  }

  /** The master `k` rotations ago (the root if there were fewer). */
  function Back(m: Master, k: nat): Master {
    if k == 0 || m.Root? then m else Back(m.prev, k - 1)
  }

  lemma {:induction false} BackFacts(m: Master, k: nat)
    requires k <= Depth(m)
    ensures Depth(Back(m, k)) == Depth(m) - k
    ensures RootOf(Back(m, k)) == RootOf(m)
  {
    if k > 0 {
      BackFacts(m.prev, k - 1);
    }
  }

  // ---------- sealed messages ----------

  /** HKDF output: determined by the master, the session info and the epoch (see `Contexts.KeyInfo`). */
  datatype Key = SessionKey(master: Master, info: seq<byte>, epoch: nat)

  /** The nonce prefix as a collision-free hash of its input. */
  datatype Digest = Digest(input: seq<byte>)

  datatype Nonce = Nonce(prefix: Digest, counter: nat)

  /** What the associated-data text binds (see `Contexts.AssociatedDataInjective`). */
  datatype Aad = Aad(sender: ClientId, recipient: ClientId, messageId: MessageId, epoch: nat)

  datatype RekeyId = RekeyId(value: nat)

  datatype SessionPayload =
    | Chat(text: string)
    | RekeyRequest(rekeyId: RekeyId, ephemeral: PublicKey)
    | RekeyResponse(rekeyId: RekeyId, ephemeral: PublicKey)

  /** Bytes that some key sealed, or bytes that no key sealed. */
  datatype Ciphertext =
    | Sealed(key: Key, nonce: Nonce, aad: Aad, payload: SessionPayload)
    | Garbage(tag: nat)

  function AeadOpen(key: Key, nonce: Nonce, aad: Aad, c: Ciphertext): Option<SessionPayload> {
    if c.Sealed? && c.key == key && c.nonce == nonce && c.aad == aad then Some(c.payload) else None
  }

  datatype Envelope = Envelope(
    sender: ClientId,
    recipient: ClientId,
    messageId: MessageId,
    epoch: nat,
    nonce: Nonce,
    ciphertext: Ciphertext)

  datatype RelayErrorCode =
    | SenderMismatch
    | UnknownRecipient
    | UnsupportedEvent
    | ClientNotConnected
    | ClientAlreadyConnected
    | ConnectDenied
    | Other(raw: string)

  datatype WireEvent =
    | ClientHello(clientId: ClientId, publicKey: PublicKey)
    | PeerKey(from: ClientId, to: ClientId, publicKey: PublicKey)
    | EncryptedMessage(envelope: Envelope)
    | Ack(messageId: MessageId)
    | Error(code: RelayErrorCode, message: string)
}
