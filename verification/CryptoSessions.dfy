/** The session object: its methods update the fields in place and follow the functions of `Crypto`. */
module CryptoSessions {
  import opened Types
  import opened Contexts
  import opened Events
  import opened Crypto

  /** The nonces accepted in one epoch. */
  class NonceTracker {
    var seen: set<Nonce>

    constructor ()
      ensures seen == {}
    {
      seen := {};
    }

    /** Accepts a nonce the first time and never again. */
    method MarkSeen(nonce: Nonce) returns (accepted: bool)
      modifies this
      ensures accepted <==> nonce !in old(seen)
      ensures seen == old(seen) + {nonce}
      ensures !accepted ==> seen == old(seen)
    {
      accepted := nonce !in seen;
      seen := seen + {nonce};
    }
  }

  class CryptoSession {
    var masterSecret: Master
    const sessionInfo: seq<byte>
    const localId: ClientId
    const peerId: ClientId
    var inboundNonces: map<nat, NonceTracker>
    const outboundNoncePrefix: Digest
    var nextOutboundNonce: nat
    var epoch: nat
    var pendingRekey: Option<Pending>
    var stagedMaster: Option<Master>

    /** Each epoch has its own tracker. */
    ghost predicate Valid()
      reads this
    {
      && nextOutboundNonce <= U64_MAX
      && forall g, h | g in inboundNonces && h in inboundNonces && g != h :: inboundNonces[g] != inboundNonces[h]
    }

    /** The session's contents. */
    ghost function State(): Session
      reads this, inboundNonces.Values
    {
      Session(masterSecret, sessionInfo, localId, peerId,
              map g | g in inboundNonces :: inboundNonces[g].seen,
              outboundNoncePrefix, nextOutboundNonce, epoch, pendingRekey, stagedMaster)
    }

    constructor (secret: nat, peerKey: PublicKey, localId: ClientId, peerId: ClientId)
      ensures Valid() && inboundNonces == map[]
      ensures State() == Fresh(secret, peerKey, localId, peerId)
    {
      masterSecret := Root(DiffieHellman(secret, peerKey));
      sessionInfo := SessionInfo(localId, peerId);
      outboundNoncePrefix := Digest(NoncePrefixInput(localId, peerId));
      this.localId := localId;
      this.peerId := peerId;
      inboundNonces := map[];
      nextOutboundNonce := 0;
      epoch := 0;
      pendingRekey := None;
      stagedMaster := None;
    }

    predicate IsRekeyInProgress()
      reads this
    {
      pendingRekey.Some? || stagedMaster.Some?
    }

    method NextNonce() returns (r: Result<Nonce, CryptoError>)
      requires Valid()
      modifies this`nextOutboundNonce
      ensures Valid()
      ensures r.Ok? <==> old(nextOutboundNonce) < U64_MAX
      ensures r.Ok? ==> nextOutboundNonce == old(nextOutboundNonce) + 1
                        && r.value == Nonce(outboundNoncePrefix, nextOutboundNonce)
      ensures r.Err? ==> nextOutboundNonce == old(nextOutboundNonce) && r.error == NonceExhausted
    {
      if nextOutboundNonce >= U64_MAX {
        return Err(NonceExhausted);
      }
      nextOutboundNonce := nextOutboundNonce + 1;
      return Ok(Nonce(outboundNoncePrefix, nextOutboundNonce));
    }

    method Encrypt(messageId: MessageId, payload: SessionPayload) returns (r: Result<Envelope, CryptoError>)
      requires Valid()
      modifies this`nextOutboundNonce
      ensures Valid()
      ensures Step(State(), r) == Seal(old(State()), messageId, payload)
    {
      var key := SessionKey(masterSecret, sessionInfo, epoch);
      var drawn := NextNonce();
      if drawn.Err? {
        return Err(drawn.error);
      }
      var nonce := drawn.value;
      var aad := Aad(localId, peerId, messageId, epoch);
      return Ok(Envelope(localId, peerId, messageId, epoch, nonce, Sealed(key, nonce, aad, payload)));
    }

    method Decrypt(e: Envelope) returns (r: Result<SessionPayload, CryptoError>)
      requires Valid()
      modifies this`inboundNonces, inboundNonces.Values
      ensures Valid() && fresh(inboundNonces.Values - old(inboundNonces.Values))
      ensures Step(State(), r) == Open(old(State()), e)
    {
      if e.sender != peerId || e.recipient != localId {
        return Err(UnexpectedPeer);
      }
      var isCurrent := e.epoch == epoch;
      var isPrevious := epoch > 0 && e.epoch + 1 == epoch;
      if !isCurrent && !isPrevious {
        return Err(UnknownEpoch);
      }
      var key := SessionKey(masterSecret, sessionInfo, e.epoch);
      var aad := Aad(e.sender, e.recipient, e.messageId, e.epoch);
      var plaintext := AeadOpen(key, e.nonce, aad, e.ciphertext);
      if plaintext.None? {
        return Err(AuthenticationFailed);
      }
      if e.epoch !in inboundNonces {
        var tracker := new NonceTracker();
        inboundNonces := inboundNonces[e.epoch := tracker];
      }
      var accepted := inboundNonces[e.epoch].MarkSeen(e.nonce);
      if !accepted {
        assert State().inbound == old(State()).inbound;
        return Err(DuplicateNonce);
      }
      assert State().inbound == Open(old(State()), e).next.inbound;
      return Ok(plaintext.value);
    }

    method StartRekey(rekeyId: RekeyId, ephemeral: nat) returns (r: Result<SessionPayload, CryptoError>)
      requires Valid()
      modifies this`pendingRekey
      ensures Valid()
      ensures Step(State(), r) == Crypto.StartRekey(old(State()), rekeyId, ephemeral)
    {
      if pendingRekey.Some? {
        return Err(RekeyAlreadyInProgress);
      }
      pendingRekey := Some(Pending(rekeyId, ephemeral));
      return Ok(RekeyRequest(rekeyId, PublicKey(ephemeral)));
    }

    /** Chains the master, advances the epoch and forgets replay sets older than the previous epoch. */
    method ApplyNextMaster(next: Master)
      requires Valid()
      modifies this`masterSecret, this`epoch, this`inboundNonces
      ensures Valid() && inboundNonces.Values <= old(inboundNonces.Values)
      ensures State() == Rotate(old(State()), next)
    {
      masterSecret := next;
      epoch := epoch + 1;
      inboundNonces := Retained(inboundNonces, epoch);
      assert State().inbound == Rotate(old(State()), next).inbound;
    }

    method HandleSessionPayload(payload: SessionPayload, ephemeral: nat)
      returns (r: Result<Option<SessionPayload>, CryptoError>)
      requires Valid()
      modifies this
      ensures Valid() && inboundNonces.Values <= old(inboundNonces.Values)
      ensures Step(State(), r) == HandlePayload(old(State()), payload, ephemeral)
    {
      match payload
      case Chat(_) => return Ok(None);
      case RekeyRequest(id, key) =>
        if IsRekeyInProgress() {
          return Err(RekeyAlreadyInProgress);
        }
        stagedMaster := Some(Next(masterSecret, DiffieHellman(ephemeral, key)));
        return Ok(Some(RekeyResponse(id, PublicKey(ephemeral))));
      case RekeyResponse(id, key) =>
        if pendingRekey.None? || pendingRekey.value.rekeyId != id {
          return Err(UnknownRekeyId);
        }
        ApplyNextMaster(Next(masterSecret, DiffieHellman(pendingRekey.value.ephemeral, key)));
        pendingRekey := None;
        return Ok(None);
    }

    method CommitStagedRekey() returns (r: Result<(), CryptoError>)
      requires Valid()
      modifies this
      ensures Valid() && inboundNonces.Values <= old(inboundNonces.Values)
      ensures Step(State(), r) == CommitStaged(old(State()))
    {
      if stagedMaster.None? {
        return Err(NoStagedRekey);
      }
      var staged := stagedMaster.value;
      stagedMaster := None;
      ApplyNextMaster(staged);
      return Ok(());
    }
  }
}
