/** The client session object: its methods update the fields in place and follow the functions of `Client`. */
module ClientSessions {
  import opened Types
  import opened Events
  import opened Clients
  import opened CryptoSessions

  class ClientSession {
    const localId: ClientId
    const peerId: ClientId
    const secret: nat
    var peerPublicKey: Option<PublicKey>
    var cryptoSession: CryptoSession?
    var expectedPeerFingerprint: Option<Fingerprint>
    var autoRekeyAfter: Option<nat>
    var outboundSinceRekey: nat

    ghost function Repr(): set<object>
      reads this, cryptoSession
    {
      if cryptoSession == null then {this} else {this, cryptoSession} + cryptoSession.inboundNonces.Values
    }

    ghost predicate Valid()
      reads this, cryptoSession
    {
      cryptoSession != null ==> cryptoSession.Valid()
    }

    /** The session's contents. */
    ghost function State(): Client
      reads Repr()
    {
      Client(localId, peerId, secret, peerPublicKey,
             if cryptoSession == null then None else Some(cryptoSession.State()),
             expectedPeerFingerprint, autoRekeyAfter, outboundSinceRekey)
    }

    constructor (localId: ClientId, peerId: ClientId, secret: nat)
      ensures Valid() && fresh(Repr())
      ensures State() == NewClient(localId, peerId, secret)
    {
      this.localId := localId;
      this.peerId := peerId;
      this.secret := secret;
      peerPublicKey := None;
      cryptoSession := null;
      expectedPeerFingerprint := None;
      autoRekeyAfter := None;
      outboundSinceRekey := 0;
    }

    method SetAutoRekeyAfter(threshold: nat)
      modifies this`autoRekeyAfter
      ensures State() == old(State()).(autoRekeyAfter := Some(threshold))
    {
      autoRekeyAfter := Some(threshold);
    }

    method ExpectPeerFingerprint(expected: Fingerprint)
      modifies this`expectedPeerFingerprint
      ensures State() == old(State()).(pin := Some(expected))
    {
      expectedPeerFingerprint := Some(expected);
    }

    method EncryptPayload(payload: SessionPayload, messageId: MessageId) returns (r: Result<WireEvent, ClientError>)
      requires Valid()
      modifies Repr()
      ensures Valid() && fresh(Repr() - old(Repr()))
      ensures ClientStep(State(), r) == Clients.EncryptPayload(old(State()), payload, messageId)
    {
      if cryptoSession == null {
        return Err(MissingPeerKey);
      }
      var sealed := cryptoSession.Encrypt(messageId, payload);
      if sealed.Err? {
        return Err(CryptoFailure(sealed.error));
      }
      return Ok(EncryptedMessage(sealed.value));
    }

    method StartRekey(messageId: MessageId, rekeyId: RekeyId, ephemeral: nat)
      returns (r: Result<WireEvent, ClientError>)
      requires Valid()
      modifies Repr()
      ensures Valid() && fresh(Repr() - old(Repr()))
      ensures ClientStep(State(), r) == BeginRekey(old(State()), messageId, rekeyId, ephemeral)
    {
      if cryptoSession == null {
        return Err(MissingPeerKey);
      }
      var started := cryptoSession.StartRekey(rekeyId, ephemeral);
      if started.Err? {
        return Err(CryptoFailure(started.error));
      }
      r := EncryptPayload(started.value, messageId);
    }

    method EncryptLine(line: string, draw: Draw) returns (r: Result<seq<WireEvent>, ClientError>)
      requires Valid()
      modifies Repr()
      ensures Valid() && fresh(Repr() - old(Repr()))
      ensures ClientStep(State(), r) == Clients.EncryptLine(old(State()), line, draw)
    {
      var chat := EncryptPayload(Chat(line), draw.messageId);
      if chat.Err? {
        return Err(chat.error);
      }
      if autoRekeyAfter.None? {
        return Ok([chat.value]);
      }
      r := CountSealedLine(chat.value, draw);
    }

    /** Counts a sealed line, then appends a request if one is due and none is in progress. */
    method CountSealedLine(chat: WireEvent, draw: Draw) returns (r: Result<seq<WireEvent>, ClientError>)
      requires Valid() && autoRekeyAfter.Some?
      modifies Repr()
      ensures Valid() && fresh(Repr() - old(Repr()))
      ensures ClientStep(State(), r) == CountLine(old(State()), chat, draw)
    {
      var events := [chat];
      outboundSinceRekey := outboundSinceRekey + 1;
      var inProgress := cryptoSession != null && cryptoSession.IsRekeyInProgress();
      if outboundSinceRekey >= autoRekeyAfter.value && !inProgress {
        var request := StartRekey(draw.secondMessageId, draw.rekeyId, draw.ephemeral);
        if request.Err? {
          return Err(request.error);
        }
        events := events + [request.value];
        assert events == [chat, request.value];
      }
      return Ok(events);
    }

    method HandleEncryptedMessage(e: Envelope, draw: Draw) returns (r: Result<InboundOutcome, ClientError>)
      requires Valid()
      modifies Repr()
      ensures Valid() && fresh(Repr() - old(Repr()))
      ensures ClientStep(State(), r) == HandleEncrypted(old(State()), e, draw)
    {
      if cryptoSession == null {
        return Err(MissingPeerKey);
      }
      var payload := cryptoSession.Decrypt(e);
      if payload.Err? {
        return Err(CryptoFailure(payload.error));
      }
      r := HandlePayload(payload.value, draw);
    }

    /** What is done with an authentic payload. */
    method HandlePayload(payload: SessionPayload, draw: Draw) returns (r: Result<InboundOutcome, ClientError>)
      requires Valid() && cryptoSession != null
      modifies Repr()
      ensures Valid() && fresh(Repr() - old(Repr()))
      ensures ClientStep(State(), r) == HandleOpened(old(State()), old(cryptoSession.State()), payload, draw)
    {
      match payload
      case Chat(text) =>
        return Ok(InboundOutcome(Some(ChatReceived(text)), None));
      case RekeyRequest(_, _) =>
        r := AnswerRekeyRequest(payload, draw);
      case RekeyResponse(_, _) =>
        r := CompleteRekey(payload, draw);
    }

    /** The initiator's completion, which also restarts the automatic count. */
    method CompleteRekey(response: SessionPayload, draw: Draw) returns (r: Result<InboundOutcome, ClientError>)
      requires Valid() && cryptoSession != null
      modifies Repr()
      ensures Valid() && fresh(Repr() - old(Repr()))
      ensures ClientStep(State(), r) == FinishRekey(old(State()), old(cryptoSession.State()), response, draw)
    {
      var done := cryptoSession.HandleSessionPayload(response, draw.ephemeral);
      if done.Err? {
        return Err(CryptoFailure(done.error));
      }
      outboundSinceRekey := 0;
      return Ok(InboundOutcome(Some(RekeyCompleted(cryptoSession.epoch)), None));
    }

    /** The responder's sequence: stage the rotation, seal the reply at the old epoch, commit. */
    method AnswerRekeyRequest(request: SessionPayload, draw: Draw) returns (r: Result<InboundOutcome, ClientError>)
      requires Valid() && cryptoSession != null
      modifies Repr()
      ensures Valid() && fresh(Repr() - old(Repr()))
      ensures ClientStep(State(), r) == AnswerRequest(old(State()), old(cryptoSession.State()), request, draw)
    {
      var staged := cryptoSession.HandleSessionPayload(request, draw.ephemeral);
      if staged.Err? {
        return Err(CryptoFailure(staged.error));
      }
      if staged.value.None? {
        return Err(UnexpectedSessionPayload);
      }
      var reply := cryptoSession.Encrypt(draw.messageId, staged.value.value);
      if reply.Err? {
        return Err(CryptoFailure(reply.error));
      }
      var committed := cryptoSession.CommitStagedRekey();
      if committed.Err? {
        return Err(CryptoFailure(committed.error));
      }
      return Ok(InboundOutcome(None, Some(EncryptedMessage(reply.value))));
    }

    method HandleEvent(event: WireEvent, draw: Draw) returns (r: Result<InboundOutcome, ClientError>)
      requires Valid()
      modifies Repr()
      ensures Valid() && fresh(Repr() - old(Repr()))
      ensures ClientStep(State(), r) == Clients.HandleEvent(old(State()), event, draw)
    {
      match event
      case PeerKey(from, to, key) =>
        if from != peerId || to != localId {
          return Err(UnexpectedPeerKey);
        }
        if peerPublicKey.Some? {
          if peerPublicKey.value == key {
            return Ok(NOTHING);
          }
          return Err(UnexpectedPeerKey);
        }
        if expectedPeerFingerprint.Some? && Fingerprint(key) != expectedPeerFingerprint.value {
          return Err(PeerKeyFingerprintMismatch);
        }
        peerPublicKey := Some(key);
        cryptoSession := new CryptoSession(secret, key, localId, peerId);
        return Ok(NOTHING);
      case EncryptedMessage(e) =>
        r := HandleEncryptedMessage(e, draw);
      case _ =>
        return Ok(NOTHING);
    }
  }
}
