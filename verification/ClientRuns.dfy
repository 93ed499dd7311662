/** What holds of one client over every sequence of calls, whatever arrives from the network. */
module ClientRuns {
  import opened Types
  import opened Events
  import opened Crypto
  import opened Clients
  import SessionRuns

  datatype Call =
    | LineCall(text: string, draw: Draw)
    | RekeyCall(draw: Draw)
    | EventCall(event: WireEvent, draw: Draw)

  function After(c: Client, call: Call): Client {
    match call
    case LineCall(text, draw) => EncryptLine(c, text, draw).next
    case RekeyCall(draw) => BeginRekey(c, draw.messageId, draw.rekeyId, draw.ephemeral).next
    case EventCall(event, draw) => HandleEvent(c, event, draw).next
  }

  function Run(c: Client, calls: seq<Call>): Client {
    if calls == [] then c else After(Run(c, calls[..|calls| - 1]), calls[|calls| - 1])
  }

  /** A client as created: no key yet, and whatever pin and threshold the user chose. */
  predicate Created(c: Client) {
    c.peerKey.None? && c.crypto.None? && c.outboundSinceRekey == 0
  }

  // ---------- peer key ----------

  /** Ready exactly when a key is stored; the key matches the pin and roots the session. */
  predicate Keyed(c: Client) {
    && (c.crypto.Some? <==> c.peerKey.Some?)
    && (c.peerKey.Some? && c.pin.Some? ==> c.pin.value == Fingerprint(c.peerKey.value))
    && (c.crypto.Some? ==> RootedIn(c.crypto.value, DiffieHellman(c.secret, c.peerKey.value)))
  }

  /** `d` keeps the identity, pin, threshold and any stored key of `c`. */
  predicate SameIdentity(c: Client, d: Client) {
    && c.localId == d.localId && c.peerId == d.peerId && c.secret == d.secret
    && c.pin == d.pin && c.autoRekeyAfter == d.autoRekeyAfter
    && (c.peerKey.Some? ==> d.peerKey == c.peerKey)
  }

  lemma CallKeepsKeyed(c: Client, call: Call)
    requires Keyed(c)
    ensures Keyed(After(c, call)) && SameIdentity(c, After(c, call))
  {
    match call
    case LineCall(text, draw) =>
    case RekeyCall(draw) =>
    case EventCall(event, draw) => EventKeepsKeyed(c, event, draw);
  }

  /** The root of a session does not depend on its replay sets and survives every rotation. */
  predicate RootedIn(s: Session, root: Shared) {
    RootOf(s.master) == root && (s.staged.Some? ==> RootOf(s.staged.value) == root)
  }

  lemma PayloadKeepsRoot(s: Session, payload: SessionPayload, ephemeral: nat, root: Shared)
    requires RootedIn(s, root)
    ensures RootedIn(HandlePayload(s, payload, ephemeral).next, root)
    ensures RootedIn(CommitStaged(s).next, root)
  {
  }

  lemma AnswerKeepsRoot(c: Client, s: Session, request: SessionPayload, draw: Draw, root: Shared)
    requires RootedIn(s, root)
    ensures var d := AnswerRequest(c, s, request, draw).next;
            d == c.(crypto := d.crypto) && d.crypto.Some? && RootedIn(d.crypto.value, root)
  {
    var staged := HandlePayload(s, request, draw.ephemeral);
    PayloadKeepsRoot(s, request, draw.ephemeral, root);
    if staged.result.Ok? && staged.result.value.Some? {
      var sealed := Seal(staged.next, draw.messageId, staged.result.value.value);
      PayloadKeepsRoot(sealed.next, request, draw.ephemeral, root);
    }
  }

  lemma EventKeepsKeyed(c: Client, event: WireEvent, draw: Draw)
    requires Keyed(c)
    ensures Keyed(HandleEvent(c, event, draw).next) && SameIdentity(c, HandleEvent(c, event, draw).next)
  {
    if event.EncryptedMessage? && c.crypto.Some? {
      var unsealed := Open(c.crypto.value, event.envelope);
      if unsealed.result.Ok? {
        var payload, root := unsealed.result.value, DiffieHellman(c.secret, c.peerKey.value);
        PayloadKeepsRoot(unsealed.next, payload, draw.ephemeral, root);
        AnswerKeepsRoot(c, unsealed.next, payload, draw, root);
      }
    }
  }

  lemma {:induction false} RunKeepsKeyed(c: Client, calls: seq<Call>)
    requires Keyed(c)
    ensures Keyed(Run(c, calls)) && SameIdentity(c, Run(c, calls))
  {
    if calls != [] {
      var front := calls[..|calls| - 1];
      RunKeepsKeyed(c, front);
      CallKeepsKeyed(Run(c, front), calls[|calls| - 1]);
    }
  }

  /** The master of `t` is that of `s` followed by one link per rotation since; epoch and counter never go back. */
  predicate Extends(s: Session, t: Session) {
    s.epoch <= t.epoch && s.counter <= t.counter && Back(t.master, t.epoch - s.epoch) == s.master
  }

  /** One call rotates at most once, and then by adding a link to the present master. */
  predicate OneLink(s: Session, t: Session) {
    && s.counter <= t.counter
    && ((t.epoch == s.epoch && t.master == s.master)
        || (t.epoch == s.epoch + 1 && t.master.Next? && t.master.prev == s.master))
  }

  lemma CallLinks(c: Client, call: Call)
    requires Keyed(c) && c.crypto.Some?
    ensures After(c, call).crypto.Some? && OneLink(c.crypto.value, After(c, call).crypto.value)
  {
    match call
    case LineCall(text, draw) =>
    case RekeyCall(draw) =>
    case EventCall(event, draw) => EventLinks(c, event, draw);
  }

  lemma EventLinks(c: Client, event: WireEvent, draw: Draw)
    requires Keyed(c) && c.crypto.Some?
    ensures var d := HandleEvent(c, event, draw).next; d.crypto.Some? && OneLink(c.crypto.value, d.crypto.value)
  {
    if event.EncryptedMessage? && Open(c.crypto.value, event.envelope).result.Ok? {
      var unsealed := Open(c.crypto.value, event.envelope);
      AnswerLinks(c, unsealed.next, unsealed.result.value, draw);
    }
  }

  lemma AnswerLinks(c: Client, s: Session, request: SessionPayload, draw: Draw)
    ensures request.RekeyRequest? ==>
              var d := AnswerRequest(c, s, request, draw).next; d.crypto.Some? && OneLink(s, d.crypto.value)
  {
  }

  lemma ExtendsFurther(s: Session, t: Session, u: Session)
    requires Extends(s, t) && OneLink(t, u)
    ensures Extends(s, u)
  {
  }

  lemma {:induction false} RunExtends(c: Client, calls: seq<Call>)
    requires Keyed(c) && c.crypto.Some?
    ensures Run(c, calls).crypto.Some? && Extends(c.crypto.value, Run(c, calls).crypto.value)
  {
    if calls != [] {
      var front := calls[..|calls| - 1];
      RunExtends(c, front);
      RunKeepsKeyed(c, front);
      CallLinks(Run(c, front), calls[|calls| - 1]);
      ExtendsFurther(c.crypto.value, Run(c, front).crypto.value, Run(c, calls).crypto.value);
    }
  }

  /**
   Whatever arrives: the client is ready exactly when it stored a key, and the key satisfies the pin. From then on the
   key never changes and the session is never set up again: its epoch and its counter never go back, and its master is
   always the earlier one with a link added for each rotation since.
   */
  lemma KeyIsSettledOnce(c: Client, calls: seq<Call>, more: seq<Call>)
    requires Created(c)
    ensures var d := Run(c, calls);
            var e := Run(d, more);
            && (IsReady(d) <==> d.peerKey.Some?)
            && (d.peerKey.Some? && c.pin.Some? ==> c.pin.value == Fingerprint(d.peerKey.value))
            && (IsReady(d) ==>
                  && IsReady(e) && e.peerKey == d.peerKey
                  && RootOf(d.crypto.value.master) == DiffieHellman(c.secret, d.peerKey.value)
                  && RootOf(e.crypto.value.master) == RootOf(d.crypto.value.master)
                  && Extends(d.crypto.value, e.crypto.value))
  {
    RunKeepsKeyed(c, calls);
    RunKeepsKeyed(Run(c, calls), more);
    if IsReady(Run(c, calls)) {
      RunExtends(Run(c, calls), more);
    }
  }

  // ---------- a pending handshake ----------

  predicate OpensEnvelope(c: Client, call: Call) {
    && call.EventCall? && call.event.EncryptedMessage?
    && c.crypto.Some? && Open(c.crypto.value, call.event.envelope).result.Ok?
  }

  /** The call delivers, for the first time and authentically, a response to the handshake `c` has pending. */
  predicate AnswersPending(c: Client, call: Call) {
    && OpensEnvelope(c, call)
    && var payload := Open(c.crypto.value, call.event.envelope).result.value;
       && payload.RekeyResponse? && c.crypto.value.pending.Some?
       && c.crypto.value.pending.value.rekeyId == payload.rekeyId
  }

  /** Whatever a client is asked to do or receives, its pending handshake ends if and only if it is answered. */
  lemma PendingEndsIffAnswered(c: Client, call: Call)
    requires c.crypto.Some? && c.crypto.value.pending.Some? && c.peerKey.Some?
    ensures After(c, call).crypto.Some?
    ensures After(c, call).crypto.value.pending != c.crypto.value.pending <==> AnswersPending(c, call)
    ensures AnswersPending(c, call) ==> After(c, call).crypto.value.pending.None?
  {
    if OpensEnvelope(c, call) {
      PendingAfterOpening(c, call.event.envelope, call.draw);
    }
  }

  lemma PendingAfterOpening(c: Client, e: Envelope, draw: Draw)
    requires c.crypto.Some? && c.crypto.value.pending.Some? && Open(c.crypto.value, e).result.Ok?
    ensures var d, payload := HandleEncrypted(c, e, draw).next, Open(c.crypto.value, e).result.value;
            && d.crypto.Some?
            && d.crypto.value.pending
               == if payload.RekeyResponse? && payload.rekeyId == c.crypto.value.pending.value.rekeyId
                  then None else c.crypto.value.pending
  {
  }

  predicate NeverAnswered(c: Client, calls: seq<Call>) {
    calls == []
    || (NeverAnswered(c, calls[..|calls| - 1]) && !AnswersPending(Run(c, calls[..|calls| - 1]), calls[|calls| - 1]))
  }

  /** Over every sequence of calls the handshake stays pending for as long as none of them answers it. */
  lemma {:induction false} PendingUntilAnswered(c: Client, calls: seq<Call>)
    requires Keyed(c) && c.crypto.Some? && c.crypto.value.pending.Some? && NeverAnswered(c, calls)
    ensures Run(c, calls).crypto.Some? && Run(c, calls).crypto.value.pending == c.crypto.value.pending
  {
    if calls != [] {
      var front := calls[..|calls| - 1];
      PendingUntilAnswered(c, front);
      RunKeepsKeyed(c, front);
      PendingEndsIffAnswered(Run(c, front), calls[|calls| - 1]);
    }
  }

  /** A response to any other handshake is refused: the nonce is remembered, nothing else changes. */
  lemma UnknownResponseIsRefused(c: Client, e: Envelope, draw: Draw)
    requires c.crypto.Some? && Open(c.crypto.value, e).result.Ok? && Open(c.crypto.value, e).result.value.RekeyResponse?
    requires !AnswersPending(c, EventCall(EncryptedMessage(e), draw))
    ensures var r := HandleEvent(c, EncryptedMessage(e), draw);
            && r.result == Err(CryptoFailure(UnknownRekeyId))
            && r.next.crypto.Some? && r.next == c.(crypto := r.next.crypto)
            && r.next.crypto.value == c.crypto.value.(inbound := r.next.crypto.value.inbound)
            && Seen(r.next.crypto.value, e.epoch) == Seen(c.crypto.value, e.epoch) + {e.nonce}
  {
  }

  // ---------- whose key ----------

  /** The event announces the key of the client's peer to the client itself, and no pin stands against it. */
  predicate Acceptable(c: Client, event: WireEvent) {
    && event.PeerKey? && event.from == c.peerId && event.to == c.localId
    && (c.pin.None? || c.pin == Some(Fingerprint(event.publicKey)))
  }

  /** A client without a key becomes ready if and only if the event is acceptable, and then with exactly that key. */
  lemma ReadyIffAcceptable(c: Client, event: WireEvent, draw: Draw)
    requires c.peerKey.None? && c.crypto.None?
    ensures var d := HandleEvent(c, event, draw).next;
            && (IsReady(d) <==> Acceptable(c, event))
            && (IsReady(d) ==> d.peerKey == Some(event.publicKey)
                               && d.crypto == Some(Fresh(c.secret, event.publicKey, c.localId, c.peerId)))
            && (!IsReady(d) ==> d == c)
  {
  }

  /** The exact answer to every key announcement; only the first acceptable one changes anything. */
  lemma AnnouncementOutcome(c: Client, event: WireEvent, draw: Draw)
    requires event.PeerKey?
    ensures var r := HandleEvent(c, event, draw);
            && (event.from != c.peerId || event.to != c.localId ==> r == ClientStep(c, Err(UnexpectedPeerKey)))
            && (event.from == c.peerId && event.to == c.localId ==>
                  && (c.peerKey == Some(event.publicKey) ==> r == ClientStep(c, Ok(NOTHING)))
                  && (c.peerKey.Some? && c.peerKey.value != event.publicKey ==>
                        r == ClientStep(c, Err(UnexpectedPeerKey)))
                  && (c.peerKey.None? && !Acceptable(c, event) ==>
                        r == ClientStep(c, Err(PeerKeyFingerprintMismatch)))
                  && (c.peerKey.None? && Acceptable(c, event) ==> r.result == Ok(NOTHING)))
  {
  }

  /** Relay control events, and envelopes before the key, change nothing. */
  lemma OtherEventsChangeNothing(c: Client, event: WireEvent, draw: Draw)
    requires !event.PeerKey?
    ensures !event.EncryptedMessage? ==> HandleEvent(c, event, draw) == ClientStep(c, Ok(InboundOutcome(None, None)))
    ensures event.EncryptedMessage? && c.crypto.None? ==>
              HandleEvent(c, event, draw) == ClientStep(c, Err(MissingPeerKey))
  {
  }

  /** The key of the first acceptable announcement among the calls. */
  function FirstAcceptable(c: Client, calls: seq<Call>): Option<PublicKey> {
    if calls == [] then None
    else
      var earlier, last := FirstAcceptable(c, calls[..|calls| - 1]), calls[|calls| - 1];
      if earlier.Some? then earlier
      else if last.EventCall? && Acceptable(c, last.event) then Some(last.event.publicKey)
      else None
  }

  lemma CallSettlesKey(c: Client, call: Call)
    requires c.crypto.Some? <==> c.peerKey.Some?
    ensures After(c, call).peerKey
         == (if c.peerKey.Some? then c.peerKey
             else if call.EventCall? && Acceptable(c, call.event) then Some(call.event.publicKey)
             else None)
  {
    match call
    case LineCall(_, _) =>
    case RekeyCall(_) =>
    case EventCall(event, draw) =>
      if c.peerKey.None? {
        ReadyIffAcceptable(c, event, draw);
      } else {
        StoredKeyStays(c, event, draw);
      }
  }

  lemma StoredKeyStays(c: Client, event: WireEvent, draw: Draw)
    requires c.peerKey.Some?
    ensures HandleEvent(c, event, draw).next.peerKey == c.peerKey
  {
  }

  /** Over every sequence of calls the stored key is that of the first acceptable announcement, if there was one. */
  lemma {:induction false} KeyIsFirstAcceptable(c: Client, calls: seq<Call>)
    requires Created(c)
    ensures Run(c, calls).peerKey == FirstAcceptable(c, calls)
    ensures IsReady(Run(c, calls)) <==> FirstAcceptable(c, calls).Some?
  {
    RunKeepsKeyed(c, calls);
    if calls != [] {
      var front := calls[..|calls| - 1];
      KeyIsFirstAcceptable(c, front);
      RunKeepsKeyed(c, front);
      CallSettlesKey(Run(c, front), calls[|calls| - 1]);
    }
  }

  // ---------- bound to the two ids ----------

  predicate Bound(c: Client) {
    c.crypto.Some? ==> SessionRuns.BoundTo(c.crypto.value, c.localId, c.peerId)
  }

  /** Everything that identifies a session. */
  predicate SameBinding(s: Session, t: Session) {
    t.localId == s.localId && t.peerId == s.peerId && t.info == s.info && t.prefix == s.prefix
  }

  lemma OpenedKeepsBinding(c: Client, s: Session, payload: SessionPayload, draw: Draw)
    ensures var d := HandleOpened(c, s, payload, draw).next; d.crypto.Some? && SameBinding(s, d.crypto.value)
  {
  }

  lemma EventKeepsBinding(c: Client, event: WireEvent, draw: Draw)
    requires c.crypto.Some? && c.peerKey.Some?
    ensures var d := HandleEvent(c, event, draw).next; d.crypto.Some? && SameBinding(c.crypto.value, d.crypto.value)
  {
    if event.EncryptedMessage? && Open(c.crypto.value, event.envelope).result.Ok? {
      var unsealed := Open(c.crypto.value, event.envelope);
      OpenedKeepsBinding(c, unsealed.next, unsealed.result.value, draw);
    }
  }

  lemma CallKeepsBinding(c: Client, call: Call)
    requires c.crypto.Some? && c.peerKey.Some?
    ensures After(c, call).crypto.Some? && SameBinding(c.crypto.value, After(c, call).crypto.value)
  {
    match call
    case LineCall(_, _) =>
    case RekeyCall(_) =>
    case EventCall(event, draw) => EventKeepsBinding(c, event, draw);
  }

  lemma CallKeepsBound(c: Client, call: Call)
    requires Keyed(c) && Bound(c)
    ensures Bound(After(c, call))
  {
    CallKeepsKeyed(c, call);
    if c.crypto.Some? {
      CallKeepsBinding(c, call);
    } else if call.EventCall? {
      ReadyIffAcceptable(c, call.event, call.draw);
      if IsReady(After(c, call)) {
        SessionRuns.SessionStaysBound(c.secret, call.event.publicKey, c.localId, c.peerId, []);
      }
    }
  }

  /** Whatever is called and whatever arrives, the session is bound to the client's own id and its peer's. */
  lemma {:induction false} ClientStaysBound(c: Client, calls: seq<Call>)
    requires Created(c)
    ensures Bound(Run(c, calls))
  {
    if calls != [] {
      var front := calls[..|calls| - 1];
      ClientStaysBound(c, front);
      RunKeepsKeyed(c, front);
      CallKeepsBound(Run(c, front), calls[|calls| - 1]);
    }
  }

  // ---------- automatic rekey ----------

  predicate SealsLine(c: Client, call: Call) {
    call.LineCall? && c.crypto.Some? && c.crypto.value.counter < U64_MAX
  }

  predicate CompletesRekey(c: Client, call: Call) {
    call.EventCall?
    && var r := HandleEvent(c, call.event, call.draw).result;
       r.Ok? && r.value.event.Some? && r.value.event.value.RekeyCompleted?
  }

  /** Lines sealed since the last handshake this client started and completed, counted from the calls alone. */
  function LinesSinceCompletion(c: Client, calls: seq<Call>): nat {
    if calls == [] then 0
    else
      var before := calls[..|calls| - 1];
      var last := calls[|calls| - 1];
      if CompletesRekey(Run(c, before), last) then 0
      else if SealsLine(Run(c, before), last) then LinesSinceCompletion(c, before) + 1
      else LinesSinceCompletion(c, before)
  }

  lemma CallCounts(c: Client, call: Call)
    ensures After(c, call).outboundSinceRekey
         == (if CompletesRekey(c, call) then 0
             else if SealsLine(c, call) && c.autoRekeyAfter.Some? then c.outboundSinceRekey + 1
             else c.outboundSinceRekey)
  {
  }

  lemma {:induction false} CounterIsLinesSinceCompletion(c: Client, calls: seq<Call>)
    requires Created(c)
    ensures Run(c, calls).outboundSinceRekey == if c.autoRekeyAfter.Some? then LinesSinceCompletion(c, calls) else 0
  {
    if calls != [] {
      var front := calls[..|calls| - 1];
      CounterIsLinesSinceCompletion(c, front);
      RunKeepsKeyed(c, front);
      CallCounts(Run(c, front), calls[|calls| - 1]);
    }
  }

  /** The event is an envelope under message id `id`, from the client to its peer at its epoch, sealing `payload`. */
  predicate Carries(event: WireEvent, c: Client, id: MessageId, payload: SessionPayload)
    requires c.crypto.Some?
  {
    && event.EncryptedMessage?
    && var e := event.envelope;
       && e.messageId == id && e.epoch == c.crypto.value.epoch
       && e.sender == c.crypto.value.localId && e.recipient == c.crypto.value.peerId
       && e.ciphertext.Sealed? && e.ciphertext.payload == payload && e.ciphertext.aad.messageId == id
  }

  function RequestFor(draw: Draw): SessionPayload {
    RekeyRequest(draw.rekeyId, PublicKey(draw.ephemeral))
  }

  /** Lines are counted only where there is a threshold; this line reaches it. */
  predicate ReachesThreshold(c: Client, calls: seq<Call>) {
    c.autoRekeyAfter.Some? && LinesSinceCompletion(c, calls) + 1 >= c.autoRekeyAfter.value
  }

  /**
   The exact outcome of sending a line after any history: the chat comes first, a request follows exactly when
   the line brings the count to the threshold, if there is one, with no handshake in progress, and the only failures
   are a missing key and an exhausted counter.
   */
  lemma LineOutcome(c: Client, calls: seq<Call>, text: string, draw: Draw)
    requires Created(c)
    ensures var d := Run(c, calls);
            var r := EncryptLine(d, text, draw).result;
            if !IsReady(d) then r == Err(MissingPeerKey)
            else
              var due := ReachesThreshold(c, calls) && !InProgress(d.crypto.value);
              if d.crypto.value.counter + (if due then 2 else 1) > U64_MAX then r == Err(CryptoFailure(NonceExhausted))
              else
                && r.Ok?
                && |r.value| == (if due then 2 else 1)
                && Carries(r.value[0], d, draw.messageId, Chat(text))
                && (due ==> Carries(r.value[1], d, draw.secondMessageId, RequestFor(draw)))
  {
    RunKeepsKeyed(c, calls);
    CounterIsLinesSinceCompletion(c, calls);
    LineShape(Run(c, calls), text, draw);
  }

  lemma LineShape(d: Client, text: string, draw: Draw)
    ensures var r := EncryptLine(d, text, draw).result;
            if d.crypto.None? then r == Err(MissingPeerKey)
            else
              var due := RekeyDue(d);
              if d.crypto.value.counter + (if due then 2 else 1) > U64_MAX then r == Err(CryptoFailure(NonceExhausted))
              else
                && r.Ok?
                && |r.value| == (if due then 2 else 1)
                && Carries(r.value[0], d, draw.messageId, Chat(text))
                && (due ==> Carries(r.value[1], d, draw.secondMessageId, RequestFor(draw)))
  {
  }

  /**
   The exact outcome of asking for a rekey after any history: refused without effect while one is pending; else pending
   with the drawn id and secret from then on, and the request goes out unless the counter is exhausted.
   */
  lemma RekeyOutcome(c: Client, calls: seq<Call>, draw: Draw)
    requires Created(c)
    ensures var d := Run(c, calls);
            var r := BeginRekey(d, draw.messageId, draw.rekeyId, draw.ephemeral);
            if !IsReady(d) then r == ClientStep(d, Err(MissingPeerKey))
            else if d.crypto.value.pending.Some? then r == ClientStep(d, Err(CryptoFailure(RekeyAlreadyInProgress)))
            else
              && r.next.crypto.Some?
              && r.next.crypto.value.pending == Some(Pending(draw.rekeyId, draw.ephemeral))
              && if d.crypto.value.counter == U64_MAX then r.result == Err(CryptoFailure(NonceExhausted))
                 else r.result.Ok? && Carries(r.result.value, d, draw.messageId, RequestFor(draw))
  {
    CounterStaysInRange(c, calls);
  }

  lemma {:induction false} CounterStaysInRange(c: Client, calls: seq<Call>)
    requires Created(c)
    ensures IsReady(Run(c, calls)) ==> Run(c, calls).crypto.value.counter <= U64_MAX
  {
    if calls != [] {
      var front := calls[..|calls| - 1];
      CounterStaysInRange(c, front);
      RunKeepsKeyed(c, front);
      CallKeepsRange(Run(c, front), calls[|calls| - 1]);
    }
  }

  predicate InRange(c: Client) {
    c.crypto.Some? ==> c.crypto.value.counter <= U64_MAX
  }

  lemma OpenedKeepsRange(c: Client, s: Session, payload: SessionPayload, draw: Draw)
    requires s.counter <= U64_MAX
    ensures InRange(HandleOpened(c, s, payload, draw).next)
  {
  }

  lemma CallKeepsRange(c: Client, call: Call)
    requires Keyed(c) && InRange(c)
    ensures InRange(After(c, call))
  {
    if call.EventCall? && call.event.EncryptedMessage? && c.crypto.Some? {
      var unsealed := Open(c.crypto.value, call.event.envelope);
      if unsealed.result.Ok? {
        OpenedKeepsRange(c, unsealed.next, unsealed.result.value, call.draw);
      }
    }
  }

  // ---------- at most once ----------

  /** The envelopes that yielded plaintext, in order. */
  function Opened(c: Client, calls: seq<Call>): seq<Envelope> {
    if calls == [] then []
    else
      var before := calls[..|calls| - 1];
      var last := calls[|calls| - 1];
      Opened(c, before) + (if OpensEnvelope(Run(c, before), last) then [last.event.envelope] else [])
  }

  /** The replay sets agree with everything opened. */
  ghost predicate Remembers(c: Client, accepted: seq<Envelope>) {
    && SessionRuns.Distinct(accepted)
    && (c.crypto.None? ==> accepted == [])
    && (c.crypto.Some? ==> SessionRuns.Tracks(c.crypto.value, SessionRuns.Pairs(accepted)))
  }

  lemma SealingRemembers(c: Client, d: Client, accepted: seq<Envelope>)
    requires Remembers(c, accepted) && c.crypto.Some? && d.crypto.Some?
    requires d.crypto.value.epoch == c.crypto.value.epoch && d.crypto.value.inbound == c.crypto.value.inbound
    ensures Remembers(d, accepted)
  {
    SessionRuns.SameTracks(c.crypto.value, d.crypto.value, SessionRuns.Pairs(accepted));
  }

  lemma RotatingRemembers(s: Session, t: Session, accepted: seq<Envelope>)
    requires SessionRuns.Tracks(s, SessionRuns.Pairs(accepted))
    requires SameOrRotated(s, t)
    ensures SessionRuns.Tracks(t, SessionRuns.Pairs(accepted))
  {
    SessionRuns.RotateTracks(s, SessionRuns.Pairs(accepted), t.master);
    SessionRuns.SameTracks(if t.epoch == s.epoch then s else Rotate(s, t.master), t, SessionRuns.Pairs(accepted));
  }

  /** `t` is `s` as far as replay goes, or one rotation later. */
  predicate SameOrRotated(s: Session, t: Session) {
    || (t.epoch == s.epoch && t.inbound == s.inbound)
    || (t.epoch == s.epoch + 1 && t.inbound == Retained(s.inbound, s.epoch + 1))
  }

  lemma AnswerShape(c: Client, s: Session, request: SessionPayload, draw: Draw)
    requires request.RekeyRequest?
    ensures var d := AnswerRequest(c, s, request, draw).next; d.crypto.Some? && SameOrRotated(s, d.crypto.value)
  {
  }

  lemma HandledShape(c: Client, s: Session, payload: SessionPayload, draw: Draw)
    ensures var d := HandleOpened(c, s, payload, draw).next; d.crypto.Some? && SameOrRotated(s, d.crypto.value)
  {
    if payload.RekeyRequest? {
      AnswerShape(c, s, payload, draw);
    }
  }

  /** An opened envelope rotates the session at most once. */
  lemma OpeningShape(c: Client, e: Envelope, draw: Draw)
    requires c.crypto.Some? && Open(c.crypto.value, e).result.Ok?
    ensures var d := HandleEncrypted(c, e, draw).next;
            d.crypto.Some? && SameOrRotated(Open(c.crypto.value, e).next, d.crypto.value)
  {
    HandledShape(c, Open(c.crypto.value, e).next, Open(c.crypto.value, e).result.value, draw);
  }

  lemma OpeningRemembers(c: Client, e: Envelope, draw: Draw, accepted: seq<Envelope>)
    requires c.crypto.Some? && Remembers(c, accepted) && Open(c.crypto.value, e).result.Ok?
    ensures Remembers(HandleEncrypted(c, e, draw).next, accepted + [e])
  {
    SessionRuns.OpenTracks(c.crypto.value, accepted, e);
    OpeningShape(c, e, draw);
    RotatingRemembers(Open(c.crypto.value, e).next, HandleEncrypted(c, e, draw).next.crypto.value, accepted + [e]);
  }

  /** Any other call leaves epoch and replay sets alone. */
  lemma OtherCallShape(c: Client, call: Call)
    requires c.crypto.Some? && c.peerKey.Some? && !OpensEnvelope(c, call)
    ensures var d := After(c, call);
            && d.crypto.Some? && d.crypto.value.epoch == c.crypto.value.epoch
            && d.crypto.value.inbound == c.crypto.value.inbound
  {
  }

  lemma CallRemembers(c: Client, call: Call, accepted: seq<Envelope>)
    requires Keyed(c) && Remembers(c, accepted)
    ensures Remembers(After(c, call), accepted + (if OpensEnvelope(c, call) then [call.event.envelope] else []))
  {
    if OpensEnvelope(c, call) {
      OpeningRemembers(c, call.event.envelope, call.draw, accepted);
    } else {
      assert accepted + [] == accepted;
      if c.crypto.Some? {
        OtherCallShape(c, call);
        SealingRemembers(c, After(c, call), accepted);
      } else {
        FreshRemembers(c, call, accepted);
      }
    }
  }

  /** A client without a session has opened nothing, and a new session remembers nothing. */
  lemma FreshRemembers(c: Client, call: Call, accepted: seq<Envelope>)
    requires c.crypto.None? && c.peerKey.None? && Remembers(c, accepted)
    ensures Remembers(After(c, call), accepted)
  {
    if call.EventCall? {
      ReadyIffAcceptable(c, call.event, call.draw);
    }
  }

  lemma {:induction false} RunRemembers(c: Client, calls: seq<Call>)
    requires Created(c)
    ensures Remembers(Run(c, calls), Opened(c, calls))
  {
    if calls != [] {
      var front := calls[..|calls| - 1];
      RunRemembers(c, front);
      RunKeepsKeyed(c, front);
      CallRemembers(Run(c, front), calls[|calls| - 1], Opened(c, front));
    }
  }

  /**
   Over any calls whatsoever, including repeated key announcements and any number of rotations, no (epoch, nonce)
   pair yields plaintext twice.
   */
  lemma PlaintextAtMostOnce(c: Client, calls: seq<Call>)
    requires Created(c)
    ensures SessionRuns.Distinct(Opened(c, calls))
  {
    RunRemembers(c, calls);
  }
}
