/**
 Two ready clients joined by a network that can drop, delay, duplicate, reorder, alter and inject, and
 that knows every secret except the two long-term ones. `Pair` is the invariant of every run.
 */
module PairInvariant {
  import opened Types
  import opened Contexts
  import opened Events
  import opened Crypto
  import opened Clients
  import opened SessionRuns

  /** A client with the history of its conversation. */
  datatype Party = Party(
    client: Client,
    sent: seq<Envelope>,      // every envelope it handed to the network, in order
    accepted: seq<Envelope>,  // every envelope that yielded plaintext, in order
    lines: seq<string>,       // the lines it was asked to send and did send
    shown: seq<string>)       // the chat texts it reported

  datatype Action =
    | Line(text: string, draw: Draw)
    | Rekey(draw: Draw)
    | Receive(event: WireEvent, draw: Draw)

  function Envelopes(events: seq<WireEvent>): seq<Envelope> {
    if events == [] then []
    else (if events[0].EncryptedMessage? then [events[0].envelope] else []) + Envelopes(events[1..])
  }

  predicate Opens(x: Party, event: WireEvent) {
    event.EncryptedMessage? && x.client.crypto.Some? && Open(x.client.crypto.value, event.envelope).result.Ok?
  }

  function ActLine(x: Party, text: string, draw: Draw): Party {
    var r := EncryptLine(x.client, text, draw);
    match r.result
    case Err(_) => x.(client := r.next)
    case Ok(events) => x.(client := r.next, sent := x.sent + Envelopes(events), lines := x.lines + [text])
  }

  function ActRekey(x: Party, draw: Draw): Party {
    var r := BeginRekey(x.client, draw.messageId, draw.rekeyId, draw.ephemeral);
    match r.result
    case Err(_) => x.(client := r.next)
    case Ok(event) => x.(client := r.next, sent := x.sent + Envelopes([event]))
  }

  function ActReceive(x: Party, event: WireEvent, draw: Draw): Party {
    var r := HandleEvent(x.client, event, draw);
    x.(client := r.next,
       accepted := x.accepted + (if Opens(x, event) then [event.envelope] else []),
       sent := x.sent + (if r.result.Ok? && r.result.value.reply.Some?
                         then Envelopes([r.result.value.reply.value]) else []),
       shown := x.shown + (if r.result.Ok? && r.result.value.event.Some? && r.result.value.event.value.ChatReceived?
                           then [r.result.value.event.value.text] else []))
  }

  function Act(x: Party, action: Action): Party {
    match action
    case Line(text, draw) => ActLine(x, text, draw)
    case Rekey(draw) => ActRekey(x, draw)
    case Receive(event, draw) => ActReceive(x, event, draw)
  }

  // ---------- the network ----------

  /** The network can compute an agreement unless both secrets are the clients' own. */
  predicate KnowsShared(dh: Shared, p: nat, q: nat) {
    dh.lo !in {p, q} || dh.hi !in {p, q}
  }

  predicate KnowsMaster(m: Master, p: nat, q: nat) {
    match m
    case Root(dh) => KnowsShared(dh, p, q)
    case Next(prev, dh) => KnowsMaster(prev, p, q) && KnowsShared(dh, p, q)
  }

  predicate Overheard(c: Ciphertext, sent: seq<Envelope>) {
    exists i | 0 <= i < |sent| :: sent[i].ciphertext == c
  }

  /** Ciphertexts the network can present: overheard, unsealed bytes, or sealed under a master it knows. */
  predicate CanPresent(c: Ciphertext, x: Party, y: Party) {
    || Overheard(c, x.sent)
    || Overheard(c, y.sent)
    || c.Garbage?
    || (c.Sealed? && KnowsMaster(c.key.master, x.client.secret, y.client.secret))
  }

  /** What may happen to `x`: its user acts, or the network delivers an event of its making. */
  predicate Allowed(x: Party, y: Party, action: Action) {
    action.Receive? && action.event.EncryptedMessage? ==> CanPresent(action.event.envelope.ciphertext, x, y)
  }

  // ---------- one side's log ----------

  predicate Holds(e: Envelope) { e.ciphertext.Sealed? }
  predicate IsChat(e: Envelope) { Holds(e) && e.ciphertext.payload.Chat? }
  predicate IsRequest(e: Envelope) { Holds(e) && e.ciphertext.payload.RekeyRequest? }
  predicate IsResponse(e: Envelope) { Holds(e) && e.ciphertext.payload.RekeyResponse? }

  /** `e` was sealed by session `s`, at its present epoch or an earlier one. */
  predicate Written(s: Session, e: Envelope) {
    && e.epoch <= s.epoch
    && e.sender == s.localId && e.recipient == s.peerId
    && e.nonce.prefix == s.prefix && e.nonce.counter <= s.counter
    && Holds(e)
    && e.ciphertext.key == SessionKey(Back(s.master, s.epoch - e.epoch), s.info, e.epoch)
    && e.ciphertext.nonce == e.nonce
    && e.ciphertext.aad == Aad(e.sender, e.recipient, e.messageId, e.epoch)
  }

  predicate RequestIsPending(s: Session, e: Envelope)
    requires IsRequest(e)
  {
    s.pending == Some(Pending(e.ciphertext.payload.rekeyId, e.ciphertext.payload.ephemeral.secret))
  }

  predicate AllWritten(s: Session, sent: seq<Envelope>) {
    forall i | 0 <= i < |sent| :: Written(s, sent[i])
  }

  predicate InOrder(sent: seq<Envelope>) {
    forall i, j | 0 <= i < j < |sent| ::
      sent[i].nonce.counter < sent[j].nonce.counter && sent[i].epoch <= sent[j].epoch
  }

  /** The present epoch's request, if any, is the pending one. */
  predicate RequestsPending(s: Session, sent: seq<Envelope>) {
    forall i | 0 <= i < |sent| && IsRequest(sent[i]) && sent[i].epoch == s.epoch :: RequestIsPending(s, sent[i])
  }

  /** After a request only chat follows at the same epoch. */
  predicate OnlyChatAfterRequest(sent: seq<Envelope>) {
    forall i, j | 0 <= i < j < |sent| && IsRequest(sent[i]) && sent[i].epoch == sent[j].epoch :: IsChat(sent[j])
  }

  /** A response is the last envelope of its epoch. */
  predicate ResponsesClose(s: Session, sent: seq<Envelope>) {
    && (forall i | 0 <= i < |sent| && IsResponse(sent[i]) :: sent[i].epoch < s.epoch)
    && (forall i, j | 0 <= i < j < |sent| && IsResponse(sent[i]) :: sent[i].epoch < sent[j].epoch)
  }

  predicate Log(s: Session, sent: seq<Envelope>) {
    && Depth(s.master) == s.epoch
    && s.counter <= U64_MAX
    && (s.staged.Some? ==> s.counter == U64_MAX)
    && AllWritten(s, sent)
    && InOrder(sent)
    && RequestsPending(s, sent)
    && OnlyChatAfterRequest(sent)
    && ResponsesClose(s, sent)
  }

  // ---------- the two sides together ----------

  /** The receiver `t` of `sent` has accepted only what was sent, each pair once. */
  ghost predicate Received(t: Session, sent: seq<Envelope>, accepted: seq<Envelope>) {
    && Tracks(t, Pairs(accepted))
    && Distinct(accepted)
    && (forall k | 0 <= k < |accepted| :: accepted[k] in sent)
    && (forall k | 0 <= k < |accepted| && IsResponse(accepted[k]) :: accepted[k].epoch < t.epoch)
    && (forall i | 0 <= i < |sent| && IsResponse(sent[i]) && sent[i].epoch < t.epoch :: sent[i] in accepted)
  }

  /** The responder `s` rotated on the handshake that `t` still has pending, and `e` is its reply. */
  predicate Answers(s: Session, t: Session, e: Envelope)
    requires IsResponse(e)
  {
    && t.pending.Some?
    && t.pending.value.rekeyId == e.ciphertext.payload.rekeyId
    && s.master == Next(t.master, DiffieHellman(t.pending.value.ephemeral, e.ciphertext.payload.ephemeral))
  }

  /** `s`, the sender of `sent`, is at most one rotation ahead of `t`, and then `t` awaits its reply. */
  ghost predicate Leads(s: Session, t: Session, sent: seq<Envelope>) {
    && s.epoch <= t.epoch + 1
    && (s.epoch == t.epoch ==> s.master == t.master)
    && (s.epoch == t.epoch + 1 ==>
          t.pending.Some? && exists i | 0 <= i < |sent| :: IsResponse(sent[i]) && sent[i].epoch == t.epoch)
    && (forall i | 0 <= i < |sent| && IsResponse(sent[i]) && sent[i].epoch == t.epoch :: Answers(s, t, sent[i]))
  }

  /** The session a ready party holds. */
  function S(x: Party): Session
    requires x.client.crypto.Some?
  {
    x.client.crypto.value
  }

  /** `x` is set up to talk to `y`: mirrored distinct ids, and a master chain rooted in their agreement. */
  predicate Side(x: Party, y: Party)
    requires x.client.crypto.Some?
  {
    && x.client.peerKey == Some(PublicKey(y.client.secret))
    && S(x).localId == x.client.localId && S(x).peerId == x.client.peerId
    && x.client.peerId == y.client.localId && x.client.localId != x.client.peerId
    && RootOf(S(x).master) == DiffieHellman(x.client.secret, PublicKey(y.client.secret))
    && S(x).prefix == Digest(NoncePrefixInput(x.client.localId, x.client.peerId))
  }

  /** The two sessions belong to each other: one session info, different nonce prefixes. */
  predicate Peers(x: Party, y: Party) {
    && x.client.crypto.Some? && y.client.crypto.Some?
    && Side(x, y) && Side(y, x)
    && S(x).info == S(y).info && S(x).prefix != S(y).prefix
  }

  ghost predicate Half(x: Party, y: Party)
    requires x.client.crypto.Some? && y.client.crypto.Some?
  {
    Log(S(x), x.sent) && Leads(S(x), S(y), x.sent) && Received(S(y), x.sent, y.accepted)
  }

  /** The invariant of every run. */
  ghost predicate Pair(x: Party, y: Party) {
    Peers(x, y) && Half(x, y) && Half(y, x)
  }

  // ---------- how one side's log evolves ----------

  predicate NoRequestNow(s: Session, sent: seq<Envelope>) {
    forall i | 0 <= i < |sent| && IsRequest(sent[i]) :: sent[i].epoch != s.epoch
  }

  lemma SealKeepsWritten(s: Session, sent: seq<Envelope>, messageId: MessageId, payload: SessionPayload)
    requires AllWritten(s, sent)
    ensures AllWritten(s.(counter := s.counter + 1), sent + [SealedUnder(s, messageId, payload)])
  {
    var s' := s.(counter := s.counter + 1);
    var e := SealedUnder(s, messageId, payload);
    assert Written(s', e);
    forall i | 0 <= i < |sent + [e]|
      ensures Written(s', (sent + [e])[i])
    {
      if i < |sent| {
        assert Written(s, sent[i]);
      }
    }
  }

  lemma AppendInOrder(s: Session, sent: seq<Envelope>, e: Envelope)
    requires AllWritten(s, sent) && InOrder(sent)
    requires e.epoch == s.epoch && e.nonce.counter == s.counter + 1
    ensures InOrder(sent + [e])
  {
    assert forall i | 0 <= i < |sent| :: Written(s, sent[i]);
  }

  lemma SealKeepsLog(s: Session, sent: seq<Envelope>, messageId: MessageId, payload: SessionPayload)
    requires Log(s, sent) && s.counter < U64_MAX
    requires payload.Chat? || (payload.RekeyRequest? && NoRequestNow(s, sent)
               && s.pending == Some(Pending(payload.rekeyId, payload.ephemeral.secret)))
    ensures Log(Seal(s, messageId, payload).next, sent + [SealedUnder(s, messageId, payload)])
  {
    SealKeepsWritten(s, sent, messageId, payload);
    AppendInOrder(s, sent, SealedUnder(s, messageId, payload));
  }

  lemma PendKeepsLog(s: Session, sent: seq<Envelope>, pending: Pending)
    requires Log(s, sent) && s.pending.None?
    ensures NoRequestNow(s, sent)
    ensures Log(s.(pending := Some(pending)), sent)
  {
  }

  lemma InboundKeepsLog(s: Session, sent: seq<Envelope>, inbound: map<nat, set<Nonce>>)
    requires Log(s, sent)
    ensures Log(s.(inbound := inbound), sent)
  {
  }

  lemma RotateKeepsWritten(s: Session, e: Envelope, dh: Shared)
    requires Written(s, e)
    ensures Written(Rotate(s, Next(s.master, dh)), e)
  {
  }

  /** Sealing a reply and rotating right after it. */
  lemma ReplyKeepsLog(s: Session, sent: seq<Envelope>, messageId: MessageId, id: RekeyId, key: PublicKey, dh: Shared)
    requires Log(s, sent) && !InProgress(s) && s.counter < U64_MAX
    ensures Log(Rotate(s.(counter := s.counter + 1), Next(s.master, dh)),
                sent + [SealedUnder(s, messageId, RekeyResponse(id, key))])
  {
    PendKeepsLog(s, sent, Pending(id, 0));
    var s' := s.(counter := s.counter + 1);
    var reply := SealedUnder(s, messageId, RekeyResponse(id, key));
    SealKeepsWritten(s, sent, messageId, RekeyResponse(id, key));
    AppendInOrder(s, sent, reply);
    RotateKeepsAllWritten(s', sent + [reply], dh);
  }

  lemma RotateKeepsAllWritten(s: Session, sent: seq<Envelope>, dh: Shared)
    requires AllWritten(s, sent)
    ensures AllWritten(Rotate(s, Next(s.master, dh)), sent)
    ensures AllWritten(Rotate(s, Next(s.master, dh)).(pending := None), sent)
  {
    forall i | 0 <= i < |sent|
      ensures Written(Rotate(s, Next(s.master, dh)), sent[i])
      ensures Written(Rotate(s, Next(s.master, dh)).(pending := None), sent[i])
    {
      RotateKeepsWritten(s, sent[i], dh);
    }
  }

  /** Rotating on completion, with no envelope. */
  lemma CompleteKeepsLog(s: Session, sent: seq<Envelope>, dh: Shared)
    requires Log(s, sent)
    ensures Log(Rotate(s, Next(s.master, dh)).(pending := None), sent)
  {
    RotateKeepsAllWritten(s, sent, dh);
  }

  // ---------- what opens ----------

  lemma {:induction false} HonestRootIsUnknown(m: Master, p: nat, q: nat)
    requires RootOf(m) == DiffieHellman(p, PublicKey(q))
    ensures !KnowsMaster(m, p, q)
  {
    if m.Next? {
      HonestRootIsUnknown(m.prev, p, q);
    }
  }

  /** An envelope of the peer authenticates exactly when it was sealed at the receiver's present epoch. */
  lemma UnlocksIffCurrent(x: Party, y: Party, e: Envelope)
    requires Pair(x, y) && e in y.sent
    ensures Unlock(S(x), e).Some? <==> e.epoch == S(x).epoch
    ensures Unlock(S(x), e).Some? ==> Unlock(S(x), e).value == e.ciphertext.payload
  {
    var s, t := S(x), S(y);
    assert Written(t, e);
    BackFacts(t.master, t.epoch - e.epoch);
  }

  /** Whatever opens at `x` is, field for field, an envelope that `y` sent at this epoch. */
  lemma OpenedIsSent(x: Party, y: Party, e: Envelope)
    requires Pair(x, y) && CanPresent(e.ciphertext, x, y)
    requires Open(S(x), e).result.Ok?
    ensures e in y.sent && e.epoch == S(x).epoch
    ensures Holds(e) && Open(S(x), e).result.value == e.ciphertext.payload
  {
    HonestRootIsUnknown(S(x).master, x.client.secret, y.client.secret);
    assert !Overheard(e.ciphertext, x.sent);
    var i :| 0 <= i < |y.sent| && y.sent[i].ciphertext == e.ciphertext;
    assert Written(S(y), y.sent[i]);
    assert e == y.sent[i];
    UnlocksIffCurrent(x, y, e);
  }

  // ---------- every step keeps the invariant ----------

  lemma OpenKeepsReceived(t: Session, sent: seq<Envelope>, accepted: seq<Envelope>, e: Envelope)
    requires Received(t, sent, accepted)
    requires Open(t, e).result.Ok? && e in sent && !IsResponse(e)
    ensures Received(Open(t, e).next, sent, accepted + [e])
  {
    OpenTracks(t, accepted, e);
  }

  lemma EnvelopesOfMessages(e: Envelope, f: Envelope)
    ensures Envelopes([EncryptedMessage(e)]) == [e]
    ensures Envelopes([EncryptedMessage(e), EncryptedMessage(f)]) == [e, f]
  {
    assert [EncryptedMessage(e), EncryptedMessage(f)][1..] == [EncryptedMessage(f)];
    assert [EncryptedMessage(f)][1..] == [];
  }

  lemma GrowKeepsLeads(s: Session, s': Session, t: Session, sent: seq<Envelope>, sent': seq<Envelope>)
    requires Leads(s, t, sent) && s'.epoch == s.epoch && s'.master == s.master
    requires sent <= sent' && forall i | |sent| <= i < |sent'| :: !IsResponse(sent'[i])
    ensures Leads(s', t, sent')
  {
    assert forall i | 0 <= i < |sent| :: sent'[i] == sent[i];
    if s.epoch == t.epoch + 1 {
      var i :| 0 <= i < |sent| && IsResponse(sent[i]) && sent[i].epoch == t.epoch;
      assert IsResponse(sent'[i]) && sent'[i].epoch == t.epoch;
    }
    forall i | 0 <= i < |sent'| && IsResponse(sent'[i]) && sent'[i].epoch == t.epoch
      ensures Answers(s', t, sent'[i])
    {
      assert sent'[i] == sent[i];
    }
  }

  lemma PendKeepsLeads(s: Session, t: Session, t': Session, sent: seq<Envelope>)
    requires Leads(s, t, sent) && t'.epoch == t.epoch && t'.master == t.master
    requires t'.pending == t.pending || t.pending.None?
    ensures Leads(s, t', sent)
  {
  }

  lemma GrowKeepsReceived(t: Session, sent: seq<Envelope>, sent': seq<Envelope>, accepted: seq<Envelope>)
    requires Received(t, sent, accepted) && sent <= sent'
    requires forall i | |sent| <= i < |sent'| && IsResponse(sent'[i]) :: sent'[i].epoch >= t.epoch
    ensures Received(t, sent', accepted)
  {
    assert forall e | e in sent :: e in sent';
    forall i | 0 <= i < |sent'| && IsResponse(sent'[i]) && sent'[i].epoch < t.epoch
      ensures sent'[i] in accepted
    {
      assert sent'[i] == sent[i];
    }
  }

  lemma SameKeepsReceived(t: Session, t': Session, sent: seq<Envelope>, accepted: seq<Envelope>)
    requires Received(t, sent, accepted) && t'.epoch == t.epoch && t'.inbound == t.inbound
    ensures Received(t', sent, accepted)
  {
    SameTracks(t, t', Pairs(accepted));
  }

  /** `x` seals chat or requests, or starts a handshake, without touching master, epoch or replay sets. */
  predicate Quiet(x: Party, x': Party)
    requires x.client.crypto.Some?
  {
    && x'.client.crypto.Some?
    && x'.client == x.client.(crypto := x'.client.crypto, outboundSinceRekey := x'.client.outboundSinceRekey)
    && S(x').(pending := None, counter := 0) == S(x).(pending := None, counter := 0)
    && (S(x').pending == S(x).pending || S(x).pending.None?)
    && x'.accepted == x.accepted && x.sent <= x'.sent
    && forall i | |x.sent| <= i < |x'.sent| :: !IsResponse(x'.sent[i])
  }

  lemma QuietStep(x: Party, x': Party, y: Party)
    requires Pair(x, y) && Quiet(x, x') && Log(S(x'), x'.sent)
    ensures Pair(x', y)
  {
    GrowKeepsLeads(S(x), S(x'), S(y), x.sent, x'.sent);
    GrowKeepsReceived(S(y), x.sent, x'.sent, y.accepted);
    PendKeepsLeads(S(y), S(x), S(x'), y.sent);
    SameKeepsReceived(S(x), S(x'), y.sent, x.accepted);
  }

  /** The request a started handshake seals. */
  function RequestUnder(s: Session, messageId: MessageId, pending: Pending): Envelope {
    SealedUnder(s.(pending := Some(pending)), messageId, RekeyRequest(pending.rekeyId, PublicKey(pending.ephemeral)))
  }

  lemma PlainLineShape(x: Party, text: string, draw: Draw)
    requires x.client.crypto.Some? && S(x).counter < U64_MAX && !RekeyDue(x.client)
    ensures var x' := ActLine(x, text, draw);
            && x'.client.crypto == Some(S(x).(counter := S(x).counter + 1))
            && x'.client == x.client.(crypto := x'.client.crypto, outboundSinceRekey := x'.client.outboundSinceRekey)
            && x'.sent == x.sent + [SealedUnder(S(x), draw.messageId, Chat(text))]
            && x'.accepted == x.accepted && x'.shown == x.shown && x'.lines == x.lines + [text]
  {
    var chat := SealedUnder(S(x), draw.messageId, Chat(text));
    EnvelopesOfMessages(chat, chat);
  }

  /** Session and log after a line that makes a rekey due; the last counter value leaves no nonce for the request. */
  function DueSession(s: Session, pending: Pending): Session {
    s.(pending := Some(pending), counter := if s.counter + 1 < U64_MAX then s.counter + 2 else s.counter + 1)
  }

  function DueSent(s: Session, text: string, draw: Draw): seq<Envelope> {
    if s.counter + 1 < U64_MAX
    then [SealedUnder(s, draw.messageId, Chat(text)),
          RequestUnder(s.(counter := s.counter + 1), draw.secondMessageId, Pending(draw.rekeyId, draw.ephemeral))]
    else []
  }

  lemma DueLineShape(x: Party, text: string, draw: Draw)
    requires x.client.crypto.Some? && S(x).counter < U64_MAX && RekeyDue(x.client)
    ensures var x' := ActLine(x, text, draw);
            && x'.client.crypto == Some(DueSession(S(x), Pending(draw.rekeyId, draw.ephemeral)))
            && x'.client == x.client.(crypto := x'.client.crypto, outboundSinceRekey := x'.client.outboundSinceRekey)
            && x'.sent == x.sent + DueSent(S(x), text, draw)
            && x'.accepted == x.accepted && x'.shown == x.shown
            && x'.lines == x.lines + (if S(x).counter + 1 < U64_MAX then [text] else [])
  {
    var s1 := S(x).(counter := S(x).counter + 1);
    EnvelopesOfMessages(SealedUnder(S(x), draw.messageId, Chat(text)),
                        RequestUnder(s1, draw.secondMessageId, Pending(draw.rekeyId, draw.ephemeral)));
  }

  lemma RekeyShape(x: Party, draw: Draw)
    requires x.client.crypto.Some? && S(x).pending.None?
    ensures var x' := ActRekey(x, draw);
            var pending := Pending(draw.rekeyId, draw.ephemeral);
            && x'.client.crypto == Some(S(x).(pending := Some(pending),
                                              counter := S(x).counter + if S(x).counter < U64_MAX then 1 else 0))
            && x'.client == x.client.(crypto := x'.client.crypto)
            && x'.sent == x.sent + (if S(x).counter < U64_MAX
                                    then [RequestUnder(S(x), draw.messageId, pending)] else [])
            && x'.accepted == x.accepted && x'.shown == x.shown && x'.lines == x.lines
  {
    var request := RequestUnder(S(x), draw.messageId, Pending(draw.rekeyId, draw.ephemeral));
    EnvelopesOfMessages(request, request);
  }

  /** Starting a handshake: the pending state is set, and its request sealed if a nonce is left. */
  lemma RequestKeepsLog(s: Session, sent: seq<Envelope>, messageId: MessageId, pending: Pending)
    requires Log(s, sent) && s.pending.None?
    ensures Log(s.(pending := Some(pending)), sent)
    ensures s.counter < U64_MAX ==>
              Log(s.(pending := Some(pending), counter := s.counter + 1), sent + [RequestUnder(s, messageId, pending)])
  {
    PendKeepsLog(s, sent, pending);
    if s.counter < U64_MAX {
      var request := RekeyRequest(pending.rekeyId, PublicKey(pending.ephemeral));
      SealKeepsLog(s.(pending := Some(pending)), sent, messageId, request);
    }
  }

  lemma PlainLineIsQuiet(x: Party, text: string, draw: Draw)
    requires x.client.crypto.Some? && S(x).counter < U64_MAX && !RekeyDue(x.client)
    ensures Quiet(x, ActLine(x, text, draw))
  {
    PlainLineShape(x, text, draw);
  }

  lemma DueLineIsQuiet(x: Party, text: string, draw: Draw)
    requires x.client.crypto.Some? && S(x).counter < U64_MAX && RekeyDue(x.client)
    ensures Quiet(x, ActLine(x, text, draw))
  {
    DueLineShape(x, text, draw);
  }

  lemma RekeyIsQuiet(x: Party, draw: Draw)
    requires x.client.crypto.Some? && S(x).pending.None?
    ensures Quiet(x, ActRekey(x, draw))
  {
    RekeyShape(x, draw);
  }

  /** The line alone. */
  lemma PlainLineKeepsPair(x: Party, y: Party, text: string, draw: Draw)
    requires Pair(x, y) && S(x).counter < U64_MAX && !RekeyDue(x.client)
    ensures Pair(ActLine(x, text, draw), y)
  {
    SealKeepsLog(S(x), x.sent, draw.messageId, Chat(text));
    PlainLineShape(x, text, draw);
    PlainLineIsQuiet(x, text, draw);
    QuietStep(x, ActLine(x, text, draw), y);
  }

  lemma DueLineKeepsLog(s: Session, sent: seq<Envelope>, text: string, draw: Draw)
    requires Log(s, sent) && s.counter < U64_MAX && s.pending.None?
    ensures Log(DueSession(s, Pending(draw.rekeyId, draw.ephemeral)), sent + DueSent(s, text, draw))
    ensures forall i | |sent| <= i < |sent + DueSent(s, text, draw)| :: !IsResponse((sent + DueSent(s, text, draw))[i])
  {
    var chat := SealedUnder(s, draw.messageId, Chat(text));
    var s1 := s.(counter := s.counter + 1);
    var pending := Pending(draw.rekeyId, draw.ephemeral);
    SealKeepsLog(s, sent, draw.messageId, Chat(text));
    RequestKeepsLog(s1, sent + [chat], draw.secondMessageId, pending);
    if s1.counter < U64_MAX {
      assert sent + DueSent(s, text, draw) == sent + [chat] + [RequestUnder(s1, draw.secondMessageId, pending)];
    } else {
      assert sent + DueSent(s, text, draw) == sent;
      PrefixKeepsLog(s1.(pending := Some(pending)), sent, sent + [chat]);
    }
  }

  /** The line followed by an automatic request. */
  lemma DueLineKeepsPair(x: Party, y: Party, text: string, draw: Draw)
    requires Pair(x, y) && S(x).counter < U64_MAX && RekeyDue(x.client)
    ensures Pair(ActLine(x, text, draw), y)
  {
    DueLineKeepsLog(S(x), x.sent, text, draw);
    DueLineShape(x, text, draw);
    DueLineIsQuiet(x, text, draw);
    QuietStep(x, ActLine(x, text, draw), y);
  }

  lemma LineKeepsPair(x: Party, y: Party, text: string, draw: Draw)
    requires Pair(x, y)
    ensures Pair(ActLine(x, text, draw), y)
  {
    if S(x).counter >= U64_MAX {
      assert ActLine(x, text, draw) == x;
    } else if RekeyDue(x.client) {
      DueLineKeepsPair(x, y, text, draw);
    } else {
      PlainLineKeepsPair(x, y, text, draw);
    }
  }

  lemma PrefixKeepsLog(s: Session, sent: seq<Envelope>, longer: seq<Envelope>)
    requires Log(s, longer) && sent <= longer
    ensures Log(s, sent)
  {
    assert forall i | 0 <= i < |sent| :: sent[i] == longer[i];
  }

  lemma RekeyKeepsPair(x: Party, y: Party, draw: Draw)
    requires Pair(x, y)
    ensures Pair(ActRekey(x, draw), y)
  {
    if S(x).pending.Some? {
      assert ActRekey(x, draw) == x;
    } else {
      RequestKeepsLog(S(x), x.sent, draw.messageId, Pending(draw.rekeyId, draw.ephemeral));
      RekeyShape(x, draw);
      RekeyIsQuiet(x, draw);
      QuietStep(x, ActRekey(x, draw), y);
    }
  }

  lemma AbsorbHalves(s: Session, s': Session, t: Session, xsent: seq<Envelope>, ysent: seq<Envelope>,
                     xaccepted: seq<Envelope>, e: Envelope)
    requires Log(s, xsent) && Leads(s, t, xsent) && Leads(t, s, ysent) && Received(s, ysent, xaccepted)
    requires Open(s, e).result.Ok? && e in ysent && !IsResponse(e)
    requires s' == Open(s, e).next.(staged := s'.staged)
    requires s'.staged.Some? ==> s'.counter == U64_MAX
    ensures Log(s', xsent) && Leads(s', t, xsent) && Leads(t, s', ysent) && Received(s', ysent, xaccepted + [e])
  {
    OpenKeepsReceived(s, ysent, xaccepted, e);
    SameKeepsReceived(Open(s, e).next, s', ysent, xaccepted + [e]);
    InboundKeepsLog(s, xsent, s'.inbound);
    StagedKeepsLog(Open(s, e).next, xsent, s'.staged);
    GrowKeepsLeads(s, s', t, xsent, xsent);
    PendKeepsLeads(t, s, s', ysent);
  }

  lemma StagedKeepsLog(s: Session, sent: seq<Envelope>, staged: Option<Master>)
    requires Log(s, sent) && (staged.Some? ==> s.counter == U64_MAX)
    ensures Log(s.(staged := staged), sent)
  {
  }

  /** Opening something that does not rotate: only the replay set and the acceptance log grow. */
  lemma AbsorbStep(x: Party, x': Party, y: Party, e: Envelope)
    requires Pair(x, y) && Open(S(x), e).result.Ok? && e in y.sent && !IsResponse(e)
    requires x'.client == x.client.(crypto := x'.client.crypto) && x'.client.crypto.Some?
    requires S(x') == Open(S(x), e).next.(staged := S(x').staged)
    requires S(x').staged.Some? ==> S(x').counter == U64_MAX
    requires x'.accepted == x.accepted + [e] && x'.sent == x.sent
    ensures Pair(x', y)
  {
    AbsorbHalves(S(x), S(x'), S(y), x.sent, y.sent, x.accepted, e);
  }

  /** A request sealed at the present epoch is the one its sender still has pending. */
  lemma OpenedRequestIsPending(x: Party, y: Party, e: Envelope)
    requires Pair(x, y) && e in y.sent && IsRequest(e) && e.epoch == S(x).epoch
    requires S(x).pending.None?
    ensures S(y).epoch == S(x).epoch && S(y).master == S(x).master && RequestIsPending(S(y), e)
  {
    assert Written(S(y), e);
  }

  /** The responder's session after answering request `e`. */
  function Answered(s: Session, e: Envelope, ephemeral: nat): Session
    requires IsRequest(e)
  {
    Rotate(s.(counter := s.counter + 1), Next(s.master, DiffieHellman(ephemeral, e.ciphertext.payload.ephemeral)))
  }

  lemma AnswerHalves(s: Session, t: Session, xsent: seq<Envelope>, ysent: seq<Envelope>,
                     xaccepted: seq<Envelope>, yaccepted: seq<Envelope>,
                     e: Envelope, messageId: MessageId, ephemeral: nat)
    requires Log(s, xsent) && Log(t, ysent) && Received(t, xsent, yaccepted) && Received(s, ysent, xaccepted)
    requires s.epoch == t.epoch && s.master == t.master && IsRequest(e) && RequestIsPending(t, e)
    requires !InProgress(s) && s.counter < U64_MAX
    ensures var s' := Answered(s, e, ephemeral);
            var sent' := xsent + [ReplyUnder(s, messageId, e, ephemeral)];
            && Log(s', sent') && Leads(s', t, sent') && Received(t, sent', yaccepted)
            && Leads(t, s', ysent) && Received(s', ysent, xaccepted)
  {
    var s' := Answered(s, e, ephemeral);
    var reply := ReplyUnder(s, messageId, e, ephemeral);
    var request := e.ciphertext.payload;
    ReplyKeepsLog(s, xsent, messageId, request.rekeyId, PublicKey(ephemeral),
                  DiffieHellman(ephemeral, request.ephemeral));
    AheadLeads(s, s', t, xsent, reply);
    BehindLeads(s', t, ysent);
    GrowKeepsReceived(t, xsent, xsent + [reply], yaccepted);
    RotateKeepsReceived(s, s', t, ysent, xaccepted);
  }

  /** The responder's rotation: the reply answers exactly the handshake the initiator has pending. */
  lemma AnswerStep(x: Party, x': Party, y: Party, e: Envelope, messageId: MessageId, ephemeral: nat)
    requires Pair(x, y) && Open(S(x), e).result.Ok? && e in y.sent && IsRequest(e) && e.epoch == S(x).epoch
    requires !InProgress(S(x)) && S(x).counter < U64_MAX
    requires x'.client == x.client.(crypto := x'.client.crypto) && x'.client.crypto.Some?
    requires S(x') == Answered(Open(S(x), e).next, e, ephemeral)
    requires x'.sent == x.sent + [ReplyUnder(Open(S(x), e).next, messageId, e, ephemeral)]
    requires x'.accepted == x.accepted + [e]
    ensures Pair(x', y)
    ensures S(x').epoch == S(y).epoch + 1
  {
    var s := Open(S(x), e).next;
    OpenedRequestIsPending(x, y, e);
    InboundKeepsLog(S(x), x.sent, s.inbound);
    OpenKeepsReceived(S(x), y.sent, x.accepted, e);
    AnswerHalves(s, S(y), x.sent, y.sent, x'.accepted, y.accepted, e, messageId, ephemeral);
  }

  lemma AheadLeads(s: Session, s': Session, t: Session, sent: seq<Envelope>, reply: Envelope)
    requires Log(s, sent) && s.epoch == t.epoch && s'.epoch == s.epoch + 1
    requires IsResponse(reply) && reply.epoch == t.epoch && Answers(s', t, reply)
    ensures Leads(s', t, sent + [reply])
  {
    var sent' := sent + [reply];
    assert sent'[|sent|] == reply;
    forall i | 0 <= i < |sent'| && IsResponse(sent'[i]) && sent'[i].epoch == t.epoch
      ensures Answers(s', t, sent'[i])
    {
      assert i == |sent|;
    }
  }

  lemma BehindLeads(s': Session, t: Session, sent: seq<Envelope>)
    requires Log(t, sent) && s'.epoch == t.epoch + 1
    ensures Leads(t, s', sent)
  {
  }

  /** A rotation of the receiver `s` to `s'`, at a time when the sender `t` has no reply outstanding. */
  lemma RotateKeepsReceived(s: Session, s': Session, t: Session, sent: seq<Envelope>, accepted: seq<Envelope>)
    requires Received(s, sent, accepted) && Log(t, sent) && t.epoch == s.epoch
    requires s'.epoch == s.epoch + 1 && s'.inbound == Retained(s.inbound, s.epoch + 1)
    ensures Received(s', sent, accepted)
  {
    RotateTracks(s, Pairs(accepted), s'.master);
    SameTracks(Rotate(s, s'.master), s', Pairs(accepted));
  }

  /** The initiator's session after completing with response `e`. */
  function Completed(s: Session, e: Envelope): Session
    requires IsResponse(e) && s.pending.Some?
  {
    var dh := DiffieHellman(s.pending.value.ephemeral, e.ciphertext.payload.ephemeral);
    Rotate(s, Next(s.master, dh)).(pending := None)
  }

  lemma CompleteHalves(s: Session, t: Session, xsent: seq<Envelope>, ysent: seq<Envelope>,
                       xaccepted: seq<Envelope>, e: Envelope)
    requires Log(s, xsent) && Log(t, ysent) && Received(s, ysent, xaccepted)
    requires Open(s, e).result.Ok? && e in ysent && IsResponse(e) && e.epoch == s.epoch
    requires Answers(t, s, e) && t.epoch == s.epoch + 1
    ensures var s' := Completed(Open(s, e).next, e);
            && s'.master == t.master && s'.epoch == t.epoch
            && Log(s', xsent) && Leads(s', t, xsent) && Leads(t, s', ysent) && Received(s', ysent, xaccepted + [e])
  {
    var s1 := Open(s, e).next;
    var s' := Completed(s1, e);
    var dh := DiffieHellman(s.pending.value.ephemeral, e.ciphertext.payload.ephemeral);
    InboundKeepsLog(s, xsent, s1.inbound);
    CompleteKeepsLog(s1, xsent, dh);
    OpenTracks(s, xaccepted, e);
    RotateTracks(s1, Pairs(xaccepted + [e]), Next(s.master, dh));
    SameTracks(Rotate(s1, Next(s.master, dh)), s', Pairs(xaccepted + [e]));
    forall i | 0 <= i < |ysent| && IsResponse(ysent[i]) && ysent[i].epoch < s'.epoch
      ensures ysent[i] in xaccepted + [e]
    {
      if ysent[i].epoch == s.epoch {
        assert ysent[i] == e;
      }
    }
  }

  /** The initiator's rotation: it arrives at the responder's master. */
  lemma CompleteStep(x: Party, x': Party, y: Party, e: Envelope)
    requires Pair(x, y) && Open(S(x), e).result.Ok? && e in y.sent && IsResponse(e) && e.epoch == S(x).epoch
    requires x'.client == x.client.(crypto := x'.client.crypto, outboundSinceRekey := 0) && x'.client.crypto.Some?
    requires S(x).pending.Some? && S(x') == Completed(Open(S(x), e).next, e)
    requires x'.accepted == x.accepted + [e] && x'.sent == x.sent
    ensures Pair(x', y)
    ensures S(x').epoch == S(y).epoch && S(x').master == S(y).master
  {
    assert Answers(S(y), S(x), e);
    CompleteHalves(S(x), S(y), x.sent, y.sent, x.accepted, e);
  }

  lemma ReceiveChatKeepsPair(x: Party, y: Party, e: Envelope, draw: Draw)
    requires Pair(x, y) && Open(S(x), e).result.Ok? && e in y.sent
    requires IsChat(e) && Open(S(x), e).result.value == e.ciphertext.payload
    ensures Pair(ActReceive(x, EncryptedMessage(e), draw), y)
  {
    AbsorbStep(x, ActReceive(x, EncryptedMessage(e), draw), y, e);
  }

  lemma RefuseRequestKeepsPair(x: Party, y: Party, e: Envelope, draw: Draw)
    requires Pair(x, y) && Open(S(x), e).result.Ok? && e in y.sent
    requires IsRequest(e) && Open(S(x), e).result.value == e.ciphertext.payload
    requires InProgress(S(x)) || S(x).counter >= U64_MAX
    ensures Pair(ActReceive(x, EncryptedMessage(e), draw), y)
  {
    AbsorbStep(x, ActReceive(x, EncryptedMessage(e), draw), y, e);
  }

  function ReplyUnder(s: Session, messageId: MessageId, request: Envelope, ephemeral: nat): Envelope
    requires IsRequest(request)
  {
    SealedUnder(s, messageId, RekeyResponse(request.ciphertext.payload.rekeyId, PublicKey(ephemeral)))
  }

  lemma AnswerShape(x: Party, e: Envelope, draw: Draw)
    requires x.client.crypto.Some? && Open(S(x), e).result.Ok?
    requires IsRequest(e) && Open(S(x), e).result.value == e.ciphertext.payload
    requires !InProgress(S(x)) && S(x).counter < U64_MAX
    ensures var x' := ActReceive(x, EncryptedMessage(e), draw);
            var s := Open(S(x), e).next;
            && x'.client.crypto == Some(Answered(s, e, draw.ephemeral))
            && x'.client == x.client.(crypto := x'.client.crypto)
            && x'.sent == x.sent + [ReplyUnder(s, draw.messageId, e, draw.ephemeral)]
            && x'.accepted == x.accepted + [e] && x'.lines == x.lines && x'.shown == x.shown
  {
    var reply := ReplyUnder(Open(S(x), e).next, draw.messageId, e, draw.ephemeral);
    EnvelopesOfMessages(reply, reply);
  }

  lemma ReceiveRequestKeepsPair(x: Party, y: Party, e: Envelope, draw: Draw)
    requires Pair(x, y) && Open(S(x), e).result.Ok? && e in y.sent && e.epoch == S(x).epoch
    requires IsRequest(e) && Open(S(x), e).result.value == e.ciphertext.payload
    ensures Pair(ActReceive(x, EncryptedMessage(e), draw), y)
  {
    if InProgress(S(x)) || S(x).counter >= U64_MAX {
      RefuseRequestKeepsPair(x, y, e, draw);
    } else {
      AnswerShape(x, e, draw);
      AnswerStep(x, ActReceive(x, EncryptedMessage(e), draw), y, e, draw.messageId, draw.ephemeral);
    }
  }

  lemma ReceiveResponseKeepsPair(x: Party, y: Party, e: Envelope, draw: Draw)
    requires Pair(x, y) && Open(S(x), e).result.Ok? && e in y.sent && e.epoch == S(x).epoch
    requires IsResponse(e) && Open(S(x), e).result.value == e.ciphertext.payload
    ensures Pair(ActReceive(x, EncryptedMessage(e), draw), y)
  {
    assert Answers(S(y), S(x), e);
    CompleteStep(x, ActReceive(x, EncryptedMessage(e), draw), y, e);
  }

  lemma ReceiveKeepsPair(x: Party, y: Party, event: WireEvent, draw: Draw)
    requires Pair(x, y) && Allowed(x, y, Receive(event, draw))
    ensures Pair(ActReceive(x, event, draw), y)
  {
    if Opens(x, event) {
      var e := event.envelope;
      OpenedIsSent(x, y, e);
      match e.ciphertext.payload
      case Chat(_) => ReceiveChatKeepsPair(x, y, e, draw);
      case RekeyRequest(_, _) => ReceiveRequestKeepsPair(x, y, e, draw);
      case RekeyResponse(_, _) => ReceiveResponseKeepsPair(x, y, e, draw);
    } else {
      assert ActReceive(x, event, draw) == x;
    }
  }

  lemma ActKeepsPair(x: Party, y: Party, action: Action)
    requires Pair(x, y) && Allowed(x, y, action)
    ensures Pair(Act(x, action), y) && Pair(y, Act(x, action))
  {
    match action
    case Line(text, draw) => LineKeepsPair(x, y, text, draw);
    case Rekey(draw) => RekeyKeepsPair(x, y, draw);
    case Receive(event, draw) => ReceiveKeepsPair(x, y, event, draw);
  }
}
