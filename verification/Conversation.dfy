/** What every run of the two-party protocol guarantees. */
module Conversation {
  import opened Types
  import opened Contexts
  import opened Events
  import opened Crypto
  import opened Clients
  import opened SessionRuns
  import opened PairInvariant
  import ClientRuns

  datatype World = World(a: Party, b: Party)

  /** `onA` tells which side acts. */
  datatype Move = Move(onA: bool, action: Action)

  function Do(w: World, m: Move): World {
    if m.onA then w.(a := Act(w.a, m.action)) else w.(b := Act(w.b, m.action))
  }

  predicate Legal(w: World, m: Move) {
    if m.onA then Allowed(w.a, w.b, m.action) else Allowed(w.b, w.a, m.action)
  }

  predicate LegalRun(w: World, moves: seq<Move>)
    decreases |moves|
  {
    moves == [] || (Legal(w, moves[0]) && LegalRun(Do(w, moves[0]), moves[1..]))
  }

  function After(w: World, moves: seq<Move>): World
    decreases |moves|
  {
    if moves == [] then w else After(Do(w, moves[0]), moves[1..])
  }

  /** `x` has accepted the real key of `y` and done nothing since. */
  predicate Begins(x: Party, y: Party) {
    && x.client.peerKey == Some(PublicKey(y.client.secret))
    && x.client.crypto == Some(Fresh(x.client.secret, PublicKey(y.client.secret), x.client.localId, x.client.peerId))
    && x.client.peerId == y.client.localId
    && x.client.localId != x.client.peerId
    && x.sent == [] && x.accepted == [] && x.lines == [] && x.shown == []
  }

  predicate Start(w: World) {
    Begins(w.a, w.b) && Begins(w.b, w.a)
  }

  lemma StartIsPair(x: Party, y: Party)
    requires Begins(x, y) && Begins(y, x)
    ensures Pair(x, y)
  {
    SessionInfoIdentifiesPair(x.client.localId, x.client.peerId, y.client.localId, y.client.peerId);
    NoncePrefixInputIdentifiesDirection(x.client.localId, x.client.peerId, y.client.localId, y.client.peerId);
  }

  /** The invariant holds after every legal run. */
  lemma {:induction false} PairAlways(w: World, moves: seq<Move>)
    requires Pair(w.a, w.b) && Pair(w.b, w.a) && LegalRun(w, moves)
    ensures Pair(After(w, moves).a, After(w, moves).b) && Pair(After(w, moves).b, After(w, moves).a)
    decreases |moves|
  {
    if moves != [] {
      var m := moves[0];
      if m.onA {
        ActKeepsPair(w.a, w.b, m.action);
      } else {
        ActKeepsPair(w.b, w.a, m.action);
      }
      PairAlways(Do(w, m), moves[1..]);
    }
  }

  lemma ReachableIsPair(w: World, moves: seq<Move>)
    requires Start(w) && LegalRun(w, moves)
    ensures Pair(After(w, moves).a, After(w, moves).b) && Pair(After(w, moves).b, After(w, moves).a)
  {
    StartIsPair(w.a, w.b);
    StartIsPair(w.b, w.a);
    PairAlways(w, moves);
  }

  // ---------- key agreement ----------

  /** `s` is exactly one chain step ahead of `t`, whose handshake is still pending. */
  ghost predicate OneStepAhead(s: Session, t: Session) {
    && s.epoch == t.epoch + 1
    && t.pending.Some?
    && s.master.Next? && s.master.prev == t.master
    && exists key :: s.master.dh == DiffieHellman(t.pending.value.ephemeral, key)
  }

  /** Equal epochs mean equal keys; otherwise the sides are one chain step apart and the later one will follow. */
  lemma KeyAgreement(w: World, moves: seq<Move>)
    requires Start(w) && LegalRun(w, moves)
    ensures After(w, moves).a.client.crypto.Some? && After(w, moves).b.client.crypto.Some?
    ensures var (s, t) := (S(After(w, moves).a), S(After(w, moves).b));
            || (s.epoch == t.epoch && s.master == t.master && forall g :: CipherFor(s, g) == CipherFor(t, g))
            || OneStepAhead(s, t) || OneStepAhead(t, s)
  {
    ReachableIsPair(w, moves);
    var x, y := After(w, moves).a, After(w, moves).b;
    AheadIsOneStep(x, y);
    AheadIsOneStep(y, x);
  }

  lemma AheadIsOneStep(x: Party, y: Party)
    requires Pair(x, y)
    ensures S(x).epoch > S(y).epoch ==> OneStepAhead(S(x), S(y))
  {
    if S(x).epoch > S(y).epoch {
      var i :| 0 <= i < |x.sent| && IsResponse(x.sent[i]) && x.sent[i].epoch == S(y).epoch;
      assert Answers(S(x), S(y), x.sent[i]);
    }
  }

  // ---------- what opens ----------

  /** The fate of every envelope the peer sent, decided by its epoch and whether it was accepted before. */
  function Fate(x: Party, e: Envelope): Result<SessionPayload, CryptoError>
    requires x.client.crypto.Some? && Holds(e)
  {
    if e.epoch == S(x).epoch then
      if e in x.accepted then Err(DuplicateNonce) else Ok(e.ciphertext.payload)
    else if e.epoch + 1 == S(x).epoch then Err(AuthenticationFailed)
    else Err(UnknownEpoch)
  }

  lemma SameNonceSameEnvelope(s: Session, sent: seq<Envelope>, e: Envelope, f: Envelope)
    requires Log(s, sent) && e in sent && f in sent && e.nonce == f.nonce
    ensures e == f
  {
    var i :| 0 <= i < |sent| && sent[i] == e;
    var j :| 0 <= j < |sent| && sent[j] == f;
  }

  /** Opening characterised: first delivery at the present epoch opens, everything else is refused without effect. */
  lemma OpeningCharacterised(x: Party, y: Party, e: Envelope)
    requires Pair(x, y) && e in y.sent
    ensures Holds(e) && Open(S(x), e).result == Fate(x, e)
    ensures Open(S(x), e).result.Err? ==> Open(S(x), e).next == S(x)
    ensures e !in x.accepted ==> (Open(S(x), e).result.Ok? <==> e.epoch == S(x).epoch)
  {
    assert Written(S(y), e);
    UnlocksIffCurrent(x, y, e);
    if e.nonce in Seen(S(x), e.epoch) && e.epoch == S(x).epoch {
      assert (e.epoch, e.nonce) in Pairs(x.accepted);
      var k :| 0 <= k < |x.accepted| && (x.accepted[k].epoch, x.accepted[k].nonce) == (e.epoch, e.nonce);
      SameNonceSameEnvelope(S(y), y.sent, x.accepted[k], e);
    }
    if e in x.accepted {
      var k :| 0 <= k < |x.accepted| && x.accepted[k] == e;
      assert (x.accepted[k].epoch, x.accepted[k].nonce) in Pairs(x.accepted);
    }
  }

  /** The state of affairs in which a line meets a receiver that has already rotated. */
  ghost predicate Overtaken(w: World, e: Envelope) {
    && w.b.client.crypto.Some?
    && e in w.a.sent && IsChat(e) && e !in w.b.accepted && InWindow(S(w.b), e.epoch)
    && Open(S(w.b), e).result == Err(AuthenticationFailed)
  }

  /**
   The documented grace for the previous epoch does not exist: a line, then a rekey request that overtakes it, and
   the line is refused although its epoch is inside the window and it was never delivered.
   */
  lemma PreviousEpochIsRefused(w: World, text: string, p: Draw) returns (moves: seq<Move>, e: Envelope)
    requires Start(w) && w.a.client.autoRekeyAfter.None?
    ensures LegalRun(w, moves) && Overtaken(After(w, moves), e)
  {
    SaysThenAsks(w.a, w.b, text, p);
    var x := ActRekey(ActLine(w.a, text, p), p);
    OvertakenByRequest(x, w.b, x.sent[0], x.sent[1], p);
    var event := EncryptedMessage(x.sent[1]);
    SayAskDeliver(w, text, p, event);
    moves := [Move(true, Line(text, p)), Move(true, Rekey(p)), Move(false, Receive(event, p))];
    e := x.sent[0];
  }

  /** The run that says a line, asks for a rekey and delivers an event to the peer. */
  lemma SayAskDeliver(w: World, text: string, p: Draw, event: WireEvent)
    requires Allowed(w.b, ActRekey(ActLine(w.a, text, p), p), Receive(event, p))
    ensures var moves := [Move(true, Line(text, p)), Move(true, Rekey(p)), Move(false, Receive(event, p))];
            && LegalRun(w, moves)
            && After(w, moves) == World(ActRekey(ActLine(w.a, text, p), p), ActReceive(w.b, event, p))
  {
    ThreeMoves(w, Move(true, Line(text, p)), Move(true, Rekey(p)), Move(false, Receive(event, p)));
  }

  lemma SaysThenAsksShape(x: Party, text: string, p: Draw)
    requires x.client.crypto.Some? && x.client.autoRekeyAfter.None? && x.sent == []
    requires S(x).counter + 1 < U64_MAX && S(x).pending.None?
    ensures var x' := ActRekey(ActLine(x, text, p), p);
            && |x'.sent| == 2 && IsChat(x'.sent[0]) && IsRequest(x'.sent[1])
            && x'.sent[0].epoch == x'.sent[1].epoch == S(x).epoch
  {
    PlainLineShape(x, text, p);
    RekeyShape(ActLine(x, text, p), p);
  }

  lemma SaysThenAsks(x: Party, y: Party, text: string, p: Draw)
    requires Begins(x, y) && Begins(y, x) && x.client.autoRekeyAfter.None?
    ensures var x' := ActRekey(ActLine(x, text, p), p);
            && Pair(x', y) && Pair(y, x')
            && |x'.sent| == 2 && IsChat(x'.sent[0]) && IsRequest(x'.sent[1])
            && x'.sent[0].epoch == x'.sent[1].epoch == S(y).epoch
  {
    SaysThenAsksShape(x, text, p);
    StartIsPair(x, y);
    TwoActionsKeepPair(x, y, Line(text, p), Rekey(p));
  }

  lemma TwoActionsKeepPair(x: Party, y: Party, a: Action, b: Action)
    requires Pair(x, y) && !a.Receive? && !b.Receive?
    ensures Pair(Act(Act(x, a), b), y) && Pair(y, Act(Act(x, a), b))
  {
    ActKeepsPair(x, y, a);
    ActKeepsPair(Act(x, a), y, b);
  }

  lemma ThreeMoves(w: World, m1: Move, m2: Move, m3: Move)
    ensures After(w, [m1, m2, m3]) == Do(Do(Do(w, m1), m2), m3)
    ensures LegalRun(w, [m1, m2, m3]) <==> Legal(w, m1) && Legal(Do(w, m1), m2) && Legal(Do(Do(w, m1), m2), m3)
  {
    assert [m1, m2, m3][1..] == [m2, m3] && [m2, m3][1..] == [m3] && [m3][1..] == [];
    var w2 := Do(Do(w, m1), m2);
    assert After(w2, [m3]) == After(Do(w2, m3), []);
    assert LegalRun(w2, [m3]) <==> Legal(w2, m3);
  }

  /** Delivering what the peer sent keeps the invariant. */
  lemma ReceiveSentKeepsPair(x: Party, y: Party, e: Envelope, draw: Draw)
    requires Pair(x, y) && e in y.sent
    ensures var x' := ActReceive(x, EncryptedMessage(e), draw); Pair(x', y) && Pair(y, x')
  {
    assert Overheard(e.ciphertext, y.sent);
    ActKeepsPair(x, y, Receive(EncryptedMessage(e), draw));
  }

  /** A free side answers a request of its epoch and is one epoch ahead. */
  lemma RequestAdvances(x: Party, y: Party, request: Envelope, draw: Draw)
    requires Pair(y, x) && request in x.sent && IsRequest(request)
    requires request.epoch == S(y).epoch && y.accepted == [] && !InProgress(S(y)) && S(y).counter < U64_MAX
    ensures var y' := ActReceive(y, EncryptedMessage(request), draw);
            y'.client.crypto.Some? && S(y').epoch == S(y).epoch + 1 && y'.accepted == [request]
  {
    OpeningCharacterised(y, x, request);
    AnswerShape(y, request, draw);
  }

  lemma OvertakenByRequest(x: Party, y: Party, chat: Envelope, request: Envelope, draw: Draw)
    requires Pair(x, y) && Pair(y, x)
    requires chat in x.sent && IsChat(chat) && request in x.sent && IsRequest(request)
    requires chat.epoch == request.epoch == S(y).epoch && y.accepted == []
    requires !InProgress(S(y)) && S(y).counter < U64_MAX
    ensures Overheard(request.ciphertext, x.sent)
    ensures Overtaken(World(x, ActReceive(y, EncryptedMessage(request), draw)), chat)
  {
    RequestAdvances(x, y, request, draw);
    ReceiveSentKeepsPair(y, x, request, draw);
    assert Overheard(request.ciphertext, x.sent);
    OpeningCharacterised(ActReceive(y, EncryptedMessage(request), draw), x, chat);
  }

  /** A session opens an envelope of its own exactly when it talks to itself, so distinct ids rule out reflection. */
  lemma ReflectionNeedsEqualIds(s: Session, messageId: MessageId, payload: SessionPayload)
    requires s.counter < U64_MAX
    ensures var e := SealedUnder(s, messageId, payload);
            Open(Seal(s, messageId, payload).next, e).result.Ok?
            <==> s.localId == s.peerId && e.nonce !in Seen(s, s.epoch)
  {
  }

  // ---------- no invention, at most once ----------

  function Texts(log: seq<Envelope>): seq<string> {
    if log == [] then []
    else Texts(log[..|log| - 1])
         + (if IsChat(log[|log| - 1]) then [log[|log| - 1].ciphertext.payload.text] else [])
  }

  lemma {:induction false} TextsConcat(p: seq<Envelope>, q: seq<Envelope>)
    ensures Texts(p + q) == Texts(p) + Texts(q)
  {
    if q == [] {
      assert p + q == p;
    } else {
      TextsConcat(p, q[..|q| - 1]);
      assert (p + q)[..|p + q| - 1] == p + q[..|q| - 1];
    }
  }

  /** Lines are the chat sent, reports are the chat accepted. */
  predicate Books(x: Party) {
    x.lines == Texts(x.sent) && x.shown == Texts(x.accepted)
  }

  lemma TextsOfOne(e: Envelope)
    ensures Texts([e]) == if IsChat(e) then [e.ciphertext.payload.text] else []
  {
    assert [e][..0] == [];
  }

  lemma TextsOfDue(s: Session, text: string, draw: Draw)
    ensures Texts(DueSent(s, text, draw)) == if s.counter + 1 < U64_MAX then [text] else []
  {
    var sent := DueSent(s, text, draw);
    if sent != [] {
      TextsOfOne(sent[0]);
      TextsOfOne(sent[1]);
      TextsConcat([sent[0]], [sent[1]]);
      assert sent == [sent[0]] + [sent[1]];
    }
  }

  lemma PlainLineKeepsBooks(x: Party, text: string, draw: Draw)
    requires x.client.crypto.Some? && Books(x) && S(x).counter < U64_MAX && !RekeyDue(x.client)
    ensures Books(ActLine(x, text, draw))
  {
    var chat := SealedUnder(S(x), draw.messageId, Chat(text));
    PlainLineShape(x, text, draw);
    TextsOfOne(chat);
    TextsConcat(x.sent, [chat]);
  }

  lemma DueLineKeepsBooks(x: Party, text: string, draw: Draw)
    requires x.client.crypto.Some? && Books(x) && S(x).counter < U64_MAX && RekeyDue(x.client)
    ensures Books(ActLine(x, text, draw))
  {
    DueLineShape(x, text, draw);
    TextsOfDue(S(x), text, draw);
    TextsConcat(x.sent, DueSent(S(x), text, draw));
  }

  lemma LineKeepsBooks(x: Party, text: string, draw: Draw)
    requires x.client.crypto.Some? && Books(x)
    ensures Books(ActLine(x, text, draw))
  {
    if S(x).counter >= U64_MAX {
      assert ActLine(x, text, draw) == x;
    } else if RekeyDue(x.client) {
      DueLineKeepsBooks(x, text, draw);
    } else {
      PlainLineKeepsBooks(x, text, draw);
    }
  }

  lemma RekeyKeepsBooks(x: Party, draw: Draw)
    requires x.client.crypto.Some? && Books(x)
    ensures Books(ActRekey(x, draw))
  {
    if S(x).pending.None? {
      RekeyShape(x, draw);
      var request := RequestUnder(S(x), draw.messageId, Pending(draw.rekeyId, draw.ephemeral));
      TextsOfOne(request);
      TextsConcat(x.sent, [request]);
    }
  }

  lemma AnswerKeepsBooks(x: Party, e: Envelope, draw: Draw)
    requires x.client.crypto.Some? && Books(x)
    requires Open(S(x), e).result.Ok? && IsRequest(e) && Open(S(x), e).result.value == e.ciphertext.payload
    requires !InProgress(S(x)) && S(x).counter < U64_MAX
    ensures Books(ActReceive(x, EncryptedMessage(e), draw))
  {
    AnswerShape(x, e, draw);
    var reply := ReplyUnder(Open(S(x), e).next, draw.messageId, e, draw.ephemeral);
    TextsOfOne(e);
    TextsConcat(x.accepted, [e]);
    TextsOfOne(reply);
    TextsConcat(x.sent, [reply]);
  }

  /** Anything else that opens is accepted, and reported if it is chat; nothing is sent. */
  lemma UnansweredShape(x: Party, e: Envelope, draw: Draw)
    requires x.client.crypto.Some?
    requires Open(S(x), e).result.Ok? && Holds(e) && Open(S(x), e).result.value == e.ciphertext.payload
    requires !(IsRequest(e) && !InProgress(S(x)) && S(x).counter < U64_MAX)
    ensures var x' := ActReceive(x, EncryptedMessage(e), draw);
            && x'.sent == x.sent && x'.lines == x.lines && x'.accepted == x.accepted + [e]
            && x'.shown == x.shown + (if IsChat(e) then [e.ciphertext.payload.text] else [])
  {
  }

  lemma ReceiveKeepsBooks(x: Party, e: Envelope, draw: Draw)
    requires x.client.crypto.Some? && Books(x)
    requires Open(S(x), e).result.Ok? && Holds(e) && Open(S(x), e).result.value == e.ciphertext.payload
    ensures Books(ActReceive(x, EncryptedMessage(e), draw))
  {
    if IsRequest(e) && !InProgress(S(x)) && S(x).counter < U64_MAX {
      AnswerKeepsBooks(x, e, draw);
    } else {
      UnansweredShape(x, e, draw);
      TextsOfOne(e);
      TextsConcat(x.accepted, [e]);
    }
  }

  lemma ActKeepsBooks(x: Party, y: Party, action: Action)
    requires Pair(x, y) && Allowed(x, y, action) && Books(x)
    ensures Books(Act(x, action))
  {
    match action
    case Line(text, draw) => LineKeepsBooks(x, text, draw);
    case Rekey(draw) => RekeyKeepsBooks(x, draw);
    case Receive(event, draw) =>
      if Opens(x, event) {
        OpenedIsSent(x, y, event.envelope);
        ReceiveKeepsBooks(x, event.envelope, draw);
      } else {
        IgnoredChangesNothing(x, y, event, draw);
      }
  }

  lemma {:induction false} BooksAlways(w: World, moves: seq<Move>)
    requires Pair(w.a, w.b) && Pair(w.b, w.a) && LegalRun(w, moves) && Books(w.a) && Books(w.b)
    ensures Books(After(w, moves).a) && Books(After(w, moves).b)
    decreases |moves|
  {
    if moves != [] {
      var m := moves[0];
      if m.onA {
        ActKeepsPair(w.a, w.b, m.action);
        ActKeepsBooks(w.a, w.b, m.action);
      } else {
        ActKeepsPair(w.b, w.a, m.action);
        ActKeepsBooks(w.b, w.a, m.action);
      }
      BooksAlways(Do(w, m), moves[1..]);
    }
  }

  lemma TextsMiddle(p: seq<Envelope>, e: Envelope, q: seq<Envelope>)
    ensures multiset(Texts(p + [e] + q)) == multiset(Texts(p + q)) + multiset(Texts([e]))
  {
    TextsConcat(p + [e], q);
    TextsConcat(p, [e]);
    TextsConcat(p, q);
  }

  /** Each text of a log drawn without repetition from another log has its own counterpart there. */
  lemma {:induction false} TextsWithin(part: seq<Envelope>, whole: seq<Envelope>)
    requires multiset(part) <= multiset(whole)
    ensures multiset(Texts(part)) <= multiset(Texts(whole))
  {
    if part != [] {
      var front, e := part[..|part| - 1], part[|part| - 1];
      assert part == front + [e];
      assert e in multiset(whole);
      var i :| 0 <= i < |whole| && whole[i] == e;
      var p, q := whole[..i], whole[i + 1..];
      assert whole == p + [e] + q;
      TakeOne(front, e, p, q);
      TextsWithin(front, p + q);
      TextsMiddle(p, e, q);
      TextsConcat(front, [e]);
    }
  }

  lemma TakeOne(front: seq<Envelope>, e: Envelope, p: seq<Envelope>, q: seq<Envelope>)
    requires multiset(front + [e]) <= multiset(p + [e] + q)
    ensures multiset(front) <= multiset(p + q)
  {
    assert multiset(front + [e]) == multiset(front) + multiset{e};
    assert multiset(p + [e] + q) == multiset(p) + multiset{e} + multiset(q);
    assert multiset(p + q) == multiset(p) + multiset(q);
    forall f | f in multiset(front)
      ensures multiset(front)[f] <= multiset(p + q)[f]
    {
      assert multiset(front + [e])[f] <= multiset(p + [e] + q)[f];
    }
  }

  lemma {:induction false} DistinctWithin(part: seq<Envelope>, whole: seq<Envelope>)
    requires Distinct(part) && forall k | 0 <= k < |part| :: part[k] in whole
    ensures multiset(part) <= multiset(whole)
  {
    forall e | e in multiset(part)
      ensures multiset(part)[e] <= multiset(whole)[e]
    {
      DistinctCountsOnce(part, e);
    }
  }

  lemma {:induction false} DistinctCountsOnce(part: seq<Envelope>, e: Envelope)
    requires Distinct(part)
    ensures multiset(part)[e] <= 1
  {
    if part != [] {
      var front, f := part[..|part| - 1], part[|part| - 1];
      assert part == front + [f];
      DistinctCountsOnce(front, e);
      if f == e {
        assert e !in front;
      }
    }
  }

  /**
   Against a network that alters and injects at will: everything accepted is an envelope the peer sent,
   unaltered, no (epoch, nonce) pair twice; and every reported text has its own line of the peer.
   */
  lemma NoInvention(w: World, moves: seq<Move>)
    requires Start(w) && LegalRun(w, moves)
    ensures var (x, y) := (After(w, moves).a, After(w, moves).b);
            && Distinct(y.accepted) && (forall k | 0 <= k < |y.accepted| :: y.accepted[k] in x.sent)
            && Distinct(x.accepted) && (forall k | 0 <= k < |x.accepted| :: x.accepted[k] in y.sent)
            && multiset(y.shown) <= multiset(x.lines)
            && multiset(x.shown) <= multiset(y.lines)
  {
    ReachableIsPair(w, moves);
    StartIsPair(w.a, w.b);
    StartIsPair(w.b, w.a);
    BooksAlways(w, moves);
    var x, y := After(w, moves).a, After(w, moves).b;
    DistinctWithin(y.accepted, x.sent);
    TextsWithin(y.accepted, x.sent);
    DistinctWithin(x.accepted, y.sent);
    TextsWithin(x.accepted, y.sent);
  }

  // ---------- the reply stays usable ----------

  /** The action delivers a reply that opens. */
  predicate TakesReply(x: Party, action: Action) {
    action.Receive? && Opens(x, action.event) && IsResponse(action.event.envelope)
  }

  /** A party with a pending handshake moves on only by accepting the peer's reply, and that reply completes it. */
  lemma PendingWaits(x: Party, y: Party, action: Action)
    requires Pair(x, y) && Allowed(x, y, action) && S(x).pending.Some?
    ensures Act(x, action).client.crypto.Some?
    ensures var s := S(Act(x, action));
            if TakesReply(x, action)
            then s.pending.None? && s.epoch == S(x).epoch + 1 == S(y).epoch && s.master == S(y).master
            else SameHandshake(s, S(x))
  {
    if TakesReply(x, action) {
      OpenedReplyCompletes(x, y, action.event.envelope, action.draw);
    } else {
      OtherwiseWaits(x, y, action);
    }
  }

  lemma OpenedReplyCompletes(x: Party, y: Party, e: Envelope, draw: Draw)
    requires Pair(x, y) && CanPresent(e.ciphertext, x, y) && Open(S(x), e).result.Ok? && IsResponse(e)
    ensures var x' := ActReceive(x, EncryptedMessage(e), draw);
            && x'.client.crypto.Some? && S(x').pending.None?
            && S(x').epoch == S(x).epoch + 1 == S(y).epoch && S(x').master == S(y).master
  {
    OpenedIsSent(x, y, e);
    assert Written(S(y), e);
    assert Answers(S(y), S(x), e);
  }

  /** Equal but for the counter and the replay sets. */
  predicate SameHandshake(s: Session, t: Session) {
    s.(counter := 0, inbound := map[]) == t.(counter := 0, inbound := map[])
  }

  lemma LineWaits(x: Party, text: string, draw: Draw)
    requires x.client.crypto.Some? && S(x).pending.Some?
    ensures var x' := ActLine(x, text, draw); x'.client.crypto.Some? && SameHandshake(S(x'), S(x))
  {
  }

  lemma RekeyWaits(x: Party, draw: Draw)
    requires x.client.crypto.Some? && S(x).pending.Some?
    ensures ActRekey(x, draw) == x
  {
  }

  lemma ReceiveWaits(x: Party, e: Envelope, draw: Draw)
    requires x.client.crypto.Some? && S(x).pending.Some? && Open(S(x), e).result.Ok?
    requires !Open(S(x), e).result.value.RekeyResponse?
    ensures var x' := ActReceive(x, EncryptedMessage(e), draw); x'.client.crypto.Some? && SameHandshake(S(x'), S(x))
  {
  }

  lemma OtherwiseWaits(x: Party, y: Party, action: Action)
    requires Pair(x, y) && Allowed(x, y, action) && S(x).pending.Some? && !TakesReply(x, action)
    ensures Act(x, action).client.crypto.Some? && SameHandshake(S(Act(x, action)), S(x))
  {
    match action
    case Line(text, draw) => LineWaits(x, text, draw);
    case Rekey(draw) => RekeyWaits(x, draw);
    case Receive(event, draw) =>
      if Opens(x, event) {
        OpenedIsSent(x, y, event.envelope);
        ReceiveWaits(x, event.envelope, draw);
      } else {
        IgnoredChangesNothing(x, y, event, draw);
      }
  }

  /** In a conversation whatever does not open leaves the party as it was. */
  lemma IgnoredChangesNothing(x: Party, y: Party, event: WireEvent, draw: Draw)
    requires Peers(x, y) && !Opens(x, event)
    ensures ActReceive(x, event, draw) == x
  {
  }

  /** However late it arrives, the first copy of a reply completes the handshake and closes the gap. */
  lemma ReplyCompletes(x: Party, y: Party, e: Envelope, draw: Draw)
    requires Pair(x, y) && e in y.sent && IsResponse(e) && e !in x.accepted
    ensures var r := HandleEvent(x.client, EncryptedMessage(e), draw);
            && r.result == Ok(InboundOutcome(Some(RekeyCompleted(e.epoch + 1)), None))
            && r.next.crypto.Some?
            && r.next.crypto.value.epoch == S(y).epoch == S(x).epoch + 1
            && r.next.crypto.value.master == S(y).master
            && r.next.crypto.value.pending.None?
  {
    OpeningCharacterised(x, y, e);
    assert Written(S(y), e);
    assert e.epoch == S(x).epoch;
    assert Answers(S(y), S(x), e);
  }

  /** A request that opens while its receiver is free is answered at the old epoch, leaving nothing staged. */
  lemma RequestIsAnswered(x: Party, y: Party, e: Envelope, draw: Draw)
    requires Pair(x, y) && e in y.sent && IsRequest(e) && e !in x.accepted && e.epoch == S(x).epoch
    ensures var r := HandleEvent(x.client, EncryptedMessage(e), draw);
            && r.next.crypto.Some?
            && var s := r.next.crypto.value;
               if InProgress(S(x)) then
                 && r.result == Err(CryptoFailure(RekeyAlreadyInProgress))
                 && s.epoch == S(x).epoch && s.staged == S(x).staged
               else if S(x).counter == U64_MAX then
                 r.result == Err(CryptoFailure(NonceExhausted)) && s.epoch == S(x).epoch && s.staged.Some?
               else
                 && r.result.Ok? && r.result.value.event.None? && r.result.value.reply.Some?
                 && r.result.value.reply.value.EncryptedMessage?
                 && var reply := r.result.value.reply.value.envelope;
                    && reply.epoch == S(x).epoch && reply.messageId == draw.messageId
                    && reply.sender == x.client.localId && reply.recipient == x.client.peerId
                    && reply.ciphertext.Sealed?
                    && reply.ciphertext.payload
                       == RekeyResponse(e.ciphertext.payload.rekeyId, PublicKey(draw.ephemeral))
                    && s.epoch == S(x).epoch + 1 && s.staged.None?
                    && s.master == Next(S(x).master, DiffieHellman(draw.ephemeral, e.ciphertext.payload.ephemeral))
  {
    OpeningCharacterised(x, y, e);
    AnswerOutcome(x.client, e, draw);
  }

  /** What the client makes of a request that opens. */
  lemma AnswerOutcome(c: Client, e: Envelope, draw: Draw)
    requires c.crypto.Some? && c.crypto.value.counter <= U64_MAX && IsRequest(e)
    requires Open(c.crypto.value, e).result == Ok(e.ciphertext.payload)
    ensures var r, s := HandleEvent(c, EncryptedMessage(e), draw), c.crypto.value;
            && r.next.crypto.Some?
            && var t := r.next.crypto.value;
               if InProgress(s) then
                 && r.result == Err(CryptoFailure(RekeyAlreadyInProgress)) && t.epoch == s.epoch && t.staged == s.staged
               else if s.counter == U64_MAX then
                 r.result == Err(CryptoFailure(NonceExhausted)) && t.epoch == s.epoch && t.staged.Some?
               else
                 && r.result.Ok? && r.result.value.event.None? && r.result.value.reply.Some?
                 && r.result.value.reply.value.EncryptedMessage?
                 && var reply := r.result.value.reply.value.envelope;
                    && reply.epoch == s.epoch && reply.messageId == draw.messageId
                    && reply.sender == s.localId && reply.recipient == s.peerId
                    && reply.ciphertext.Sealed?
                    && reply.ciphertext.payload
                       == RekeyResponse(e.ciphertext.payload.rekeyId, PublicKey(draw.ephemeral))
                    && t.epoch == s.epoch + 1 && t.staged.None?
                    && t.master == Next(s.master, DiffieHellman(draw.ephemeral, e.ciphertext.payload.ephemeral))
  {
  }

  // ---------- what stays staged between calls ----------

  predicate HasStaged(x: Party) {
    x.client.crypto.Some? && S(x).staged.Some?
  }

  /** A request opens at a free side that has no nonce left for its reply. */
  predicate Jams(x: Party, action: Action) {
    && action.Receive? && Opens(x, action.event) && IsRequest(action.event.envelope)
    && !InProgress(S(x)) && S(x).counter == U64_MAX
  }

  lemma LineStages(x: Party, text: string, draw: Draw)
    requires x.client.crypto.Some?
    ensures HasStaged(ActLine(x, text, draw)) <==> HasStaged(x)
  {
  }

  lemma RekeyStages(x: Party, draw: Draw)
    requires x.client.crypto.Some?
    ensures HasStaged(ActRekey(x, draw)) <==> HasStaged(x)
  {
  }

  lemma ReceiveStages(x: Party, e: Envelope, draw: Draw)
    requires x.client.crypto.Some? && S(x).counter <= U64_MAX
    requires Open(S(x), e).result.Ok? && Holds(e) && Open(S(x), e).result.value == e.ciphertext.payload
    ensures HasStaged(ActReceive(x, EncryptedMessage(e), draw))
            <==> HasStaged(x) || (IsRequest(e) && !InProgress(S(x)) && S(x).counter == U64_MAX)
  {
  }

  /** After any action something is staged if and only if it was before, or the action jams. */
  lemma StagedIffActJams(x: Party, y: Party, action: Action)
    requires Pair(x, y) && Allowed(x, y, action)
    ensures HasStaged(Act(x, action)) <==> HasStaged(x) || Jams(x, action)
  {
    match action
    case Line(text, draw) => LineStages(x, text, draw);
    case Rekey(draw) => RekeyStages(x, draw);
    case Receive(event, draw) =>
      if Opens(x, event) {
        OpenedIsSent(x, y, event.envelope);
        ReceiveStages(x, event.envelope, draw);
      } else {
        IgnoredChangesNothing(x, y, event, draw);
      }
  }

  /** Some move of the run jams the side that `onA` tells. */
  predicate Jammed(w: World, moves: seq<Move>, onA: bool)
    decreases |moves|
  {
    && moves != []
    && (|| (moves[0].onA == onA && Jams(if onA then w.a else w.b, moves[0].action))
        || Jammed(Do(w, moves[0]), moves[1..], onA))
  }

  lemma {:induction false} StagedIffJammedFrom(w: World, moves: seq<Move>, onA: bool)
    requires Pair(w.a, w.b) && Pair(w.b, w.a) && LegalRun(w, moves)
    ensures var (x, x') := (if onA then w.a else w.b, if onA then After(w, moves).a else After(w, moves).b);
            HasStaged(x') <==> HasStaged(x) || Jammed(w, moves, onA)
    decreases |moves|
  {
    if moves != [] {
      var m := moves[0];
      var x, y := if m.onA then w.a else w.b, if m.onA then w.b else w.a;
      ActKeepsPair(x, y, m.action);
      StagedIffActJams(x, y, m.action);
      StagedIffJammedFrom(Do(w, m), moves[1..], onA);
    }
  }

  /**
   In every run, a rotation is left staged between calls if and only if a request reached that side while it was free
   and without a nonce for the reply; and it stays without one.
   */
  lemma StagedIffJammed(w: World, moves: seq<Move>, onA: bool)
    requires Start(w) && LegalRun(w, moves)
    ensures var x := if onA then After(w, moves).a else After(w, moves).b;
            && (HasStaged(x) <==> Jammed(w, moves, onA))
            && (HasStaged(x) ==> S(x).counter == U64_MAX)
  {
    ReachableIsPair(w, moves);
    StartIsPair(w.a, w.b);
    StartIsPair(w.b, w.a);
    StagedIffJammedFrom(w, moves, onA);
  }

  ghost predicate Reaches(w: World, w': World) {
    exists moves :: LegalRun(w, moves) && After(w, moves) == w'
  }

  lemma {:induction false} OneMoreMove(w: World, moves: seq<Move>, m: Move)
    requires LegalRun(w, moves) && Legal(After(w, moves), m)
    ensures LegalRun(w, moves + [m]) && After(w, moves + [m]) == Do(After(w, moves), m)
    decreases |moves|
  {
    if moves == [] {
      assert moves + [m] == [m] && [m][1..] == [];
      assert LegalRun(Do(w, m), []) && After(Do(w, m), []) == Do(w, m);
    } else {
      assert (moves + [m])[1..] == moves[1..] + [m];
      OneMoreMove(Do(w, moves[0]), moves[1..], m);
    }
  }

  lemma ReachesOn(w: World, w': World, m: Move)
    requires Reaches(w, w') && Legal(w', m)
    ensures Reaches(w, Do(w', m))
  {
    var moves :| LegalRun(w, moves) && After(w, moves) == w';
    OneMoreMove(w, moves, m);
  }

  /** Side `b` has said `n` lines and nothing else has happened. */
  predicate Talked(w: World, w': World, n: nat) {
    && w'.a == w.a && w'.b.accepted == [] && w'.b.client.autoRekeyAfter.None? && w'.b.client.crypto.Some?
    && S(w'.b).counter == n && !InProgress(S(w'.b)) && S(w'.b).epoch == 0
  }

  lemma {:induction false} TalksOn(w: World, n: nat, text: string, p: Draw) returns (w': World)
    requires Start(w) && w.b.client.autoRekeyAfter.None? && n <= U64_MAX
    ensures Reaches(w, w') && Talked(w, w', n)
    decreases n
  {
    if n == 0 {
      w' := w;
      assert LegalRun(w, []) && After(w, []) == w;
    } else {
      var v := TalksOn(w, n - 1, text, p);
      PlainLineShape(v.b, text, p);
      ReachesOn(w, v, Move(false, Line(text, p)));
      w' := Do(v, Move(false, Line(text, p)));
    }
  }

  lemma ReachedIsPair(w: World, w': World)
    requires Start(w) && Reaches(w, w')
    ensures Pair(w'.a, w'.b) && Pair(w'.b, w'.a)
  {
    var moves :| LegalRun(w, moves) && After(w, moves) == w';
    ReachableIsPair(w, moves);
  }

  /** A side that has used every nonce and then gets a request is left with a staged rotation. */
  lemma JamHappens(w: World, text: string, p: Draw)
    requires Start(w) && w.b.client.autoRekeyAfter.None?
    ensures exists w' :: Reaches(w, w') && HasStaged(w'.b)
  {
    var v := TalksOn(w, U64_MAX, text, p);
    ReachesOn(w, v, Move(true, Rekey(p)));
    var u := Do(v, Move(true, Rekey(p)));
    ReachedIsPair(w, u);
    AskingSends(w, p);
    var e := u.a.sent[0];
    RequestJams(u.b, u.a, e, p);
    ReachesOn(w, u, Move(false, Receive(EncryptedMessage(e), p)));
  }

  lemma AskingSends(w: World, p: Draw)
    requires Start(w)
    ensures var x := ActRekey(w.a, p); |x.sent| == 1 && IsRequest(x.sent[0]) && x.sent[0].epoch == 0
  {
    RekeyShape(w.a, p);
  }

  lemma RequestJams(x: Party, y: Party, e: Envelope, draw: Draw)
    requires Pair(x, y) && e in y.sent && IsRequest(e) && e.epoch == S(x).epoch && e !in x.accepted
    requires !InProgress(S(x)) && S(x).counter == U64_MAX
    ensures Allowed(x, y, Receive(EncryptedMessage(e), draw)) && HasStaged(ActReceive(x, EncryptedMessage(e), draw))
  {
    OpeningCharacterised(x, y, e);
    assert Overheard(e.ciphertext, y.sent);
    ReceiveStages(x, e, draw);
  }

  // ---------- sessions stay bound to their ids ----------

  predicate SessionBound(x: Party) {
    x.client.crypto.Some? && BoundTo(S(x), x.client.localId, x.client.peerId)
  }

  lemma BeginsBound(x: Party, y: Party)
    requires Begins(x, y)
    ensures SessionBound(x)
  {
    SessionStaysBound(x.client.secret, PublicKey(y.client.secret), x.client.localId, x.client.peerId, []);
  }

  function CallOf(action: Action): ClientRuns.Call {
    match action
    case Line(text, draw) => ClientRuns.LineCall(text, draw)
    case Rekey(draw) => ClientRuns.RekeyCall(draw)
    case Receive(event, draw) => ClientRuns.EventCall(event, draw)
  }

  lemma ActIsCall(x: Party, action: Action)
    ensures Act(x, action).client == ClientRuns.After(x.client, CallOf(action))
  {
  }

  lemma ActKeepsNames(x: Party, action: Action)
    ensures Act(x, action).client.localId == x.client.localId && Act(x, action).client.peerId == x.client.peerId
  {
    if action.Receive? {
      ReceiveKeepsNames(x.client, action.event, action.draw);
    }
  }

  lemma ReceiveKeepsNames(c: Client, event: WireEvent, draw: Draw)
    ensures var d := HandleEvent(c, event, draw).next; d.localId == c.localId && d.peerId == c.peerId
  {
  }

  lemma ActKeepsSessionBound(x: Party, action: Action)
    requires SessionBound(x) && x.client.peerKey.Some?
    ensures SessionBound(Act(x, action))
  {
    ActIsCall(x, action);
    ActKeepsNames(x, action);
    ClientRuns.CallKeepsBinding(x.client, CallOf(action));
  }

  lemma {:induction false} BoundAlways(w: World, moves: seq<Move>)
    requires Pair(w.a, w.b) && Pair(w.b, w.a) && LegalRun(w, moves) && SessionBound(w.a) && SessionBound(w.b)
    ensures SessionBound(After(w, moves).a) && SessionBound(After(w, moves).b)
    decreases |moves|
  {
    if moves != [] {
      var m := moves[0];
      if m.onA {
        ActKeepsPair(w.a, w.b, m.action);
        ActKeepsSessionBound(w.a, m.action);
      } else {
        ActKeepsPair(w.b, w.a, m.action);
        ActKeepsSessionBound(w.b, m.action);
      }
      BoundAlways(Do(w, m), moves[1..]);
    }
  }

  /**
   In every run both sessions are bound to the two ids, so that neither shares a key, at any epoch, with a session of
   any other pair.
   */
  lemma KeysBelongToThePair(w: World, moves: seq<Move>, t: Session, c: ClientId, d: ClientId, g: nat, h: nat)
    requires Start(w) && LegalRun(w, moves) && BoundTo(t, c, d)
    ensures var (x, y) := (After(w, moves).a, After(w, moves).b);
            && SessionBound(x) && SessionBound(y)
            && (CipherFor(S(x), g) == CipherFor(t, h) ==>
                  && g == h
                  && (|| (c == x.client.localId && d == x.client.peerId)
                      || (c == x.client.peerId && d == x.client.localId)))
  {
    StartIsPair(w.a, w.b);
    StartIsPair(w.b, w.a);
    BeginsBound(w.a, w.b);
    BeginsBound(w.b, w.a);
    BoundAlways(w, moves);
    var x := After(w, moves).a;
    KeysBindIds(S(x), x.client.localId, x.client.peerId, g, t, c, d, h);
  }

  // ---------- crossing initiations ----------

  predicate Crossed(x: Party, y: Party) {
    && x.client.crypto.Some? && y.client.crypto.Some?
    && S(x).pending.Some? && S(y).pending.Some? && S(x).epoch == S(y).epoch
  }

  /** No reply to the present epoch exists, so nothing that opens at `x` is a reply. */
  lemma CrossedHasNoReply(x: Party, y: Party, event: WireEvent)
    requires Pair(x, y) && Crossed(x, y) && Opens(x, event) && CanPresent(event.envelope.ciphertext, x, y)
    ensures !IsResponse(event.envelope)
  {
    OpenedIsSent(x, y, event.envelope);
  }

  lemma CrossedStep(x: Party, y: Party, action: Action)
    requires Pair(x, y) && Crossed(x, y) && Allowed(x, y, action)
    ensures Crossed(Act(x, action), y)
    ensures SameHandshake(S(Act(x, action)), S(x))
  {
    if action.Receive? && Opens(x, action.event) {
      CrossedHasNoReply(x, y, action.event);
    }
    PendingWaits(x, y, action);
  }

  /** Once both sides wait on each other, no continuation rotates either side or completes either handshake. */
  lemma {:induction false} CrossingIsAbsorbing(w: World, moves: seq<Move>)
    requires Pair(w.a, w.b) && Pair(w.b, w.a) && Crossed(w.a, w.b) && LegalRun(w, moves)
    ensures var w' := After(w, moves);
            && Crossed(w'.a, w'.b)
            && SameHandshake(S(w'.a), S(w.a)) && SameHandshake(S(w'.b), S(w.b))
    decreases |moves|
  {
    if moves != [] {
      var m := moves[0];
      if m.onA {
        ActKeepsPair(w.a, w.b, m.action);
        CrossedStep(w.a, w.b, m.action);
      } else {
        ActKeepsPair(w.b, w.a, m.action);
        CrossedStep(w.b, w.a, m.action);
      }
      CrossingIsAbsorbing(Do(w, m), moves[1..]);
    }
  }

  /** Chat survives a crossing: every line of the shared epoch opens on its first delivery. */
  lemma CrossedChatStillOpens(x: Party, y: Party, e: Envelope, draw: Draw)
    requires Pair(x, y) && Crossed(x, y)
    requires e in y.sent && IsChat(e) && e.epoch == S(y).epoch && e !in x.accepted
    ensures HandleEvent(x.client, EncryptedMessage(e), draw).result
         == Ok(InboundOutcome(Some(ChatReceived(e.ciphertext.payload.text)), None))
  {
    OpeningCharacterised(x, y, e);
  }

  /** Two users asking for a rekey before either request arrives is enough. */
  lemma CrossingHappens(w: World, p: Draw, q: Draw)
    requires Start(w)
    ensures var moves := [Move(true, Rekey(p)), Move(false, Rekey(q))];
            LegalRun(w, moves) && Crossed(After(w, moves).a, After(w, moves).b)
  {
    var moves := [Move(true, Rekey(p)), Move(false, Rekey(q))];
    assert moves[1..] == [moves[1]] && [moves[1]][1..] == [];
    RekeyShape(w.a, p);
    RekeyShape(w.b, q);
    var w1, w2 := Do(w, moves[0]), Do(Do(w, moves[0]), moves[1]);
    assert After(w1, [moves[1]]) == After(w2, []);
    assert LegalRun(w1, [moves[1]]);
  }

  // ---------- nonces and requests ----------

  predicate DistinctNonces(sent: seq<Envelope>) {
    && (forall i, j | 0 <= i < j < |sent| :: sent[i].nonce != sent[j].nonce)
    && (forall i | 0 <= i < |sent| :: sent[i].nonce.counter <= U64_MAX)
  }

  lemma LogHasDistinctNonces(s: Session, sent: seq<Envelope>)
    requires Log(s, sent)
    ensures DistinctNonces(sent) && forall i | 0 <= i < |sent| :: sent[i].nonce.prefix == s.prefix
  {
    forall i | 0 <= i < |sent|
      ensures sent[i].nonce.prefix == s.prefix && sent[i].nonce.counter <= U64_MAX
    {
      assert Written(s, sent[i]);
    }
  }

  /** The 24 wire bytes of two different envelopes of one log differ, whatever the prefix hash. */
  lemma WireNoncesOfOneSide(s: Session, sent: seq<Envelope>, hash: seq<byte> -> seq<byte>, i: nat, j: nat)
    requires Log(s, sent) && i < j < |sent| && forall x :: |hash(x)| == 16
    ensures WireNonce(hash, sent[i].nonce) != WireNonce(hash, sent[j].nonce)
  {
    assert Written(s, sent[i]) && Written(s, sent[j]);
    CountersFitEightBytes();
    NonceLayoutInjective(hash(sent[i].nonce.prefix.input), sent[i].nonce.counter,
                         hash(sent[j].nonce.prefix.input), sent[j].nonce.counter);
  }

  lemma WireNoncesOfTwoSides(x: Party, y: Party, hash: seq<byte> -> seq<byte>, i: nat, j: nat)
    requires Pair(x, y) && i < |x.sent| && j < |y.sent|
    requires (forall z :: |hash(z)| == 16) && Separates(hash, x.client.localId, y.client.localId)
    ensures WireNonce(hash, x.sent[i].nonce) != WireNonce(hash, y.sent[j].nonce)
  {
    var a, b := x.client.localId, y.client.localId;
    assert Written(S(x), x.sent[i]) && Written(S(y), y.sent[j]);
    DirectionsNeverCollide(a, b, x.sent[i].nonce.counter, y.sent[j].nonce.counter, hash);
    assert x.sent[i].nonce == Nonce(Digest(NoncePrefixInput(a, b)), x.sent[i].nonce.counter);
    assert y.sent[j].nonce == Nonce(Digest(NoncePrefixInput(b, a)), y.sent[j].nonce.counter);
  }

  ghost predicate DistinctOnTheWire(sent: seq<Envelope>, hash: seq<byte> -> seq<byte>) {
    forall i, j | 0 <= i < j < |sent| :: WireNonce(hash, sent[i].nonce) != WireNonce(hash, sent[j].nonce)
  }

  /**
   No two envelopes of a conversation carry the same 24 nonce bytes, across epochs and payload kinds; in the two
   directions this needs a prefix hash that separates them.
   */
  lemma NoncesAreUnique(w: World, moves: seq<Move>, hash: seq<byte> -> seq<byte>)
    requires Start(w) && LegalRun(w, moves) && forall z :: |hash(z)| == 16
    ensures var (x, y) := (After(w, moves).a, After(w, moves).b);
            && DistinctNonces(x.sent) && DistinctNonces(y.sent)
            && (forall i, j | 0 <= i < |x.sent| && 0 <= j < |y.sent| :: x.sent[i].nonce != y.sent[j].nonce)
            && DistinctOnTheWire(x.sent, hash) && DistinctOnTheWire(y.sent, hash)
            && (Separates(hash, x.client.localId, y.client.localId) ==>
                  forall i, j | 0 <= i < |x.sent| && 0 <= j < |y.sent| ::
                    WireNonce(hash, x.sent[i].nonce) != WireNonce(hash, y.sent[j].nonce))
  {
    ReachableIsPair(w, moves);
    var x, y := After(w, moves).a, After(w, moves).b;
    LogHasDistinctNonces(S(x), x.sent);
    LogHasDistinctNonces(S(y), y.sent);
    forall i, j | 0 <= i < j < |x.sent|
      ensures WireNonce(hash, x.sent[i].nonce) != WireNonce(hash, x.sent[j].nonce)
    {
      WireNoncesOfOneSide(S(x), x.sent, hash, i, j);
    }
    forall i, j | 0 <= i < j < |y.sent|
      ensures WireNonce(hash, y.sent[i].nonce) != WireNonce(hash, y.sent[j].nonce)
    {
      WireNoncesOfOneSide(S(y), y.sent, hash, i, j);
    }
    if Separates(hash, x.client.localId, y.client.localId) {
      forall i, j | 0 <= i < |x.sent| && 0 <= j < |y.sent|
        ensures WireNonce(hash, x.sent[i].nonce) != WireNonce(hash, y.sent[j].nonce)
      {
        WireNoncesOfTwoSides(x, y, hash, i, j);
      }
    }
  }

  /** Besides chat, an epoch in which a side seals a request carries nothing else of that side. */
  predicate RequestsApart(sent: seq<Envelope>) {
    forall i, j | 0 <= i < |sent| && 0 <= j < |sent| && i != j && IsRequest(sent[i]) && !IsChat(sent[j]) ::
      sent[i].epoch != sent[j].epoch
  }

  lemma LogKeepsRequestsApart(s: Session, sent: seq<Envelope>)
    requires Log(s, sent)
    ensures RequestsApart(sent)
  {
    forall i, j | 0 <= i < |sent| && 0 <= j < |sent| && i != j && IsRequest(sent[i]) && !IsChat(sent[j])
      ensures sent[i].epoch != sent[j].epoch
    {
      assert Written(s, sent[j]);
    }
  }

  /** Each side seals at most one request per epoch, and never a request and a reply at the same epoch. */
  lemma OneRequestPerEpoch(w: World, moves: seq<Move>)
    requires Start(w) && LegalRun(w, moves)
    ensures RequestsApart(After(w, moves).a.sent) && RequestsApart(After(w, moves).b.sent)
  {
    ReachableIsPair(w, moves);
    LogKeepsRequestsApart(S(After(w, moves).a), After(w, moves).a.sent);
    LogKeepsRequestsApart(S(After(w, moves).b), After(w, moves).b.sent);
  }
}
