/** What holds of one session over every sequence of calls, whatever envelopes and payloads arrive. */
module SessionRuns {
  import opened Types
  import opened Contexts
  import opened Events
  import opened Crypto

  datatype Call =
    | SealCall(messageId: MessageId, payload: SessionPayload)
    | OpenCall(envelope: Envelope)
    | StartCall(rekeyId: RekeyId, ephemeral: nat)
    | HandleCall(payload: SessionPayload, ephemeral: nat)
    | CommitCall

  datatype Reply =
    | SealReply(sealed: Result<Envelope, CryptoError>)
    | OpenReply(plain: Result<SessionPayload, CryptoError>)
    | StartReply(request: Result<SessionPayload, CryptoError>)
    | HandleReply(answer: Result<Option<SessionPayload>, CryptoError>)
    | CommitReply(done: Result<(), CryptoError>)

  function After(s: Session, call: Call): Session {
    match call
    case SealCall(id, payload) => Seal(s, id, payload).next
    case OpenCall(e) => Open(s, e).next
    case StartCall(id, ephemeral) => StartRekey(s, id, ephemeral).next
    case HandleCall(payload, ephemeral) => HandlePayload(s, payload, ephemeral).next
    case CommitCall => CommitStaged(s).next
  }

  function Answer(s: Session, call: Call): Reply {
    match call
    case SealCall(id, payload) => SealReply(Seal(s, id, payload).result)
    case OpenCall(e) => OpenReply(Open(s, e).result)
    case StartCall(id, ephemeral) => StartReply(StartRekey(s, id, ephemeral).result)
    case HandleCall(payload, ephemeral) => HandleReply(HandlePayload(s, payload, ephemeral).result)
    case CommitCall => CommitReply(CommitStaged(s).result)
  }

  /** The session after all of `calls`. */
  function Run(s: Session, calls: seq<Call>): Session {
    if calls == [] then s else After(Run(s, calls[..|calls| - 1]), calls[|calls| - 1])
  }

  /** The reply to call number `i`. */
  function ReplyAt(s: Session, calls: seq<Call>, i: nat): Reply
    requires i < |calls|
  {
    Answer(Run(s, calls[..i]), calls[i])
  }

  lemma RunStep(s: Session, calls: seq<Call>, i: nat)
    requires i < |calls|
    ensures Run(s, calls[..i + 1]) == After(Run(s, calls[..i]), calls[i])
  {
    assert calls[..i + 1][..i] == calls[..i];
  }

  // ---------- what sealing and setting up produce ----------

  /** The session belongs to these two ids: its ids, its key-derivation info and its nonce prefix are theirs. */
  predicate BoundTo(s: Session, localId: ClientId, peerId: ClientId) {
    && s.localId == localId && s.peerId == peerId
    && s.info == SessionInfo(localId, peerId)
    && s.prefix == Digest(NoncePrefixInput(localId, peerId))
  }

  lemma CallKeepsBound(s: Session, call: Call)
    ensures var t := After(s, call);
            t.localId == s.localId && t.peerId == s.peerId && t.info == s.info && t.prefix == s.prefix
  {
  }

  /** Whatever is called, a session stays bound to the ids it was set up for. */
  lemma {:induction false} SessionStaysBound(secret: nat, key: PublicKey, a: ClientId, b: ClientId, calls: seq<Call>)
    ensures BoundTo(Run(Fresh(secret, key, a, b), calls), a, b)
  {
    if calls != [] {
      SessionStaysBound(secret, key, a, b, calls[..|calls| - 1]);
      CallKeepsBound(Run(Fresh(secret, key, a, b), calls[..|calls| - 1]), calls[|calls| - 1]);
    }
  }

  /** Keys are bound to the ids: two sessions share a key if and only if pair, epoch and master are the same. */
  lemma KeysBindIds(s: Session, a: ClientId, b: ClientId, e: nat, t: Session, c: ClientId, d: ClientId, f: nat)
    requires BoundTo(s, a, b) && BoundTo(t, c, d)
    ensures CipherFor(s, e) == CipherFor(t, f)
       <==> s.master == t.master && e == f && ((a == c && b == d) || (a == d && b == c))
  {
    SessionInfoIdentifiesPair(a, b, c, d);
  }

  /** The same for new sessions, in terms of what they are set up with. */
  lemma FreshKeysBindIds(p: nat, k: PublicKey, a: ClientId, b: ClientId, e: nat,
                         q: nat, l: PublicKey, c: ClientId, d: ClientId, f: nat)
    ensures CipherFor(Fresh(p, k, a, b), e) == CipherFor(Fresh(q, l, c, d), f)
       <==> DiffieHellman(p, k) == DiffieHellman(q, l) && e == f && ((a == c && b == d) || (a == d && b == c))
  {
    SessionStaysBound(p, k, a, b, []);
    SessionStaysBound(q, l, c, d, []);
    KeysBindIds(Fresh(p, k, a, b), a, b, e, Fresh(q, l, c, d), c, d, f);
  }

  /** Every field of a sealed envelope, and what its ciphertext is sealed with. */
  lemma SealedFields(s: Session, id: MessageId, payload: SessionPayload)
    requires s.counter < U64_MAX
    ensures Seal(s, id, payload).result.Ok?
    ensures var e := Seal(s, id, payload).result.value;
            && e.sender == s.localId && e.recipient == s.peerId && e.messageId == id && e.epoch == s.epoch
            && e.nonce == Nonce(s.prefix, s.counter + 1)
            && e.ciphertext.Sealed? && e.ciphertext.payload == payload && e.ciphertext.nonce == e.nonce
            && e.ciphertext.key == SessionKey(s.master, s.info, s.epoch)
            && e.ciphertext.aad == Aad(s.localId, s.peerId, id, s.epoch)
  {
  }

  /** The ciphertext was sealed under this session's master, for this envelope's epoch, nonce and header. */
  predicate Genuine(s: Session, e: Envelope) {
    && e.ciphertext.Sealed?
    && e.ciphertext.key == SessionKey(s.master, s.info, e.epoch) && e.ciphertext.nonce == e.nonce
    && e.ciphertext.aad == Aad(e.sender, e.recipient, e.messageId, e.epoch)
  }

  /** The exact outcome of opening any envelope at all, in the order in which it is judged. */
  lemma OpeningOutcome(s: Session, e: Envelope)
    ensures var r := Open(s, e);
            var seen := e.epoch in s.inbound && e.nonce in s.inbound[e.epoch];
            && (r.result.Err? ==> r.next == s)
            && (e.sender != s.peerId || e.recipient != s.localId ==> r.result == Err(UnexpectedPeer))
            && (e.sender == s.peerId && e.recipient == s.localId ==>
                  if e.epoch != s.epoch && e.epoch + 1 != s.epoch then r.result == Err(UnknownEpoch)
                  else if !Genuine(s, e) then r.result == Err(AuthenticationFailed)
                  else if seen then r.result == Err(DuplicateNonce)
                  else
                    && r.result == Ok(e.ciphertext.payload)
                    && r.next == s.(inbound := r.next.inbound)
                    && (forall g, n :: n in Seen(r.next, g) <==> n in Seen(s, g) || (g == e.epoch && n == e.nonce)))
  {
  }

  /** `t` is the other end of `s`. */
  predicate Mirrors(s: Session, t: Session) {
    && t.localId == s.peerId && t.peerId == s.localId && t.info == s.info
    && t.master == s.master && t.epoch == s.epoch
  }

  /** Sealing and opening are inverse, and every changed header field is noticed. */
  lemma SealOpenRoundTrip(s: Session, t: Session, id: MessageId, payload: SessionPayload, f: Envelope)
    requires s.counter < U64_MAX && Mirrors(s, t) && Nonce(s.prefix, s.counter + 1) !in Seen(t, s.epoch)
    ensures var e := Seal(s, id, payload).result.value;
            && Open(t, e).result == Ok(payload)
            && (f.ciphertext == e.ciphertext ==> (Open(t, f).result.Ok? <==> f == e))
  {
    SealedFields(s, id, payload);
  }

  // ---------- the reference that never forgets ----------

  /** A session that remembers every accepted (epoch, nonce) pair instead of keeping replay sets. */
  datatype Reference = Reference(session: Session, ever: set<(nat, Nonce)>)

  function ReferenceOpen(r: Reference, e: Envelope): Result<SessionPayload, CryptoError> {
    if e.sender != r.session.peerId || e.recipient != r.session.localId then Err(UnexpectedPeer)
    else if !InWindow(r.session, e.epoch) then Err(UnknownEpoch)
    else match Unlock(r.session, e)
      case None => Err(AuthenticationFailed)
      case Some(payload) => if (e.epoch, e.nonce) in r.ever then Err(DuplicateNonce) else Ok(payload)
  }

  function ReferenceAfter(r: Reference, call: Call): Reference {
    match call
    case OpenCall(e) => if ReferenceOpen(r, e).Ok? then r.(ever := r.ever + {(e.epoch, e.nonce)}) else r
    case _ => r.(session := After(r.session, call))
  }

  function ReferenceAnswer(r: Reference, call: Call): Reply {
    match call
    case OpenCall(e) => OpenReply(ReferenceOpen(r, e))
    case _ => Answer(r.session, call)
  }

  function ReferenceRun(s: Session, calls: seq<Call>): Reference {
    if calls == [] then Reference(s, {})
    else ReferenceAfter(ReferenceRun(s, calls[..|calls| - 1]), calls[|calls| - 1])
  }

  lemma ReferenceRunStep(s: Session, calls: seq<Call>, i: nat)
    requires i < |calls|
    ensures ReferenceRun(s, calls[..i + 1]) == ReferenceAfter(ReferenceRun(s, calls[..i]), calls[i])
  {
    assert calls[..i + 1][..i] == calls[..i];
  }

  /** The replay sets agree with everything ever accepted, for the epochs still inside the window. */
  ghost predicate Tracks(s: Session, ever: set<(nat, Nonce)>) {
    && (forall g | g in s.inbound :: g <= s.epoch <= g + 1)
    && (forall p | p in ever :: p.0 <= s.epoch)
    && (forall g: nat, n | g <= s.epoch <= g + 1 :: n in Seen(s, g) <==> (g, n) in ever)
  }

  /** Equal but for the replay sets. */
  predicate SameButReplay(s: Session, t: Session) {
    s.(inbound := map[]) == t.(inbound := map[])
  }

  lemma RotateTracks(s: Session, ever: set<(nat, Nonce)>, next: Master)
    requires Tracks(s, ever)
    ensures Tracks(Rotate(s, next), ever)
  {
    var s' := Rotate(s, next);
    forall g: nat, n | g <= s'.epoch <= g + 1
      ensures n in Seen(s', g) <==> (g, n) in ever
    {
    }
  }

  lemma OpenInLockstep(s: Session, r: Reference, e: Envelope)
    requires Tracks(s, r.ever) && SameButReplay(s, r.session)
    ensures Open(s, e).result == ReferenceOpen(r, e)
    ensures SameButReplay(Open(s, e).next, s)
    ensures Tracks(Open(s, e).next, ReferenceAfter(r, OpenCall(e)).ever)
  {
    assert Unlock(s, e) == Unlock(r.session, e);
    if Open(s, e).result.Ok? {
      var s' := Open(s, e).next;
      forall g: nat, n | g <= s'.epoch <= g + 1
        ensures n in Seen(s', g) <==> (g, n) in r.ever + {(e.epoch, e.nonce)}
      {
        assert n in Seen(s, g) <==> (g, n) in r.ever;
      }
    }
  }

  /** Calls other than opening do not look at the replay sets, and keep them in step. */
  lemma OtherInLockstep(s: Session, r: Reference, call: Call)
    requires !call.OpenCall?
    requires Tracks(s, r.ever) && SameButReplay(s, r.session)
    ensures Answer(s, call) == Answer(r.session, call)
    ensures SameButReplay(After(s, call), After(r.session, call))
    ensures Tracks(After(s, call), r.ever)
  {
    if call.HandleCall? && call.payload.RekeyResponse? && Answer(s, call).answer.Ok? {
      var next := Next(s.master, DiffieHellman(s.pending.value.ephemeral, call.payload.ephemeral));
      RotateTracks(s, r.ever, next);
      SameTracks(Rotate(s, next), After(s, call), r.ever);
    } else if call.CommitCall? && s.staged.Some? {
      RotateTracks(s, r.ever, s.staged.value);
      SameTracks(Rotate(s, s.staged.value), After(s, call), r.ever);
    } else {
      SameTracks(s, After(s, call), r.ever);
    }
  }

  lemma SameTracks(s: Session, t: Session, ever: set<(nat, Nonce)>)
    requires Tracks(s, ever)
    requires s.epoch == t.epoch && s.inbound == t.inbound
    ensures Tracks(t, ever)
  {
    forall g: nat, n | g <= t.epoch <= g + 1
      ensures n in Seen(t, g) <==> (g, n) in ever
    {
      assert Seen(t, g) == Seen(s, g);
    }
  }

  function Pairs(accepted: seq<Envelope>): set<(nat, Nonce)> {
    set i | 0 <= i < |accepted| :: (accepted[i].epoch, accepted[i].nonce)
  }

  predicate Distinct(accepted: seq<Envelope>) {
    forall i, j | 0 <= i < j < |accepted| ::
      (accepted[i].epoch, accepted[i].nonce) != (accepted[j].epoch, accepted[j].nonce)
  }

  lemma OpenTracks(t: Session, accepted: seq<Envelope>, e: Envelope)
    requires Tracks(t, Pairs(accepted)) && Distinct(accepted)
    requires Open(t, e).result.Ok?
    ensures Tracks(Open(t, e).next, Pairs(accepted + [e])) && Distinct(accepted + [e])
  {
    OpenInLockstep(t, Reference(t, Pairs(accepted)), e);
    assert Pairs(accepted + [e]) == Pairs(accepted) + {(e.epoch, e.nonce)} by {
      forall i | 0 <= i < |accepted + [e]|
        ensures ((accepted + [e])[i].epoch, (accepted + [e])[i].nonce) in Pairs(accepted) + {(e.epoch, e.nonce)}
      {
      }
      assert (accepted + [e])[|accepted|] == e;
      forall i | 0 <= i < |accepted|
        ensures (accepted[i].epoch, accepted[i].nonce) in Pairs(accepted + [e])
      {
        assert (accepted + [e])[i] == accepted[i];
      }
    }
  }

  /** One call: the session and the reference answer alike and stay in step. */
  lemma StepInLockstep(s: Session, r: Reference, call: Call)
    requires Tracks(s, r.ever) && SameButReplay(s, r.session)
    ensures Answer(s, call) == ReferenceAnswer(r, call)
    ensures Tracks(After(s, call), ReferenceAfter(r, call).ever)
    ensures SameButReplay(After(s, call), ReferenceAfter(r, call).session)
  {
    if call.OpenCall? {
      OpenInLockstep(s, r, call.envelope);
    } else {
      OtherInLockstep(s, r, call);
    }
  }

  lemma {:induction false} RunInLockstep(s: Session, calls: seq<Call>)
    requires s.inbound == map[]
    ensures Tracks(Run(s, calls), ReferenceRun(s, calls).ever)
    ensures SameButReplay(Run(s, calls), ReferenceRun(s, calls).session)
  {
    if calls != [] {
      var front := calls[..|calls| - 1];
      RunInLockstep(s, front);
      StepInLockstep(Run(s, front), ReferenceRun(s, front), calls[|calls| - 1]);
    }
  }

  /** Pruning is invisible: every reply equals that of the session that forgets nothing. */
  lemma PruningIsInvisible(s: Session, calls: seq<Call>, i: nat)
    requires s.inbound == map[]
    requires i < |calls|
    ensures ReplyAt(s, calls, i) == ReferenceAnswer(ReferenceRun(s, calls[..i]), calls[i])
    ensures forall g | g in Run(s, calls).inbound :: Run(s, calls).epoch <= g + 1 && g <= Run(s, calls).epoch
  {
    RunInLockstep(s, calls[..i]);
    StepInLockstep(Run(s, calls[..i]), ReferenceRun(s, calls[..i]), calls[i]);
    RunInLockstep(s, calls);
  }

  // ---------- at most once ----------

  predicate OpensAt(s: Session, calls: seq<Call>, i: nat)
    requires i < |calls|
  {
    calls[i].OpenCall? && ReplyAt(s, calls, i).plain.Ok?
  }

  lemma CallKeepsEver(r: Reference, call: Call)
    ensures r.ever <= ReferenceAfter(r, call).ever
  {
  }

  lemma {:induction false} EverGrows(s: Session, calls: seq<Call>, i: nat)
    requires i <= |calls|
    ensures ReferenceRun(s, calls[..i]).ever <= ReferenceRun(s, calls).ever
  {
    var front := if calls == [] then [] else calls[..|calls| - 1];
    if i < |calls| {
      EverGrows(s, front, i);
      CallKeepsEver(ReferenceRun(s, front), calls[|calls| - 1]);
      assert front[..i] == calls[..i];
    } else {
      assert calls[..i] == calls;
    }
  }

  /** No (epoch, nonce) pair ever yields plaintext twice, across any number of rotations. */
  lemma AtMostOnce(s: Session, calls: seq<Call>, i: nat, j: nat)
    requires s.inbound == map[]
    requires i < j < |calls|
    requires OpensAt(s, calls, i) && OpensAt(s, calls, j)
    ensures (calls[i].envelope.epoch, calls[i].envelope.nonce) != (calls[j].envelope.epoch, calls[j].envelope.nonce)
  {
    PruningIsInvisible(s, calls, i);
    PruningIsInvisible(s, calls, j);
    ReferenceRunStep(s, calls, i);
    EverGrows(s, calls[..j], i + 1);
    assert calls[..j][..i + 1] == calls[..i + 1];
  }

  // ---------- nonces ----------

  predicate SealsAt(s: Session, calls: seq<Call>, i: nat)
    requires i < |calls|
  {
    calls[i].SealCall? && ReplyAt(s, calls, i).sealed.Ok?
  }

  lemma CallKeepsCounter(s: Session, call: Call)
    ensures s.counter <= After(s, call).counter
    ensures s.prefix == After(s, call).prefix
    ensures s.counter <= U64_MAX ==> After(s, call).counter <= U64_MAX
  {
  }

  lemma {:induction false} CounterBounded(s: Session, calls: seq<Call>)
    ensures s.counter <= U64_MAX ==> Run(s, calls).counter <= U64_MAX
  {
    if calls != [] {
      CounterBounded(s, calls[..|calls| - 1]);
      CallKeepsCounter(Run(s, calls[..|calls| - 1]), calls[|calls| - 1]);
    }
  }

  lemma {:induction false} CounterGrows(s: Session, calls: seq<Call>, i: nat)
    requires i <= |calls|
    ensures Run(s, calls[..i]).counter <= Run(s, calls).counter
    ensures Run(s, calls[..i]).prefix == Run(s, calls).prefix
  {
    var front := if calls == [] then [] else calls[..|calls| - 1];
    if i < |calls| {
      CounterGrows(s, front, i);
      CallKeepsCounter(Run(s, front), calls[|calls| - 1]);
      assert front[..i] == calls[..i];
    } else {
      assert calls[..i] == calls;
    }
  }

  /** The 24 bytes on the wire, for a given prefix hash. */
  ghost function WireNonce(hash: seq<byte> -> seq<byte>, n: Nonce): seq<byte> {
    NonceLayout(hash(n.prefix.input), n.counter)
  }

  lemma CountersFitEightBytes()
    ensures Pow256(8) == U64_MAX + 1
  {
    assert Pow256(4) == 0x1_0000_0000;
    assert Pow256(8) == 0x1_0000_0000 * Pow256(4);
  }

  /** Every sealed envelope of a session carries a different 24-byte nonce, whatever the prefix hash. */
  lemma NoncesNeverRepeat(s: Session, calls: seq<Call>, i: nat, j: nat, hash: seq<byte> -> seq<byte>)
    requires s.counter <= U64_MAX
    requires forall x :: |hash(x)| == 16
    requires i < j < |calls|
    requires SealsAt(s, calls, i) && SealsAt(s, calls, j)
    ensures var (a, b) := (ReplyAt(s, calls, i).sealed.value.nonce, ReplyAt(s, calls, j).sealed.value.nonce);
            a.counter < b.counter <= U64_MAX && WireNonce(hash, a) != WireNonce(hash, b)
  {
    RunStep(s, calls, i);
    CounterGrows(s, calls[..j], i + 1);
    CounterGrows(s, calls[..j], i);
    assert calls[..j][..i + 1] == calls[..i + 1] && calls[..j][..i] == calls[..i];
    CounterBounded(s, calls[..j]);
    CountersFitEightBytes();
    var a, b := ReplyAt(s, calls, i).sealed.value.nonce, ReplyAt(s, calls, j).sealed.value.nonce;
    NonceLayoutInjective(hash(a.prefix.input), a.counter, hash(b.prefix.input), b.counter);
  }

  /** The counter refuses rather than wraps: sealing fails exactly when all 2^64 - 1 values are used. */
  lemma SealRefusesExactlyAtLimit(s: Session, calls: seq<Call>, i: nat)
    requires s.counter <= U64_MAX
    requires i < |calls| && calls[i].SealCall?
    ensures !SealsAt(s, calls, i) <==> Run(s, calls[..i]).counter == U64_MAX
    ensures !SealsAt(s, calls, i) ==> Run(s, calls[..i + 1]) == Run(s, calls[..i])
  {
    CounterBounded(s, calls[..i]);
    RunStep(s, calls, i);
  }

  /** The hash of the nonce prefix separates the two directions of a conversation. */
  predicate Separates(hash: seq<byte> -> seq<byte>, a: ClientId, b: ClientId) {
    hash(NoncePrefixInput(a, b)) == hash(NoncePrefixInput(b, a)) ==> NoncePrefixInput(a, b) == NoncePrefixInput(b, a)
  }

  /** With a prefix hash that separates them, the two directions of a conversation never share a nonce. */
  lemma DirectionsNeverCollide(a: ClientId, b: ClientId, m: nat, n: nat, hash: seq<byte> -> seq<byte>)
    requires a != b
    requires m <= U64_MAX && n <= U64_MAX
    requires (forall x :: |hash(x)| == 16) && Separates(hash, a, b)
    ensures WireNonce(hash, Nonce(Digest(NoncePrefixInput(a, b)), m))
         != WireNonce(hash, Nonce(Digest(NoncePrefixInput(b, a)), n))
  {
    CountersFitEightBytes();
    NoncePrefixInputIdentifiesDirection(a, b, b, a);
    NonceLayoutInjective(hash(NoncePrefixInput(a, b)), m, hash(NoncePrefixInput(b, a)), n);
  }
}
