/** The two-party protocol over channels that neither lose nor reorder: exactly which lines are lost. */
module Fifo {
  import opened Types
  import opened Events
  import opened Crypto
  import opened Clients
  import opened PairInvariant
  import opened Conversation

  /** A party and how many of the peer's envelopes it has taken from the channel. */
  datatype Station = Station(party: Party, got: nat)

  datatype Link = Link(a: Station, b: Station)

  datatype Event =
    | Say(onA: bool, text: string, draw: Draw)
    | Renew(onA: bool, draw: Draw)
    | Take(onA: bool, draw: Draw)

  predicate Enabled(l: Link, e: Event) {
    e.Take? ==> if e.onA then l.a.got < |l.b.party.sent| else l.b.got < |l.a.party.sent|
  }

  function TakeNext(x: Station, y: Station, draw: Draw): Station
    requires x.got < |y.party.sent|
  {
    Station(ActReceive(x.party, EncryptedMessage(y.party.sent[x.got]), draw), x.got + 1)
  }

  function Local(x: Station, e: Event): Station
    requires !e.Take?
  {
    match e
    case Say(_, text, draw) => x.(party := ActLine(x.party, text, draw))
    case Renew(_, draw) => x.(party := ActRekey(x.party, draw))
  }

  function Perform(l: Link, e: Event): Link
    requires Enabled(l, e)
  {
    if e.onA then l.(a := if e.Take? then TakeNext(l.a, l.b, e.draw) else Local(l.a, e))
    else l.(b := if e.Take? then TakeNext(l.b, l.a, e.draw) else Local(l.b, e))
  }

  predicate EnabledRun(l: Link, events: seq<Event>)
    decreases |events|
  {
    events == [] || (Enabled(l, events[0]) && EnabledRun(Perform(l, events[0]), events[1..]))
  }

  function AfterRun(l: Link, events: seq<Event>): Link
    requires EnabledRun(l, events)
    decreases |events|
  {
    if events == [] then l else AfterRun(Perform(l, events[0]), events[1..])
  }

  // ---------- which lines are lost ----------

  predicate HasRequest(log: seq<Envelope>, epoch: nat) {
    exists j | 0 <= j < |log| :: IsRequest(log[j]) && log[j].epoch == epoch
  }

  predicate HasResponse(log: seq<Envelope>, epoch: nat) {
    exists j | 0 <= j < |log| :: IsResponse(log[j]) && log[j].epoch == epoch
  }

  /** Line `i` was sealed after a request of the same epoch that the peer answered, so before the sender's rotation. */
  predicate LostLine(log: seq<Envelope>, peer: seq<Envelope>, i: nat)
    requires i < |log|
  {
    IsChat(log[i]) && HasRequest(log[..i], log[i].epoch) && HasResponse(peer, log[i].epoch)
  }

  /** The texts among the first `n` envelopes that are not lost, in order. */
  function Surviving(log: seq<Envelope>, peer: seq<Envelope>, n: nat): seq<string>
    requires n <= |log|
  {
    if n == 0 then []
    else Surviving(log, peer, n - 1)
         + (if IsChat(log[n - 1]) && !LostLine(log, peer, n - 1) then [log[n - 1].ciphertext.payload.text] else [])
  }

  // ---------- the channel invariant ----------

  /** What an envelope still in the channel will meet at a receiver whose epoch is now `t`. */
  predicate InFlight(xs: seq<Envelope>, ys: seq<Envelope>, got: nat, t: nat, i: nat)
    requires got <= i < |xs|
  {
    && t <= xs[i].epoch + 1
    && (t == xs[i].epoch + 1 ==> LostLine(xs, ys, i))
    && xs[i].epoch <= t + 1
    && (xs[i].epoch == t + 1 ==> exists j | got <= j < i :: IsResponse(xs[j]) && xs[j].epoch == t)
  }

  /** The channel from the writer of `xs` to the writer of `ys`, who is at epoch `t` and has taken `got`. */
  predicate Stream(xs: seq<Envelope>, ys: seq<Envelope>, got: nat, t: nat,
                   accepted: seq<Envelope>, shown: seq<string>)
  {
    && got <= |xs|
    && (forall i | got <= i < |xs| :: InFlight(xs, ys, got, t, i))
    && (forall j | 0 <= j < got && IsResponse(xs[j]) :: xs[j].epoch < t)
    && (forall k | 0 <= k < |accepted| :: accepted[k] in xs[..got])
    && (forall k | 0 <= k < |ys| && IsResponse(ys[k]) :: HasRequest(xs, ys[k].epoch))
    && shown == Surviving(xs, ys, got)
  }

  /** The channel from `x` to `y`. */
  predicate Channel(x: Station, y: Station)
    requires y.party.client.crypto.Some?
  {
    Stream(x.party.sent, y.party.sent, y.got, S(y.party).epoch, y.party.accepted, y.party.shown)
  }

  ghost predicate Linked(x: Station, y: Station) {
    Pair(x.party, y.party) && Pair(y.party, x.party) && Channel(x, y) && Channel(y, x)
  }

  // ---------- growth of the logs ----------

  lemma PrefixTake(xs: seq<Envelope>, xs': seq<Envelope>, i: nat)
    requires xs <= xs' && i <= |xs|
    ensures xs'[..i] == xs[..i]
  {
  }

  lemma HasRequestGrows(xs: seq<Envelope>, xs': seq<Envelope>, epoch: nat)
    requires xs <= xs' && HasRequest(xs, epoch)
    ensures HasRequest(xs', epoch)
  {
    var j :| 0 <= j < |xs| && IsRequest(xs[j]) && xs[j].epoch == epoch;
    assert xs'[j] == xs[j];
  }

  lemma HasResponseGrows(ys: seq<Envelope>, ys': seq<Envelope>, epoch: nat)
    requires ys <= ys'
    ensures HasResponse(ys, epoch) ==> HasResponse(ys', epoch)
    ensures (forall i | |ys| <= i < |ys'| && IsResponse(ys'[i]) :: ys'[i].epoch != epoch)
            ==> (HasResponse(ys', epoch) ==> HasResponse(ys, epoch))
  {
    if HasResponse(ys, epoch) {
      var j :| 0 <= j < |ys| && IsResponse(ys[j]) && ys[j].epoch == epoch;
      assert ys'[j] == ys[j];
    }
    if HasResponse(ys', epoch) && (forall i | |ys| <= i < |ys'| && IsResponse(ys'[i]) :: ys'[i].epoch != epoch) {
      var j :| 0 <= j < |ys'| && IsResponse(ys'[j]) && ys'[j].epoch == epoch;
      assert ys'[j] == ys[j];
    }
  }

  /** Lost or not depends only on the log up to the line and on the answers at its epoch. */
  lemma LostLineGrows(xs: seq<Envelope>, xs': seq<Envelope>, ys: seq<Envelope>, ys': seq<Envelope>, i: nat)
    requires xs <= xs' && ys <= ys' && i < |xs|
    ensures LostLine(xs, ys, i) ==> LostLine(xs', ys', i)
    ensures (forall k | |ys| <= k < |ys'| && IsResponse(ys'[k]) ::
               ys'[k].epoch == xs[i].epoch ==> !HasRequest(xs[..i], xs[i].epoch))
            ==> (LostLine(xs', ys', i) ==> LostLine(xs, ys, i))
  {
    PrefixTake(xs, xs', i);
    HasResponseGrows(ys, ys', xs[i].epoch);
  }

  lemma {:induction false} SurvivingGrows(xs: seq<Envelope>, xs': seq<Envelope>,
                                          ys: seq<Envelope>, ys': seq<Envelope>, n: nat)
    requires xs <= xs' && ys <= ys' && n <= |xs|
    requires forall i, k | 0 <= i < n && |ys| <= k < |ys'| && IsResponse(ys'[k]) && ys'[k].epoch == xs[i].epoch ::
               !HasRequest(xs[..i], xs[i].epoch)
    ensures Surviving(xs', ys', n) == Surviving(xs, ys, n)
  {
    if n > 0 {
      SurvivingGrows(xs, xs', ys, ys', n - 1);
      LostLineGrows(xs, xs', ys, ys', n - 1);
      assert xs'[n - 1] == xs[n - 1];
    }
  }

  lemma InFlightGrows(xs: seq<Envelope>, xs': seq<Envelope>, ys: seq<Envelope>, ys': seq<Envelope>,
                      got: nat, t: nat, i: nat)
    requires xs <= xs' && ys <= ys' && got <= i < |xs| && InFlight(xs, ys, got, t, i)
    ensures InFlight(xs', ys', got, t, i)
  {
    LostLineGrows(xs, xs', ys, ys', i);
    assert xs'[i] == xs[i];
    if xs[i].epoch == t + 1 {
      var j :| got <= j < i && IsResponse(xs[j]) && xs[j].epoch == t;
      assert xs'[j] == xs[j];
    }
  }

  lemma WriterAppends(xs: seq<Envelope>, xs': seq<Envelope>, ys: seq<Envelope>, got: nat, t: nat,
                      accepted: seq<Envelope>, shown: seq<string>)
    requires Stream(xs, ys, got, t, accepted, shown) && xs <= xs'
    requires forall i | |xs| <= i < |xs'| :: InFlight(xs', ys, got, t, i)
    ensures Stream(xs', ys, got, t, accepted, shown)
  {
    forall i | got <= i < |xs|
      ensures InFlight(xs', ys, got, t, i)
    {
      InFlightGrows(xs, xs', ys, ys, got, t, i);
    }
    forall j | 0 <= j < got && IsResponse(xs'[j])
      ensures xs'[j].epoch < t
    {
      assert xs'[j] == xs[j];
    }
    PrefixTake(xs, xs', got);
    forall k | 0 <= k < |ys| && IsResponse(ys[k])
      ensures HasRequest(xs', ys[k].epoch)
    {
      HasRequestGrows(xs, xs', ys[k].epoch);
    }
    SurvivingGrows(xs, xs', ys, ys, got);
  }

  lemma WriterAppendsReply(xs: seq<Envelope>, reply: Envelope, ys: seq<Envelope>, got: nat, t: nat,
                           accepted: seq<Envelope>, shown: seq<string>)
    requires Stream(xs, ys, got, t, accepted, shown) && reply.epoch == t
    ensures Stream(xs + [reply], ys, got, t, accepted, shown)
  {
    WriterAppends(xs, xs + [reply], ys, got, t, accepted, shown);
  }

  /** The receiver writes to its own log, possibly a response to a request that no taken line followed. */
  lemma ReaderAppends(xs: seq<Envelope>, ys: seq<Envelope>, ys': seq<Envelope>, got: nat, t: nat,
                      accepted: seq<Envelope>, shown: seq<string>)
    requires Stream(xs, ys, got, t, accepted, shown) && ys <= ys'
    requires forall k | |ys| <= k < |ys'| :: !IsResponse(ys'[k])
    ensures Stream(xs, ys', got, t, accepted, shown)
  {
    forall i | got <= i < |xs|
      ensures InFlight(xs, ys', got, t, i)
    {
      InFlightGrows(xs, xs, ys, ys', got, t, i);
    }
    forall k | 0 <= k < |ys'| && IsResponse(ys'[k])
      ensures HasRequest(xs, ys'[k].epoch)
    {
      assert ys'[k] == ys[k];
    }
    SurvivingGrows(xs, xs, ys, ys', got);
  }

  // ---------- the user acts ----------

  /** The receiver has answered the sender's request already: what the sender still seals at its epoch is lost. */
  lemma NewIsLost(x: Station, y: Station, xs': seq<Envelope>, i: nat)
    requires Linked(x, y) && x.party.sent <= xs' && |x.party.sent| <= i < |xs'|
    requires S(y.party).epoch == S(x.party).epoch + 1
    requires xs'[i].epoch == S(x.party).epoch && (IsChat(xs'[i]) || S(x.party).pending.None?)
    ensures LostLine(xs', y.party.sent, i)
  {
    var s, ys := S(x.party), y.party.sent;
    var k :| 0 <= k < |ys| && IsResponse(ys[k]) && ys[k].epoch == s.epoch;
    HasRequestGrows(x.party.sent, xs'[..i], s.epoch);
  }

  /** The sender has rotated already: its reply is still in front of what it seals now. */
  lemma ReplyIsInFront(x: Station, y: Station, xs': seq<Envelope>, i: nat)
    requires Linked(x, y) && x.party.sent <= xs' && |x.party.sent| <= i < |xs'|
    requires S(x.party).epoch == S(y.party).epoch + 1
    ensures exists j | y.got <= j < i :: IsResponse(xs'[j]) && xs'[j].epoch == S(y.party).epoch
  {
    var xs := x.party.sent;
    var j :| 0 <= j < |xs| && IsResponse(xs[j]) && xs[j].epoch == S(y.party).epoch;
    assert xs'[j] == xs[j];
  }

  /** Chat, or a request of a side that had none pending, sealed at the sender's epoch. */
  lemma NewIsInFlight(x: Station, y: Station, xs': seq<Envelope>, i: nat)
    requires Linked(x, y) && x.party.sent <= xs' && |x.party.sent| <= i < |xs'|
    requires xs'[i].epoch == S(x.party).epoch
    requires IsChat(xs'[i]) || S(x.party).pending.None?
    ensures InFlight(xs', y.party.sent, y.got, S(y.party).epoch, i)
  {
    if S(y.party).epoch == S(x.party).epoch + 1 {
      NewIsLost(x, y, xs', i);
    } else if S(x.party).epoch == S(y.party).epoch + 1 {
      ReplyIsInFront(x, y, xs', i);
    }
  }

  /** What a user action does: same epoch, same reports, and only chat or a first request added to the log. */
  predicate IsLocal(x: Party, x': Party)
    requires x.client.crypto.Some?
  {
    && x'.client.crypto.Some? && S(x').epoch == S(x).epoch
    && x'.accepted == x.accepted && x'.shown == x.shown
    && x.sent <= x'.sent
    && forall i | |x.sent| <= i < |x'.sent| ::
         && x'.sent[i].epoch == S(x).epoch && !IsResponse(x'.sent[i])
         && (IsChat(x'.sent[i]) || S(x).pending.None?)
  }

  lemma SayIsLocal(x: Party, text: string, draw: Draw)
    requires x.client.crypto.Some?
    ensures IsLocal(x, ActLine(x, text, draw))
  {
    if S(x).counter >= U64_MAX {
      assert ActLine(x, text, draw) == x;
    } else if RekeyDue(x.client) {
      DueLineShape(x, text, draw);
    } else {
      PlainLineShape(x, text, draw);
    }
  }

  lemma RenewIsLocal(x: Party, draw: Draw)
    requires x.client.crypto.Some?
    ensures IsLocal(x, ActRekey(x, draw))
  {
    if S(x).pending.Some? {
      assert ActRekey(x, draw) == x;
    } else {
      RekeyShape(x, draw);
    }
  }

  lemma LocalKeepsLinked(x: Station, y: Station, x': Station)
    requires Linked(x, y) && Pair(x'.party, y.party) && Pair(y.party, x'.party)
    requires x'.got == x.got && IsLocal(x.party, x'.party)
    ensures Linked(x', y)
  {
    forall i | |x.party.sent| <= i < |x'.party.sent|
      ensures InFlight(x'.party.sent, y.party.sent, y.got, S(y.party).epoch, i)
    {
      NewIsInFlight(x, y, x'.party.sent, i);
    }
    WriterAppends(x.party.sent, x'.party.sent, y.party.sent, y.got, S(y.party).epoch, y.party.accepted, y.party.shown);
    ReaderAppends(y.party.sent, x.party.sent, x'.party.sent, x.got, S(x.party).epoch, x.party.accepted, x.party.shown);
  }

  lemma SayKeepsLinked(x: Station, y: Station, text: string, draw: Draw)
    requires Linked(x, y)
    ensures Linked(x.(party := ActLine(x.party, text, draw)), y)
  {
    ActKeepsPair(x.party, y.party, Line(text, draw));
    SayIsLocal(x.party, text, draw);
    LocalKeepsLinked(x, y, x.(party := ActLine(x.party, text, draw)));
  }

  lemma RenewKeepsLinked(x: Station, y: Station, draw: Draw)
    requires Linked(x, y)
    ensures Linked(x.(party := ActRekey(x.party, draw)), y)
  {
    ActKeepsPair(x.party, y.party, Rekey(draw));
    RenewIsLocal(x.party, draw);
    LocalKeepsLinked(x, y, x.(party := ActRekey(x.party, draw)));
  }

  // ---------- the next envelope is taken ----------

  /** Whether the next envelope opens is decided by whether it is lost. */
  lemma NextOpensUnlessLost(x: Station, y: Station)
    requires Linked(x, y) && x.got < |y.party.sent|
    ensures var e := y.party.sent[x.got];
            && Holds(e)
            && Open(S(x.party), e).result
               == (if LostLine(y.party.sent, x.party.sent, x.got) then Err(AuthenticationFailed)
                   else Ok(e.ciphertext.payload))
            && (Open(S(x.party), e).result.Ok? <==> e.epoch == S(x.party).epoch)
  {
    var e := y.party.sent[x.got];
    assert InFlight(y.party.sent, x.party.sent, x.got, S(x.party).epoch, x.got);
    OpeningCharacterised(x.party, y.party, e);
    NotYetAccepted(x, y);
    if e.epoch == S(x.party).epoch {
      assert !HasResponse(x.party.sent, e.epoch);
    }
  }

  lemma NotYetAccepted(x: Station, y: Station)
    requires Linked(x, y) && x.got < |y.party.sent|
    ensures y.party.sent[x.got] !in x.party.accepted
  {
    var ys := y.party.sent;
    assert forall j | 0 <= j < x.got :: ys[..x.got][j] == ys[j] && ys[j].nonce.counter < ys[x.got].nonce.counter;
  }

  /** Taking an envelope without rotating and without writing: lost, reported, or a refused request. */
  lemma TakeQuietly(xs: seq<Envelope>, ys: seq<Envelope>, got: nat, t: nat, accepted: seq<Envelope>, shown: seq<string>,
                    accepted': seq<Envelope>, shown': seq<string>)
    requires Stream(xs, ys, got, t, accepted, shown) && got < |xs|
    requires !IsResponse(xs[got])
    requires accepted' == accepted || accepted' == accepted + [xs[got]]
    requires shown' == shown + (if IsChat(xs[got]) && !LostLine(xs, ys, got)
                                then [xs[got].ciphertext.payload.text] else [])
    ensures Stream(xs, ys, got + 1, t, accepted', shown')
  {
    var n := got + 1;
    forall i | n <= i < |xs|
      ensures InFlight(xs, ys, n, t, i)
    {
      assert InFlight(xs, ys, got, t, i);
    }
    AcceptedTaken(xs, got, accepted, accepted');
  }

  lemma AcceptedTaken(xs: seq<Envelope>, got: nat, accepted: seq<Envelope>, accepted': seq<Envelope>)
    requires got < |xs| && forall k | 0 <= k < |accepted| :: accepted[k] in xs[..got]
    requires accepted' == accepted || accepted' == accepted + [xs[got]]
    ensures forall k | 0 <= k < |accepted'| :: accepted'[k] in xs[..got + 1]
  {
    assert xs[..got + 1] == xs[..got] + [xs[got]];
  }

  /** Taking a reply: everything behind it is of the new epoch. */
  lemma TakeReply(xs: seq<Envelope>, ys: seq<Envelope>, got: nat, s: Session, t: nat,
                  accepted: seq<Envelope>, shown: seq<string>)
    requires Stream(xs, ys, got, t, accepted, shown) && got < |xs|
    requires Log(s, xs) && s.epoch == t + 1
    requires IsResponse(xs[got]) && xs[got].epoch == t
    ensures Stream(xs, ys, got + 1, t + 1, accepted + [xs[got]], shown)
  {
    var n, t' := got + 1, t + 1;
    forall i | n <= i < |xs|
      ensures InFlight(xs, ys, n, t', i)
    {
      assert Written(s, xs[i]);
    }
    AcceptedTaken(xs, got, accepted, accepted + [xs[got]]);
  }

  /** Taking and answering a request: the lines behind it at the old epoch are the lost ones. */
  lemma TakeRequest(xs: seq<Envelope>, ys: seq<Envelope>, got: nat, s: Session, t: nat,
                    accepted: seq<Envelope>, shown: seq<string>, reply: Envelope)
    requires Stream(xs, ys, got, t, accepted, shown) && got < |xs|
    requires Log(s, xs) && s.epoch == t
    requires IsRequest(xs[got]) && xs[got].epoch == t
    requires IsResponse(reply) && reply.epoch == t
    ensures Stream(xs, ys + [reply], got + 1, t + 1, accepted + [xs[got]], shown)
  {
    var ys' := ys + [reply];
    assert ys'[|ys|] == reply;
    var n, t' := got + 1, t + 1;
    forall i | n <= i < |xs|
      ensures InFlight(xs, ys', n, t', i)
    {
      assert Written(s, xs[i]);
      assert xs[..i][got] == xs[got];
    }
    AcceptedTaken(xs, got, accepted, accepted + [xs[got]]);
    forall k | 0 <= k < |ys'| && IsResponse(ys'[k])
      ensures HasRequest(xs, ys'[k].epoch)
    {
    }
    forall i | 0 <= i < got && xs[i].epoch == t
      ensures !HasRequest(xs[..i], t)
    {
      assert forall j | 0 <= j < i && IsRequest(xs[j]) :: xs[j].epoch != xs[got].epoch;
    }
    SurvivingGrows(xs, xs, ys, ys', got);
  }

  /** Lost, reported or refused: nothing rotates and nothing is written. */
  lemma QuietTakeKeepsChannels(x: Station, y: Station, x': Station)
    requires x.party.client.crypto.Some? && y.party.client.crypto.Some? && x'.party.client.crypto.Some?
    requires Channel(x, y) && Channel(y, x) && Log(S(y.party), y.party.sent)
    requires x.got < |y.party.sent| && x'.got == x.got + 1
    requires S(x'.party).epoch == S(x.party).epoch && x'.party.sent == x.party.sent
    requires var e := y.party.sent[x.got];
             && !IsResponse(e)
             && (x'.party.accepted == x.party.accepted || x'.party.accepted == x.party.accepted + [e])
             && x'.party.shown == x.party.shown
                + (if IsChat(e) && !LostLine(y.party.sent, x.party.sent, x.got)
                   then [e.ciphertext.payload.text] else [])
    ensures Channel(x', y) && Channel(y, x')
  {
    TakeQuietly(y.party.sent, x.party.sent, x.got, S(x.party).epoch, x.party.accepted, x.party.shown,
                x'.party.accepted, x'.party.shown);
  }

  lemma AnsweredTakeKeepsChannels(x: Station, y: Station, x': Station, reply: Envelope)
    requires x.party.client.crypto.Some? && y.party.client.crypto.Some? && x'.party.client.crypto.Some?
    requires Channel(x, y) && Channel(y, x) && Log(S(y.party), y.party.sent)
    requires x.got < |y.party.sent| && x'.got == x.got + 1
    requires S(y.party).epoch == S(x.party).epoch && S(x'.party).epoch == S(x.party).epoch + 1
    requires var e := y.party.sent[x.got];
             && IsRequest(e) && e.epoch == S(x.party).epoch
             && IsResponse(reply) && reply.epoch == S(x.party).epoch
             && x'.party.sent == x.party.sent + [reply]
             && x'.party.accepted == x.party.accepted + [e] && x'.party.shown == x.party.shown
    ensures Channel(x', y) && Channel(y, x')
  {
    TakeRequest(y.party.sent, x.party.sent, x.got, S(y.party), S(x.party).epoch,
                x.party.accepted, x.party.shown, reply);
    WriterAppendsReply(x.party.sent, reply, y.party.sent, y.got, S(y.party).epoch, y.party.accepted, y.party.shown);
  }

  lemma CompletedTakeKeepsChannels(x: Station, y: Station, x': Station)
    requires x.party.client.crypto.Some? && y.party.client.crypto.Some? && x'.party.client.crypto.Some?
    requires Channel(x, y) && Channel(y, x) && Log(S(y.party), y.party.sent)
    requires x.got < |y.party.sent| && x'.got == x.got + 1
    requires S(y.party).epoch == S(x.party).epoch + 1 && S(x'.party).epoch == S(x.party).epoch + 1
    requires var e := y.party.sent[x.got];
             && IsResponse(e) && e.epoch == S(x.party).epoch
             && x'.party.sent == x.party.sent
             && x'.party.accepted == x.party.accepted + [e] && x'.party.shown == x.party.shown
    ensures Channel(x', y) && Channel(y, x')
  {
    TakeReply(y.party.sent, x.party.sent, x.got, S(y.party), S(x.party).epoch, x.party.accepted, x.party.shown);
  }

  /** What taking an envelope that opens does to the party, when nothing rotates. */
  lemma AbsorbShape(x: Party, e: Envelope, draw: Draw)
    requires x.client.crypto.Some? && Open(S(x), e).result.Ok?
    requires Holds(e) && Open(S(x), e).result.value == e.ciphertext.payload
    requires IsChat(e) || (IsRequest(e) && (InProgress(S(x)) || S(x).counter >= U64_MAX))
    ensures var x' := ActReceive(x, EncryptedMessage(e), draw);
            && x'.client.crypto.Some? && S(x').epoch == S(x).epoch
            && x'.sent == x.sent && x'.accepted == x.accepted + [e]
            && x'.shown == x.shown + (if IsChat(e) then [e.ciphertext.payload.text] else [])
  {
  }

  lemma CompleteShape(x: Party, e: Envelope, draw: Draw)
    requires x.client.crypto.Some? && Open(S(x), e).result.Ok? && Open(S(x), e).result.value == e.ciphertext.payload
    requires IsResponse(e) && S(x).pending.Some? && S(x).pending.value.rekeyId == e.ciphertext.payload.rekeyId
    ensures var x' := ActReceive(x, EncryptedMessage(e), draw);
            && x'.client.crypto.Some? && S(x').epoch == S(x).epoch + 1
            && x'.sent == x.sent && x'.accepted == x.accepted + [e] && x'.shown == x.shown
  {
  }

  /** A refused envelope leaves the party as it was. */
  lemma RefuseShape(x: Party, e: Envelope, draw: Draw)
    requires x.client.crypto.Some? && Open(S(x), e).result.Err?
    ensures ActReceive(x, EncryptedMessage(e), draw) == x
  {
  }

  lemma TakeAnswered(x: Station, y: Station, draw: Draw)
    requires Linked(x, y) && x.got < |y.party.sent|
    requires var e := y.party.sent[x.got];
             && Open(S(x.party), e).result.Ok? && IsRequest(e) && e.epoch == S(x.party).epoch
             && Open(S(x.party), e).result.value == e.ciphertext.payload
             && !InProgress(S(x.party)) && S(x.party).counter < U64_MAX
    requires Pair(TakeNext(x, y, draw).party, y.party) && Pair(y.party, TakeNext(x, y, draw).party)
    ensures Linked(TakeNext(x, y, draw), y)
  {
    var e := y.party.sent[x.got];
    AnswerShape(x.party, e, draw);
    OpenedRequestIsPending(x.party, y.party, e);
    var reply := ReplyUnder(Open(S(x.party), e).next, draw.messageId, e, draw.ephemeral);
    AnsweredTakeKeepsChannels(x, y, TakeNext(x, y, draw), reply);
  }

  lemma TakeCompleted(x: Station, y: Station, draw: Draw)
    requires Linked(x, y) && x.got < |y.party.sent|
    requires var e := y.party.sent[x.got];
             && Open(S(x.party), e).result.Ok? && IsResponse(e) && e.epoch == S(x.party).epoch
             && Open(S(x.party), e).result.value == e.ciphertext.payload
    requires Pair(TakeNext(x, y, draw).party, y.party) && Pair(y.party, TakeNext(x, y, draw).party)
    ensures Linked(TakeNext(x, y, draw), y)
  {
    var e := y.party.sent[x.got];
    ResponseClosesGap(x.party, y.party, e);
    CompleteShape(x.party, e, draw);
    CompletedTakeKeepsChannels(x, y, TakeNext(x, y, draw));
  }

  lemma ResponseClosesGap(x: Party, y: Party, e: Envelope)
    requires Pair(x, y) && e in y.sent && IsResponse(e) && e.epoch == S(x).epoch
    ensures Answers(S(y), S(x), e) && S(y).epoch == S(x).epoch + 1
  {
  }

  lemma TakeQuiet(x: Station, y: Station, draw: Draw)
    requires Linked(x, y) && x.got < |y.party.sent|
    requires var e := y.party.sent[x.got];
             Open(S(x.party), e).result.Ok? ==>
               !IsResponse(e) && (IsRequest(e) ==> InProgress(S(x.party)) || S(x.party).counter >= U64_MAX)
    requires Pair(TakeNext(x, y, draw).party, y.party) && Pair(y.party, TakeNext(x, y, draw).party)
    ensures Linked(TakeNext(x, y, draw), y)
  {
    var e := y.party.sent[x.got];
    NextOpensUnlessLost(x, y);
    if Open(S(x.party), e).result.Ok? {
      AbsorbShape(x.party, e, draw);
    } else {
      RefuseShape(x.party, e, draw);
    }
    QuietTakeKeepsChannels(x, y, TakeNext(x, y, draw));
  }

  lemma TakeKeepsPair(x: Station, y: Station, draw: Draw)
    requires Pair(x.party, y.party) && x.got < |y.party.sent|
    ensures Pair(TakeNext(x, y, draw).party, y.party) && Pair(y.party, TakeNext(x, y, draw).party)
  {
    ReceiveSentKeepsPair(x.party, y.party, y.party.sent[x.got], draw);
  }

  lemma TakeKeepsLinked(x: Station, y: Station, draw: Draw)
    requires Linked(x, y) && x.got < |y.party.sent|
    ensures Linked(TakeNext(x, y, draw), y)
  {
    var e := y.party.sent[x.got];
    NextOpensUnlessLost(x, y);
    TakeKeepsPair(x, y, draw);
    var opens := Open(S(x.party), e).result.Ok?;
    if opens && IsResponse(e) {
      TakeCompleted(x, y, draw);
    } else if opens && IsRequest(e) && !InProgress(S(x.party)) && S(x.party).counter < U64_MAX {
      TakeAnswered(x, y, draw);
    } else {
      TakeQuiet(x, y, draw);
    }
  }

  lemma PerformKeepsLinked(l: Link, e: Event)
    requires Linked(l.a, l.b) && Enabled(l, e)
    ensures Linked(Perform(l, e).a, Perform(l, e).b)
  {
    var x, y := if e.onA then l.a else l.b, if e.onA then l.b else l.a;
    match e
    case Say(_, text, draw) => SayKeepsLinked(x, y, text, draw);
    case Renew(_, draw) => RenewKeepsLinked(x, y, draw);
    case Take(_, draw) => TakeKeepsLinked(x, y, draw);
  }

  lemma {:induction false} LinkedAlways(l: Link, events: seq<Event>)
    requires Linked(l.a, l.b) && EnabledRun(l, events)
    ensures Linked(AfterRun(l, events).a, AfterRun(l, events).b)
    decreases |events|
  {
    if events != [] {
      PerformKeepsLinked(l, events[0]);
      LinkedAlways(Perform(l, events[0]), events[1..]);
    }
  }

  // ---------- exact loss ----------

  predicate FreshLink(l: Link) {
    Start(World(l.a.party, l.b.party)) && l.a.got == 0 && l.b.got == 0
  }

  lemma ReachedIsLinked(l: Link, events: seq<Event>)
    requires FreshLink(l) && EnabledRun(l, events)
    ensures Linked(AfterRun(l, events).a, AfterRun(l, events).b)
  {
    StartIsPair(l.a.party, l.b.party);
    StartIsPair(l.b.party, l.a.party);
    LinkedAlways(l, events);
  }

  /** After any run each side has reported exactly the peer's lines it has taken and that are not lost, in order. */
  lemma ExactLoss(l: Link, events: seq<Event>)
    requires FreshLink(l) && EnabledRun(l, events)
    ensures var (x, y) := (AfterRun(l, events).a, AfterRun(l, events).b);
            && x.got <= |y.party.sent| && y.got <= |x.party.sent|
            && y.party.shown == Surviving(x.party.sent, y.party.sent, y.got)
            && x.party.shown == Surviving(y.party.sent, x.party.sent, x.got)
  {
    ReachedIsLinked(l, events);
  }

  /** What the client makes of a line, by whether it opens. */
  lemma LineVerdict(c: Client, e: Envelope, draw: Draw)
    requires c.crypto.Some? && IsChat(e)
    ensures var r := HandleEvent(c, EncryptedMessage(e), draw);
            match Open(c.crypto.value, e).result
            case Err(error) => r.result == Err(CryptoFailure(error)) && r.next == c
            case Ok(payload) =>
              payload == e.ciphertext.payload ==>
                r.result == Ok(InboundOutcome(Some(ChatReceived(e.ciphertext.payload.text)), None))
  {
  }

  /** The verdict on each line as it is taken: refused, without effect, if and only if it is lost. */
  lemma LineIsRefusedIffLost(x: Station, y: Station, draw: Draw)
    requires Linked(x, y) && x.got < |y.party.sent| && IsChat(y.party.sent[x.got])
    ensures var e := y.party.sent[x.got];
            var r := HandleEvent(x.party.client, EncryptedMessage(e), draw);
            if LostLine(y.party.sent, x.party.sent, x.got)
            then r.result == Err(CryptoFailure(AuthenticationFailed)) && r.next == x.party.client
            else r.result == Ok(InboundOutcome(Some(ChatReceived(e.ciphertext.payload.text)), None))
  {
    NextOpensUnlessLost(x, y);
    LineVerdict(x.party.client, y.party.sent[x.got], draw);
  }

  lemma NoRequestBesideResponse(s: Session, sent: seq<Envelope>, epoch: nat)
    requires Log(s, sent) && HasResponse(sent, epoch)
    ensures !HasRequest(sent, epoch)
  {
    var k :| 0 <= k < |sent| && IsResponse(sent[k]) && sent[k].epoch == epoch;
    forall j | 0 <= j < |sent| && IsRequest(sent[j])
      ensures sent[j].epoch != epoch
    {
      assert Written(s, sent[j]);
    }
  }

  /** The side that answered a handshake loses no line of the epoch it answered at. */
  lemma ResponderLosesNothing(x: Station, y: Station, i: nat)
    requires Linked(x, y) && i < |x.party.sent|
    requires HasResponse(x.party.sent, x.party.sent[i].epoch)
    ensures !LostLine(x.party.sent, y.party.sent, i)
  {
    var xs := x.party.sent;
    NoRequestBesideResponse(S(x.party), xs, xs[i].epoch);
    if HasRequest(xs[..i], xs[i].epoch) {
      HasRequestGrows(xs[..i], xs, xs[i].epoch);
      assert false;
    }
  }
}
