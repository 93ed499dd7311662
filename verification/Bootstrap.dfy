/**
 The client driver from start-up on: both clients announce their key, retry until ready, and answer the first key; a
 side that is ready may speak before its peer is.
 */
module Bootstrap {
  import opened Types
  import opened Events
  import opened Crypto
  import opened Clients
  import opened PairInvariant
  import ClientRuns
  import Conversation

  /** A client process and the key announcements the relay holds for it. */
  datatype Peer = Peer(party: Party, online: bool, inbox: seq<WireEvent>)

  datatype Exchange = Exchange(a: Peer, b: Peer)

  datatype Step =
    | GoOnline(onA: bool)
    | RetryTick(onA: bool)
    | TakeKey(onA: bool, at: nat, draw: Draw)
    | Talk(onA: bool, action: Action)  // a line, a rekey, or the delivery of anything but a key announcement

  predicate Ready(x: Peer) { IsReady(x.party.client) }

  predicate ShouldRetryPeerKey(ready: bool) { !ready }

  predicate NeedsPeerKeyReply(wasReady: bool, event: WireEvent) { !wasReady && event.PeerKey? }

  /** The relay drops an announcement whose recipient is not connected. */
  function Announce(from: Peer, to: Peer): Peer {
    if to.online then to.(inbox := to.inbox + [PeerKeyEvent(from.party.client)]) else to
  }

  predicate Possible(x: Peer, y: Peer, s: Step) {
    match s
    case GoOnline(_) => !x.online
    case RetryTick(_) => x.online
    case TakeKey(_, at, _) => x.online && at < |x.inbox|
    case Talk(_, action) =>
      x.online && Allowed(x.party, y.party, action) && !(action.Receive? && action.event.PeerKey?)
  }

  /** The peer that acts, then the other one. */
  function Advance(x: Peer, y: Peer, s: Step): (Peer, Peer)
    requires Possible(x, y, s)
  {
    match s
    case GoOnline(_) => (x.(online := true), Announce(x, y))
    case RetryTick(_) => (x, if ShouldRetryPeerKey(Ready(x)) then Announce(x, y) else y)
    case TakeKey(_, at, draw) =>
      var event := x.inbox[at];
      var x' := x.(party := ActReceive(x.party, event, draw), inbox := x.inbox[..at] + x.inbox[at + 1..]);
      var ok := HandleEvent(x.party.client, event, draw).result.Ok?;
      (x', if ok && NeedsPeerKeyReply(Ready(x), event) then Announce(x', y) else y)
    case Talk(_, action) => (x.(party := Act(x.party, action)), y)
  }

  predicate Enabled(w: Exchange, s: Step) {
    if s.onA then Possible(w.a, w.b, s) else Possible(w.b, w.a, s)
  }

  function Do(w: Exchange, s: Step): Exchange
    requires Enabled(w, s)
  {
    if s.onA then var (x, y) := Advance(w.a, w.b, s); Exchange(x, y)
    else var (x, y) := Advance(w.b, w.a, s); Exchange(y, x)
  }

  predicate EnabledRun(w: Exchange, steps: seq<Step>)
    decreases |steps|
  {
    steps == [] || (Enabled(w, steps[0]) && EnabledRun(Do(w, steps[0]), steps[1..]))
  }

  function After(w: Exchange, steps: seq<Step>): Exchange
    requires EnabledRun(w, steps)
    decreases |steps|
  {
    if steps == [] then w else After(Do(w, steps[0]), steps[1..])
  }

  function KeyOf(x: Peer): PublicKey { PublicKey(x.party.client.secret) }

  /** The pin of `x`, if it has one, is the fingerprint of the key of `y`. */
  predicate Welcomes(x: Peer, y: Peer) {
    x.party.client.pin.Some? ==> x.party.client.pin.value == Fingerprint(KeyOf(y))
  }

  predicate StartOffline(x: Peer, y: Peer) {
    && ClientRuns.Created(x.party.client) && !x.online && x.inbox == []
    && x.party.client.peerId == y.party.client.localId
    && x.party.sent == [] && x.party.accepted == [] && x.party.lines == [] && x.party.shown == []
  }

  predicate FreshExchange(w: Exchange) {
    StartOffline(w.a, w.b) && StartOffline(w.b, w.a)
  }

  // ---------- one step ----------

  /** What a client never changes. */
  predicate SameClient(c: Client, d: Client) {
    c.localId == d.localId && c.peerId == d.peerId && c.secret == d.secret && c.pin == d.pin
  }

  lemma HandleKeepsClient(c: Client, event: WireEvent, draw: Draw)
    ensures SameClient(c, HandleEvent(c, event, draw).next)
  {
  }

  /** The client and its key stay; without a key nothing changes at all. */
  predicate TalkEffect(x: Party, x': Party) {
    && SameClient(x.client, x'.client) && x'.client.peerKey == x.client.peerKey
    && IsReady(x.client) == IsReady(x'.client)
    && (!IsReady(x.client) ==> x' == x)
  }

  lemma LineEffect(x: Party, text: string, draw: Draw)
    ensures TalkEffect(x, ActLine(x, text, draw))
  {
  }

  lemma ReceiveEffect(x: Party, event: WireEvent, draw: Draw)
    requires !event.PeerKey?
    ensures TalkEffect(x, ActReceive(x, event, draw))
  {
    HandleKeepsClient(x.client, event, draw);
  }

  lemma TalkKeeps(x: Party, action: Action)
    requires !(action.Receive? && action.event.PeerKey?)
    ensures TalkEffect(x, Act(x, action))
  {
    match action
    case Line(text, draw) => LineEffect(x, text, draw);
    case Rekey(draw) =>
    case Receive(event, draw) => ReceiveEffect(x, event, draw);
  }

  /** What an announcement of the key of `y` does to `x`. */
  lemma KeyIsTaken(x: Peer, y: Peer, draw: Draw)
    requires x.party.client.peerId == y.party.client.localId && y.party.client.peerId == x.party.client.localId
    requires x.party.client.peerKey.Some? <==> Ready(x)
    requires Ready(x) ==> x.party.client.peerKey == Some(KeyOf(y))
    ensures var event := PeerKeyEvent(y.party.client);
            var c, d := x.party.client, ActReceive(x.party, event, draw).client;
            && ActReceive(x.party, event, draw) == x.party.(client := d)
            && (HandleEvent(c, event, draw).result.Ok? <==> Ready(x) || Welcomes(x, y))
            && d == if !Ready(x) && Welcomes(x, y)
                    then c.(peerKey := Some(KeyOf(y)), crypto := Some(Fresh(c.secret, KeyOf(y), c.localId, c.peerId)))
                    else c
  {
  }

  /** The announcement of a side names it, its peer and its own key. */
  predicate Announces(event: WireEvent, x: Peer) {
    && event.PeerKey? && event.from == x.party.client.localId && event.to == x.party.client.peerId
    && event.publicKey == KeyOf(x)
  }

  /** The inbox gained one announcement of `x`. */
  predicate Gains(inbox: seq<WireEvent>, inbox': seq<WireEvent>, x: Peer) {
    |inbox'| == |inbox| + 1 && inbox < inbox' && Announces(inbox'[|inbox|], x)
  }

  /**
   Who announces when: a side that comes online, an unready side at each tick, and a side at the moment it becomes
   ready, each to an online peer; nobody else, and nothing reaches an absent peer.
   */
  lemma AnnouncesExactlyWhen(x: Peer, y: Peer, s: Step)
    requires Possible(x, y, s)
    ensures var (x', y') := Advance(x, y, s);
            var due := match s
                       case GoOnline(_) => true
                       case RetryTick(_) => !Ready(x)
                       case TakeKey(_, at, draw) =>
                         !Ready(x) && x.inbox[at].PeerKey? && HandleEvent(x.party.client, x.inbox[at], draw).result.Ok?
                       case Talk(_, _) => false;
            && y'.party == y.party && y'.online == y.online
            && (due && y.online ==> Gains(y.inbox, y'.inbox, x'))
            && (!(due && y.online) ==> y'.inbox == y.inbox)
  {
  }

  // ---------- the key exchange ----------

  /** `x` is ready only with the real key, and then an unready `y` that will accept it has its key coming. */
  predicate Toward(x: Peer, y: Peer) {
    && x.party.client.peerId == y.party.client.localId
    && (!x.online ==> x.inbox == [] && !Ready(x))
    && (forall i | 0 <= i < |x.inbox| :: x.inbox[i] == PeerKeyEvent(y.party.client))
    && (x.inbox != [] ==> y.online)
    && (x.party.client.peerKey.Some? <==> Ready(x))
    && (Ready(x) ==> y.online && Welcomes(x, y) && x.party.client.peerKey == Some(KeyOf(y)))
    && (Ready(x) && !Ready(y) && Welcomes(y, x) ==> y.inbox != [])
  }

  lemma TakeKeyKeeps(x: Peer, y: Peer, s: Step)
    requires Toward(x, y) && Toward(y, x) && s.TakeKey? && Possible(x, y, s)
    ensures var (x', y') := Advance(x, y, s); Toward(x', y') && Toward(y', x')
  {
    assert x.inbox[s.at] == PeerKeyEvent(y.party.client);
    KeyIsTaken(x, y, s.draw);
  }

  lemma TalkKeepsToward(x: Peer, y: Peer, s: Step)
    requires Toward(x, y) && Toward(y, x) && s.Talk? && Possible(x, y, s)
    ensures var (x', y') := Advance(x, y, s); Toward(x', y') && Toward(y', x')
  {
    TalkKeeps(x.party, s.action);
  }

  lemma AdvanceKeeps(x: Peer, y: Peer, s: Step)
    requires Toward(x, y) && Toward(y, x) && Possible(x, y, s)
    ensures var (x', y') := Advance(x, y, s); Toward(x', y') && Toward(y', x')
  {
    if s.TakeKey? {
      TakeKeyKeeps(x, y, s);
    } else if s.Talk? {
      TalkKeepsToward(x, y, s);
    }
  }

  lemma StepKeeps(w: Exchange, s: Step)
    requires Toward(w.a, w.b) && Toward(w.b, w.a) && Enabled(w, s)
    ensures Toward(Do(w, s).a, Do(w, s).b) && Toward(Do(w, s).b, Do(w, s).a)
  {
    if s.onA {
      AdvanceKeeps(w.a, w.b, s);
    } else {
      AdvanceKeeps(w.b, w.a, s);
    }
  }

  lemma {:induction false} ExchangeInvariant(w: Exchange, steps: seq<Step>)
    requires Toward(w.a, w.b) && Toward(w.b, w.a) && EnabledRun(w, steps)
    ensures Toward(After(w, steps).a, After(w, steps).b) && Toward(After(w, steps).b, After(w, steps).a)
    decreases |steps|
  {
    if steps != [] {
      StepKeeps(w, steps[0]);
      ExchangeInvariant(Do(w, steps[0]), steps[1..]);
    }
  }

  /** A ready side has the real key; if the other is not ready but will accept its key, that key is on its way. */
  predicate Heard(x: Peer, y: Peer) {
    && (Ready(x) ==> x.party.client.peerKey == Some(KeyOf(y)))
    && (Ready(x) && !Ready(y) && Welcomes(y, x) ==> y.online && PeerKeyEvent(x.party.client) in y.inbox)
  }

  lemma TowardIsHeard(x: Peer, y: Peer)
    requires Toward(x, y) && Toward(y, x)
    ensures Heard(x, y)
  {
    if y.inbox != [] {
      assert y.inbox[0] in y.inbox;
    }
  }

  /**
   However announcements, retries, deliveries and talk interleave, and although announcements to an absent peer are
   dropped: if one side is ready and the other is not, and no pin stands against it, the ready side's key is on its way.
   */
  lemma ReadySideIsBeingHeard(w: Exchange, steps: seq<Step>)
    requires FreshExchange(w) && EnabledRun(w, steps)
    ensures Heard(After(w, steps).a, After(w, steps).b) && Heard(After(w, steps).b, After(w, steps).a)
  {
    ExchangeInvariant(w, steps);
    TowardIsHeard(After(w, steps).a, After(w, steps).b);
    TowardIsHeard(After(w, steps).b, After(w, steps).a);
  }

  /** An announcement taken by an unready side makes it ready if and only if no pin stands against it. */
  lemma TakingAKeyMakesReadyIff(x: Peer, y: Peer, s: Step)
    requires Toward(x, y) && Toward(y, x) && s.TakeKey? && Possible(x, y, s) && !Ready(x)
    ensures Ready(Advance(x, y, s).0) <==> Welcomes(x, y)
  {
    assert x.inbox[s.at] == PeerKeyEvent(y.party.client);
    KeyIsTaken(x, y, s.draw);
  }

  // ---------- a pin that does not match ----------

  /** `x` is ready and has stopped announcing; `y` is pinned to another key and has nothing left to take. */
  predicate Deaf(x: Peer, y: Peer) {
    Ready(x) && x.online && y.online && !Welcomes(y, x) && !Ready(y) && y.inbox == []
  }

  lemma DeafStep(x: Peer, y: Peer, s: Step)
    requires Toward(x, y) && Toward(y, x) && Deaf(x, y)
    ensures Possible(x, y, s) ==> Deaf(Advance(x, y, s).0, Advance(x, y, s).1)
    ensures Possible(y, x, s) ==> Deaf(Advance(y, x, s).1, Advance(y, x, s).0)
  {
    if s.Talk? && !(s.action.Receive? && s.action.event.PeerKey?) {
      TalkKeeps(x.party, s.action);
      TalkKeeps(y.party, s.action);
    } else if s.TakeKey? && s.at < |x.inbox| {
      assert x.inbox[s.at] == PeerKeyEvent(y.party.client);
      KeyIsTaken(x, y, s.draw);
    }
  }

  /** From then on nothing reaches the pinned side and it never becomes ready. */
  lemma {:induction false} DeafStaysDeaf(w: Exchange, steps: seq<Step>)
    requires Toward(w.a, w.b) && Toward(w.b, w.a) && Deaf(w.a, w.b) && EnabledRun(w, steps)
    ensures Deaf(After(w, steps).a, After(w, steps).b)
    decreases |steps|
  {
    if steps != [] {
      StepKeeps(w, steps[0]);
      DeafStep(w.a, w.b, steps[0]);
      DeafStaysDeaf(Do(w, steps[0]), steps[1..]);
    }
  }

  /** A side pinned to another key never becomes ready, whatever happens. */
  lemma PinnedElsewhereStaysUnready(w: Exchange, steps: seq<Step>)
    requires FreshExchange(w) && EnabledRun(w, steps)
    ensures !Welcomes(w.b, w.a) ==> !Ready(After(w, steps).b)
    ensures !Welcomes(w.a, w.b) ==> !Ready(After(w, steps).a)
  {
    ExchangeInvariant(w, steps);
    ClientsStay(w, steps);
  }

  lemma StepKeepsClients(w: Exchange, s: Step)
    requires Enabled(w, s)
    ensures SameClient(w.a.party.client, Do(w, s).a.party.client)
    ensures SameClient(w.b.party.client, Do(w, s).b.party.client)
  {
    var x := if s.onA then w.a else w.b;
    if s.Talk? {
      TalkKeeps(x.party, s.action);
    } else if s.TakeKey? {
      HandleKeepsClient(x.party.client, x.inbox[s.at], s.draw);
    }
  }

  lemma {:induction false} ClientsStay(w: Exchange, steps: seq<Step>)
    requires EnabledRun(w, steps)
    ensures SameClient(w.a.party.client, After(w, steps).a.party.client)
    ensures SameClient(w.b.party.client, After(w, steps).b.party.client)
    decreases |steps|
  {
    if steps != [] {
      StepKeepsClients(w, steps[0]);
      ClientsStay(Do(w, steps[0]), steps[1..]);
    }
  }

  /** The run that ends there: `a` gets the key of `b` and stops retrying, `b` refuses the answer and has no other. */
  function DeafeningRun(draw: Draw): seq<Step> {
    [GoOnline(true), GoOnline(false), TakeKey(true, 0, draw), TakeKey(false, 0, draw)]
  }

  lemma MismatchedPinDeafens(w: Exchange, draw: Draw)
    requires FreshExchange(w) && Welcomes(w.a, w.b) && !Welcomes(w.b, w.a)
    ensures EnabledRun(w, DeafeningRun(draw)) && Deaf(After(w, DeafeningRun(draw)).a, After(w, DeafeningRun(draw)).b)
  {
    var w1 := Do(w, GoOnline(true));
    var w2 := Do(w1, GoOnline(false));
    assert w2.a.inbox == [PeerKeyEvent(w.b.party.client)] && w2.b.inbox == [];
    KeyIsTaken(w2.a, w2.b, draw);
    var w3 := Do(w2, TakeKey(true, 0, draw));
    assert w3.b.inbox == [PeerKeyEvent(w3.a.party.client)];
    KeyIsTaken(w3.b, w3.a, draw);
    var w4 := Do(w3, TakeKey(false, 0, draw));
    assert Deaf(w4.a, w4.b);
    FourSteps(w, GoOnline(true), GoOnline(false), TakeKey(true, 0, draw), TakeKey(false, 0, draw));
  }

  lemma FirstStep(w: Exchange, s: Step, rest: seq<Step>)
    requires Enabled(w, s) && EnabledRun(Do(w, s), rest)
    ensures EnabledRun(w, [s] + rest) && After(w, [s] + rest) == After(Do(w, s), rest)
  {
    assert ([s] + rest)[1..] == rest;
  }

  lemma FourSteps(w: Exchange, p: Step, q: Step, r: Step, s: Step)
    requires Enabled(w, p) && Enabled(Do(w, p), q) && Enabled(Do(Do(w, p), q), r)
    requires Enabled(Do(Do(Do(w, p), q), r), s)
    ensures EnabledRun(w, [p, q, r, s]) && After(w, [p, q, r, s]) == Do(Do(Do(Do(w, p), q), r), s)
  {
    var w1, w2, w3 := Do(w, p), Do(Do(w, p), q), Do(Do(Do(w, p), q), r);
    var w4 := Do(w3, s);
    assert EnabledRun(w4, []) && After(w4, []) == w4;
    FirstStep(w3, s, []);
    assert [s] + [] == [s];
    FirstStep(w2, r, [s]);
    assert [r] + [s] == [r, s];
    FirstStep(w1, q, [r, s]);
    assert [q] + [r, s] == [q, r, s];
    FirstStep(w, p, [q, r, s]);
    assert [p] + [q, r, s] == [p, q, r, s];
  }

  // ---------- the conversation that begins before both are ready ----------

  /** `x` as it will be once it has the key of `y`: itself if it has it, else with a fresh session. */
  function Shadow(x: Party, y: Party): Party {
    if IsReady(x.client) then x
    else
      var key := PublicKey(y.client.secret);
      x.(client := x.client.(peerKey := Some(key),
                             crypto := Some(Fresh(x.client.secret, key, x.client.localId, x.client.peerId))))
  }

  function Shadows(w: Exchange): Conversation.World {
    Conversation.World(Shadow(w.a.party, w.b.party), Shadow(w.b.party, w.a.party))
  }

  lemma FreshShadowsStart(w: Exchange)
    requires FreshExchange(w) && w.a.party.client.localId != w.b.party.client.localId
    ensures Conversation.Start(Shadows(w))
  {
  }

  /** A step leaves the shadows as they are, unless a ready side talks. */
  lemma QuietStepKeepsShadows(w: Exchange, s: Step)
    requires Toward(w.a, w.b) && Toward(w.b, w.a) && Enabled(w, s)
    requires s.Talk? ==> !Ready(if s.onA then w.a else w.b)
    ensures Shadows(Do(w, s)) == Shadows(w)
  {
    var x, y := if s.onA then w.a else w.b, if s.onA then w.b else w.a;
    if s.Talk? {
      TalkKeeps(x.party, s.action);
    } else if s.TakeKey? {
      assert x.inbox[s.at] == PeerKeyEvent(y.party.client);
      KeyIsTaken(x, y, s.draw);
    }
  }

  /** A ready side's talk is the same move of the two-party protocol. */
  lemma TalkIsAMove(w: Exchange, s: Step)
    requires Enabled(w, s) && s.Talk? && Ready(if s.onA then w.a else w.b)
    ensures var m := Conversation.Move(s.onA, s.action);
            Conversation.Legal(Shadows(w), m) && Shadows(Do(w, s)) == Conversation.Do(Shadows(w), m)
  {
    var x := if s.onA then w.a else w.b;
    TalkKeeps(x.party, s.action);
  }

  lemma StepFollows(start: Conversation.World, w: Exchange, s: Step)
    requires Toward(w.a, w.b) && Toward(w.b, w.a) && Enabled(w, s) && Conversation.Reaches(start, Shadows(w))
    ensures Conversation.Reaches(start, Shadows(Do(w, s)))
  {
    if s.Talk? && Ready(if s.onA then w.a else w.b) {
      TalkIsAMove(w, s);
      Conversation.ReachesOn(start, Shadows(w), Conversation.Move(s.onA, s.action));
    } else {
      QuietStepKeepsShadows(w, s);
    }
  }

  lemma {:induction false} RunFollows(start: Conversation.World, w: Exchange, steps: seq<Step>)
    requires Toward(w.a, w.b) && Toward(w.b, w.a) && EnabledRun(w, steps) && Conversation.Reaches(start, Shadows(w))
    ensures Conversation.Reaches(start, Shadows(After(w, steps)))
    decreases |steps|
  {
    if steps != [] {
      StepKeeps(w, steps[0]);
      StepFollows(start, w, steps[0]);
      RunFollows(start, Do(w, steps[0]), steps[1..]);
    }
  }

  /**
   Whoever becomes ready first and whatever is said before the other one is: once both sides are ready, they are in a
   state that the two-party protocol reaches from its start, so that everything proved of its runs holds of them.
   */
  lemma ExchangeIsAConversation(w: Exchange, steps: seq<Step>)
    requires FreshExchange(w) && w.a.party.client.localId != w.b.party.client.localId && EnabledRun(w, steps)
    ensures Conversation.Start(Shadows(w)) && Conversation.Reaches(Shadows(w), Shadows(After(w, steps)))
    ensures var w' := After(w, steps);
            Ready(w'.a) && Ready(w'.b) ==> Shadows(w') == Conversation.World(w'.a.party, w'.b.party)
  {
    FreshShadowsStart(w);
    assert Conversation.LegalRun(Shadows(w), []) && Conversation.After(Shadows(w), []) == Shadows(w);
    RunFollows(Shadows(w), w, steps);
  }

  /** An unready side has said nothing and accepted nothing. */
  lemma UnreadyIsSilent(w: Exchange, steps: seq<Step>)
    requires FreshExchange(w) && EnabledRun(w, steps)
    ensures var w' := After(w, steps);
            && (!Ready(w'.a) ==> w'.a.party == w.a.party)
            && (!Ready(w'.b) ==> w'.b.party == w.b.party)
  {
    UnreadyUntouched(w, steps);
  }

  lemma {:induction false} UnreadyUntouched(w: Exchange, steps: seq<Step>)
    requires Toward(w.a, w.b) && Toward(w.b, w.a) && EnabledRun(w, steps)
    ensures var w' := After(w, steps);
            && (Ready(w.a) ==> Ready(w'.a)) && (!Ready(w'.a) ==> w'.a.party == w.a.party)
            && (Ready(w.b) ==> Ready(w'.b)) && (!Ready(w'.b) ==> w'.b.party == w.b.party)
    decreases |steps|
  {
    if steps != [] {
      var s := steps[0];
      var x, y := if s.onA then w.a else w.b, if s.onA then w.b else w.a;
      if s.Talk? {
        TalkKeeps(x.party, s.action);
      } else if s.TakeKey? {
        assert x.inbox[s.at] == PeerKeyEvent(y.party.client);
        KeyIsTaken(x, y, s.draw);
      }
      StepKeeps(w, s);
      UnreadyUntouched(Do(w, s), steps[1..]);
    }
  }
}
