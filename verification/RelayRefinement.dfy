/**
 The concurrent relay refines the router: every interleaving is a sequence of router calls, what flushes drained and
 what is queued is the router's log as each client sees it, and nothing arrives under a forged sender.
 */
module RelayRefinement {
  import opened Types
  import opened Events
  import opened Router
  import opened Relay
  import opened RelayOwnership
  import opened RelayConservation
  import opened RelayBatches

  // ---------- the router calls of a run ----------

  /** The router calls of one step; a flush drains each target that has a handle. */
  function Calls(s: State, a: Action): seq<Operation>
    requires Enabled(s, a)
  {
    match a
    case Join(t) => [ConnectOp(s.tasks[t].client)]
    case Route(t, event) => [RouteOp(s.tasks[t].client, event)]
    case Flush(t) => Drains(s.connections, s.tasks[t].phase.targets)
    case Disconnect(t) => [DisconnectOp(s.tasks[t].client)]
    case _ => []
  }

  function Drains(connections: map<ClientId, nat>, targets: seq<ClientId>): seq<Operation> {
    if targets == [] then []
    else (if targets[0] in connections then [DrainOp(targets[0])] else []) + Drains(connections, targets[1..])
  }

  function Trace(s: State, actions: seq<Action>): seq<Operation>
    requires EnabledRun(s, actions)
    decreases |actions|
  {
    if actions == [] then [] else Calls(s, actions[0]) + Trace(Do(s, actions[0]), actions[1..])
  }

  function ApplyAll(h: History, ops: seq<Operation>): History
    decreases |ops|
  {
    if ops == [] then h else ApplyAll(Apply(h, ops[0]), ops[1..])
  }

  lemma {:induction false} ApplyAllConcat(h: History, p: seq<Operation>, q: seq<Operation>)
    ensures ApplyAll(h, p + q) == ApplyAll(ApplyAll(h, p), q)
    decreases |p|
  {
    if p == [] {
      assert p + q == q;
    } else {
      assert (p + q)[1..] == p[1..] + q;
      ApplyAllConcat(Apply(h, p[0]), p[1..], q);
    }
  }

  lemma {:induction false} ReplayIsApplyAll(ops: seq<Operation>)
    ensures Replay(ops) == ApplyAll(Replay([]), ops)
  {
    if ops != [] {
      var front, last := ops[..|ops| - 1], ops[|ops| - 1];
      ReplayIsApplyAll(front);
      ApplyAllConcat(Replay([]), front, [last]);
      assert ops == front + [last] && [last][1..] == [];
      assert ApplyAll(ApplyAll(Replay([]), front), [last]) == ApplyAll(Apply(Replay(front), last), []);
    }
  }

  // ---------- the correspondence ----------

  function Plain(items: seq<Item>): (r: seq<WireEvent>)
    ensures |r| == |items|
  {
    seq(|items|, i requires 0 <= i < |items| => items[i].event)
  }

  lemma PlainConcat(p: seq<Item>, q: seq<Item>)
    ensures Plain(p + q) == Plain(p) + Plain(q)
  {
  }

  /** Everything flushes drained for connection `t`, in order. */
  function DrainedFor(batches: seq<Batch>, t: nat): seq<Item> {
    if batches == [] then []
    else
      var last := batches[|batches| - 1];
      DrainedFor(batches[..|batches| - 1], t) + (if last.conn == t then last.items else [])
  }

  /** The outboxes of the relay, without serial numbers, are the router's. */
  predicate SameOutboxes(s: State, h: History) {
    && h.outboxes.Keys == s.outboxes.Keys
    && forall c | c in s.outboxes :: h.outboxes[c] == Plain(s.outboxes[c])
  }

  /** What the router handed out for a client in its present lifetime went to its present connection. */
  ghost predicate SameDrained(s: State, h: History) {
    forall t, c | Owns(s, t, c) :: c in h.drained && h.drained[c] == Plain(DrainedFor(s.batches, t))
  }

  /** Nothing was drained for a connection that is not registered yet. */
  predicate NotBeforeJoining(s: State) {
    forall b | 0 <= b < |s.batches| :: s.batches[b].conn in s.tasks && !s.tasks[s.batches[b].conn].phase.Greeted?
  }

  /** Where a queued instance comes from. */
  ghost predicate Sourced(log: seq<Entry>, item: Item) {
    item.event.Error? || HasSource(log, item.client, item.event)
  }

  ghost predicate AllSourced(s: State, h: History) {
    Signed(h.log) && forall n | 0 <= n < |s.log| :: Sourced(h.log, s.log[n])
  }

  ghost predicate Matches(s: State, h: History) {
    SameOutboxes(s, h) && SameDrained(s, h) && NotBeforeJoining(s) && AllSourced(s, h)
  }

  // ---------- steps that call the router not at all ----------

  /** Outboxes, log, and what was drained for whom are as before; nobody new holds an id or goes back to the start. */
  ghost predicate Untouched(s: State, s': State) {
    && s'.outboxes == s.outboxes && |s'.batches| == |s.batches|
    && (forall b | 0 <= b < |s.batches| ::
          s'.batches[b].conn == s.batches[b].conn && s'.batches[b].items == s.batches[b].items)
    && (forall t, c | Owns(s', t, c) :: Owns(s, t, c))
    && (forall t | t in s.tasks :: t in s'.tasks && (s'.tasks[t].phase.Greeted? ==> s.tasks[t].phase.Greeted?))
  }

  predicate LogUntouched(s: State, s': State) {
    s.log <= s'.log && forall n | |s.log| <= n < |s'.log| :: s'.log[n].event.Error?
  }

  lemma {:induction false} DrainedForSame(p: seq<Batch>, q: seq<Batch>, t: nat)
    requires |p| == |q| && forall b | 0 <= b < |p| :: q[b].conn == p[b].conn && q[b].items == p[b].items
    ensures DrainedFor(q, t) == DrainedFor(p, t)
  {
    if p != [] {
      DrainedForSame(p[..|p| - 1], q[..|q| - 1], t);
    }
  }

  lemma UntouchedMatches(s: State, s': State, h: History)
    requires Matches(s, h) && Untouched(s, s') && LogUntouched(s, s')
    ensures Matches(s', h)
  {
    forall t, c | Owns(s', t, c)
      ensures c in h.drained && h.drained[c] == Plain(DrainedFor(s'.batches, t))
    {
      assert Owns(s, t, c);
      DrainedForSame(s.batches, s'.batches, t);
    }
    forall n | 0 <= n < |s'.log|
      ensures Sourced(h.log, s'.log[n])
    {
      if n < |s.log| {
        assert s'.log[n] == s.log[n];
      }
    }
  }

  lemma SendUntouched(s: State, t: nat)
    requires Enabled(s, Send(t))
    ensures Untouched(s, Do(s, Send(t))) && LogUntouched(s, Do(s, Send(t)))
  {
  }

  lemma QuietUntouched(s: State, a: Action)
    requires Owned(s) && Enabled(s, a)
    requires !a.Join? && !a.Route? && !a.Flush? && !a.Disconnect? && !a.Send?
    ensures Untouched(s, Do(s, a)) && LogUntouched(s, Do(s, a))
  {
  }

  // ---------- joining and leaving ----------

  lemma JoinMatches(s: State, t: nat, h: History)
    requires Owned(s) && Matches(s, h) && Enabled(s, Join(t))
    ensures Matches(Do(s, Join(t)), Apply(h, ConnectOp(s.tasks[t].client)))
  {
    var s', c := Do(s, Join(t)), s.tasks[t].client;
    var h' := Apply(h, ConnectOp(c));
    if c !in s.outboxes {
      NothingDrainedFor(s.batches, t);
      forall u, d | Owns(s', u, d)
        ensures d in h'.drained && h'.drained[d] == Plain(DrainedFor(s'.batches, u))
      {
        if u != t {
          assert Owns(s, u, d);
        }
      }
    } else {
      forall u, d | Owns(s', u, d)
        ensures Owns(s, u, d)
      {
      }
    }
  }

  lemma {:induction false} NothingDrainedFor(batches: seq<Batch>, t: nat)
    requires forall b | 0 <= b < |batches| :: batches[b].conn != t
    ensures DrainedFor(batches, t) == []
  {
    if batches != [] {
      NothingDrainedFor(batches[..|batches| - 1], t);
    }
  }

  lemma DisconnectMatches(s: State, t: nat, h: History)
    requires Owned(s) && Matches(s, h) && Enabled(s, Disconnect(t))
    ensures Matches(Do(s, Disconnect(t)), Apply(h, DisconnectOp(s.tasks[t].client)))
  {
    var s' := Do(s, Disconnect(t));
    forall u, d | Owns(s', u, d)
      ensures Owns(s, u, d)
    {
    }
  }

  // ---------- routing ----------

  lemma RouteSameOutboxes(s: State, t: nat, event: WireEvent, h: History)
    requires SameOutboxes(s, h) && Enabled(s, Route(t, event))
    ensures SameOutboxes(Do(s, Route(t, event)), Apply(h, RouteOp(s.tasks[t].client, event)))
  {
    var client := s.tasks[t].client;
    if Verdict(s.outboxes.Keys, client, event).Ok? {
      var item := Item(|s.log|, event, Verdict(s.outboxes.Keys, client, event).value);
      RoutedPlain(s, h, client, event, item, Item(|s.log| + 1, AckOrSelf(event), client));
    }
  }

  /** Routing items that stand for the event and its Ack is routing the event. */
  lemma RoutedPlain(s: State, h: History, client: ClientId, event: WireEvent, item: Item, ack: Item)
    requires SameOutboxes(s, h) && Verdict(s.outboxes.Keys, client, event).Ok?
    requires item.event == event && ack.event == AckOrSelf(event)
    ensures var o := Routed(s.outboxes, client, event, item, ack);
            var p := Routed(h.outboxes, client, event, event, AckOrSelf(event));
            p.Keys == o.Keys && forall c | c in o :: p[c] == Plain(o[c])
  {
    forall c | c in s.outboxes
      ensures Plain(s.outboxes[c] + [item]) == Plain(s.outboxes[c]) + [event]
      ensures Plain(s.outboxes[c] + [ack]) == Plain(s.outboxes[c]) + [AckOrSelf(event)]
      ensures Plain(s.outboxes[c] + [item] + [ack]) == Plain(s.outboxes[c]) + [event] + [AckOrSelf(event)]
    {
    }
  }

  /** Whatever routing adds to the log is the event for its addressee, or its Ack for its author. */
  lemma RouteSourced(s: State, t: nat, event: WireEvent, h: History)
    requires SameOutboxes(s, h) && AllSourced(s, h) && Enabled(s, Route(t, event))
    ensures AllSourced(Do(s, Route(t, event)), Apply(h, RouteOp(s.tasks[t].client, event)))
  {
    var c := s.tasks[t].client;
    var s', h' := Do(s, Route(t, event)), Apply(h, RouteOp(c, event));
    ApplyKeepsSigned(h, RouteOp(c, event));
    if Verdict(s.outboxes.Keys, c, event).Ok? {
      var entry := Entry(c, event);
      assert h'.log == h.log + [entry] && h'.log[|h.log|] == entry;
      forall n | 0 <= n < |s'.log|
        ensures Sourced(h'.log, s'.log[n])
      {
        if n < |s.log| {
          assert s'.log[n] == s.log[n];
          if !s.log[n].event.Error? {
            HasSourceGrows(h.log, entry, s.log[n].client, s.log[n].event);
          }
        } else {
          assert HasSource(h'.log, s'.log[n].client, s'.log[n].event);
        }
      }
    }
  }

  lemma RouteMatches(s: State, t: nat, event: WireEvent, h: History)
    requires Matches(s, h) && Enabled(s, Route(t, event))
    ensures Matches(Do(s, Route(t, event)), Apply(h, RouteOp(s.tasks[t].client, event)))
  {
    var s', h' := Do(s, Route(t, event)), Apply(h, RouteOp(s.tasks[t].client, event));
    RouteSameOutboxes(s, t, event, h);
    RouteSourced(s, t, event, h);
    assert s'.batches == s.batches && h'.drained == h.drained;
    forall u, d | Owns(s', u, d)
      ensures Owns(s, u, d)
    {
    }
  }

  // ---------- flushing ----------

  lemma DrainOneSameOutboxes(s: State, c: ClientId, h: History)
    requires SameOutboxes(s, h) && c in s.connections
    ensures SameOutboxes(DrainOne(s, c), Apply(h, DrainOp(c)))
  {
  }

  lemma DrainOneSameDrained(s: State, c: ClientId, h: History)
    requires Owned(s) && SameOutboxes(s, h) && SameDrained(s, h) && c in s.connections
    ensures SameDrained(DrainOne(s, c), Apply(h, DrainOp(c)))
  {
    forall u, d | Owns(DrainOne(s, c), u, d)
      ensures d in Apply(h, DrainOp(c)).drained
      ensures Apply(h, DrainOp(c)).drained[d] == Plain(DrainedFor(DrainOne(s, c).batches, u))
    {
      assert Owns(s, u, d);
      DrainedForOneMore(s, c, u, d);
      RouterDrains(s, h, c, d);
    }
  }

  /** What draining for `c` adds to the router's account of `d`. */
  lemma RouterDrains(s: State, h: History, c: ClientId, d: ClientId)
    requires SameOutboxes(s, h) && d in h.drained
    ensures d in Apply(h, DrainOp(c)).drained
    ensures Apply(h, DrainOp(c)).drained[d]
         == h.drained[d] + (if d == c && c in s.outboxes then Plain(s.outboxes[c]) else [])
  {
  }

  lemma DrainOneMatches(s: State, c: ClientId, h: History)
    requires Owned(s) && Matches(s, h)
    ensures var ops := if c in s.connections then [DrainOp(c)] else [];
            Matches(DrainOne(s, c), ApplyAll(h, ops))
  {
    if c in s.connections {
      ApplyOne(h, DrainOp(c));
      DrainOneSameOutboxes(s, c, h);
      DrainOneSameDrained(s, c, h);
      DrainOneKeepsRest(s, c);
      assert DrainOne(s, c).log == s.log && Apply(h, DrainOp(c)).log == h.log;
    }
  }

  lemma DrainOneKeepsRest(s: State, c: ClientId)
    requires Owned(s) && NotBeforeJoining(s)
    ensures NotBeforeJoining(DrainOne(s, c))
  {
    var s' := DrainOne(s, c);
    forall b | 0 <= b < |s'.batches|
      ensures s'.batches[b].conn in s'.tasks && !s'.tasks[s'.batches[b].conn].phase.Greeted?
    {
      if b < |s.batches| {
        assert s'.batches[b] == s.batches[b];
      } else {
        assert Owns(s, s.connections[c], c);
      }
    }
  }

  /** Draining for `c` adds its outbox to what was drained for its own connection, and to nobody else's. */
  lemma DrainedForOneMore(s: State, c: ClientId, u: nat, d: ClientId)
    requires Owned(s) && Owns(s, u, d) && c in s.connections
    ensures Plain(DrainedFor(DrainOne(s, c).batches, u))
         == Plain(DrainedFor(s.batches, u)) + (if d == c && c in s.outboxes then Plain(s.outboxes[c]) else [])
  {
    var s' := DrainOne(s, c);
    assert Owns(s, s.connections[c], c);
    assert d == c <==> s.connections[c] == u;
    if s'.batches != s.batches {
      assert s'.batches[..|s'.batches| - 1] == s.batches;
      PlainConcat(DrainedFor(s.batches, u), s.outboxes[c]);
    }
  }

  lemma DrainOneKeepsOwned(s: State, c: ClientId)
    requires Owned(s)
    ensures Owned(DrainOne(s, c)) && DrainOne(s, c).connections == s.connections
  {
    var s' := DrainOne(s, c);
    forall t, d
      ensures Owns(s', t, d) == Owns(s, t, d)
    {
    }
    forall d | d in s'.outboxes
      ensures exists t :: Owns(s', t, d)
    {
      var t :| Owns(s, t, d);
      assert Owns(s', t, d);
    }
  }

  lemma {:induction false} DrainAllMatches(s: State, targets: seq<ClientId>, h: History)
    requires Owned(s) && Matches(s, h)
    ensures Matches(DrainAll(s, targets), ApplyAll(h, Drains(s.connections, targets)))
    decreases |targets|
  {
    if targets != [] {
      var c, rest := targets[0], targets[1..];
      var first := if c in s.connections then [DrainOp(c)] else [];
      DrainOneMatches(s, c, h);
      DrainOneKeepsOwned(s, c);
      DrainAllMatches(DrainOne(s, c), rest, ApplyAll(h, first));
      ApplyAllConcat(h, first, Drains(s.connections, rest));
    }
  }

  lemma FlushMatches(s: State, t: nat, h: History)
    requires Owned(s) && Matches(s, h) && Enabled(s, Flush(t))
    ensures Matches(Do(s, Flush(t)), ApplyAll(h, Calls(s, Flush(t))))
  {
    var drained, s' := DrainAll(s, s.tasks[t].phase.targets), Do(s, Flush(t));
    DrainAllMatches(s, s.tasks[t].phase.targets, h);
    assert s'.batches == drained.batches && s'.outboxes == drained.outboxes && s'.log == drained.log;
    forall u, d | Owns(s', u, d)
      ensures Owns(drained, u, d)
    {
    }
    UntouchedMatches(drained, s', ApplyAll(h, Calls(s, Flush(t))));
  }

  // ---------- whole runs ----------

  lemma ApplyOne(h: History, op: Operation)
    ensures ApplyAll(h, [op]) == Apply(h, op)
  {
    assert [op][1..] == [];
    assert ApplyAll(h, [op]) == ApplyAll(Apply(h, op), []);
  }

  lemma StepMatches(s: State, a: Action, h: History)
    requires Owned(s) && Matches(s, h) && Enabled(s, a)
    ensures Matches(Do(s, a), ApplyAll(h, Calls(s, a)))
  {
    if a.Join? {
      JoinMatches(s, a.t, h);
      ApplyOne(h, ConnectOp(s.tasks[a.t].client));
    } else if a.Route? {
      RouteMatches(s, a.t, a.event, h);
      ApplyOne(h, RouteOp(s.tasks[a.t].client, a.event));
    } else if a.Flush? {
      FlushMatches(s, a.t, h);
    } else if a.Disconnect? {
      DisconnectMatches(s, a.t, h);
      ApplyOne(h, DisconnectOp(s.tasks[a.t].client));
    } else if a.Send? {
      SendUntouched(s, a.t);
      UntouchedMatches(s, Do(s, a), h);
    } else {
      QuietUntouched(s, a);
      UntouchedMatches(s, Do(s, a), h);
    }
  }

  lemma {:induction false} RunMatches(s: State, actions: seq<Action>, h: History)
    requires Owned(s) && Matches(s, h) && EnabledRun(s, actions)
    ensures Matches(After(s, actions), ApplyAll(h, Trace(s, actions)))
    decreases |actions|
  {
    if actions != [] {
      var a := actions[0];
      StepMatches(s, a, h);
      StepKeepsOwned(s, a);
      RunMatches(Do(s, a), actions[1..], ApplyAll(h, Calls(s, a)));
      ApplyAllConcat(h, Calls(s, a), Trace(Do(s, a), actions[1..]));
    }
  }

  /** Every interleaving leaves the relay in step with the router after the calls the interleaving made. */
  lemma RelayRefinesRouter(actions: seq<Action>)
    requires EnabledRun(EMPTY, actions)
    ensures Matches(After(EMPTY, actions), Replay(Trace(EMPTY, actions)))
  {
    RunMatches(EMPTY, actions, Replay([]));
    ReplayIsApplyAll(Trace(EMPTY, actions));
  }

  /**
   In every interleaving, for each registered client: what flushes have drained for its connection, followed by what is
   still queued, is exactly what was accepted since it registered, as that client sees it, in the order of acceptance.
   */
  lemma RelayDrainsTheLog(actions: seq<Action>, t: nat, c: ClientId)
    requires EnabledRun(EMPTY, actions) && Owns(After(EMPTY, actions), t, c)
    ensures var (s, h) := (After(EMPTY, actions), Replay(Trace(EMPTY, actions)));
            && c in s.outboxes && c in h.began && h.began[c] <= |h.log|
            && Plain(DrainedFor(s.batches, t) + s.outboxes[c]) == View(h.log[h.began[c]..], c)
  {
    RelayRefinesRouter(actions);
    OwnedAlways(EMPTY, actions);
    RouterRefinesLog(Trace(EMPTY, actions));
    var s, h := After(EMPTY, actions), Replay(Trace(EMPTY, actions));
    assert Faithful(h, c);
    PlainConcat(DrainedFor(s.batches, t), s.outboxes[c]);
  }

  /**
   In every interleaving, whatever arrives at a connection is a report of the relay, or an event for that connection's
   client accepted from the connection of the very client it names as its author, or the Ack of an envelope of its own.
   */
  lemma ArrivalsAreGenuine(actions: seq<Action>, t: nat, i: nat)
    requires EnabledRun(EMPTY, actions)
    requires t in After(EMPTY, actions).channels && i < |After(EMPTY, actions).channels[t].items|
    ensures var (s, h) := (After(EMPTY, actions), Replay(Trace(EMPTY, actions)));
            && t in s.tasks
            && var event := s.channels[t].items[i].event;
               event.Error? || HasSource(h.log, s.tasks[t].client, event)
  {
    RelayRefinesRouter(actions);
    OwnedAlways(EMPTY, actions);
    EmptyIsConserved();
    ConservedAlways(EMPTY, actions);
    NothingIsMisdelivered(actions, t, i);
    var s := After(EMPTY, actions);
    var item := s.channels[t].items[i];
    assert IsAt(s, item.n, Arrived(t), i);
    assert Sourced(Replay(Trace(EMPTY, actions)).log, s.log[item.n]);
  }
}
