/** Where every queued instance is: over every interleaving, in exactly one place, and never duplicated. */
module RelayConservation {
  import opened Types
  import opened Events
  import opened Router
  import opened Relay
  import opened RelayOwnership

  /** The places an instance can be. */
  datatype Place =
    | Outbox(client: ClientId)   // queued in the router
    | Unsent(b: nat)             // drained by a flush, not in a channel: still held, or dropped if the batch was cut
    | Arrived(conn: nat)         // put into the channel of a connection
    | Removed                    // dropped with its outbox when the client left

  function At(s: State, p: Place): seq<Item> {
    match p
    case Outbox(c) => if c in s.outboxes then s.outboxes[c] else []
    case Unsent(b) => if b < |s.batches| then Rest(s.batches[b]) else []
    case Arrived(t) => if t in s.channels then s.channels[t].items else []
    case Removed => s.removed
  }

  function Rest(b: Batch): seq<Item> {
    if |b.placed| <= |b.items| then b.items[|b.placed|..] else []
  }

  predicate IsAt(s: State, n: nat, p: Place, i: nat) {
    i < |At(s, p)| && At(s, p)[i].n == n
  }

  ghost predicate Somewhere(s: State, n: nat) {
    exists p, i: nat :: IsAt(s, n, p, i)
  }

  ghost predicate Unique(s: State) {
    forall n: nat, p, i: nat, q, j: nat | IsAt(s, n, p, i) && IsAt(s, n, q, j) :: p == q && i == j
  }

  /** Whatever is found under number `n` is the instance that was queued as number `n`. */
  ghost predicate Genuine(s: State) {
    forall n: nat, p, i: nat | IsAt(s, n, p, i) :: n < |s.log| && At(s, p)[i] == s.log[n]
  }

  /** Every instance ever queued is in exactly one place, at one position, unaltered; none is doubled or invented. */
  ghost predicate Conserved(s: State) {
    && Genuine(s)
    && Unique(s)
    && (forall n: nat | n < |s.log| :: Somewhere(s, n))
  }

  // ---------- the three ways instances move ----------

  ghost predicate Unmoved(s: State, s': State) {
    s'.log == s.log && forall p :: At(s', p) == At(s, p)
  }

  /** The first `k` items of `p` go to the end of `q`. */
  ghost predicate Moved(s: State, s': State, p: Place, q: Place, k: nat) {
    && p != q && s'.log == s.log && k <= |At(s, p)|
    && At(s', p) == At(s, p)[k..]
    && At(s', q) == At(s, q) + At(s, p)[..k]
    && forall r | r != p && r != q :: At(s', r) == At(s, r)
  }

  /** A new instance appears at the end of `q`. */
  ghost predicate Added(s: State, s': State, q: Place, item: Item) {
    && item.n == |s.log| && s'.log == s.log + [item]
    && At(s', q) == At(s, q) + [item]
    && forall r | r != q :: At(s', r) == At(s, r)
  }

  lemma UnmovedKeeps(s: State, s': State)
    requires Conserved(s) && Unmoved(s, s')
    ensures Conserved(s')
  {
    forall n: nat, p, i: nat
      ensures IsAt(s', n, p, i) == IsAt(s, n, p, i)
    {
    }
    forall n: nat | n < |s'.log|
      ensures Somewhere(s', n)
    {
      assert Somewhere(s, n);
      var p, i: nat :| IsAt(s, n, p, i);
      assert IsAt(s', n, p, i);
    }
  }

  /** Where the item now at (r, i) was before a move. */
  function Origin(s: State, p: Place, q: Place, k: nat, r: Place, i: nat): (Place, nat) {
    if r == p then (p, i + k)
    else if r == q && i >= |At(s, q)| then (p, i - |At(s, q)|)
    else (r, i)
  }

  lemma MovedBackFromSource(s: State, s': State, p: Place, q: Place, k: nat, i: nat)
    requires Moved(s, s', p, q, k) && i < |At(s', p)|
    ensures i + k < |At(s, p)| && At(s', p)[i] == At(s, p)[i + k]
  {
  }

  lemma MovedBackFromTarget(s: State, s': State, p: Place, q: Place, k: nat, i: nat)
    requires Moved(s, s', p, q, k) && i < |At(s', q)|
    ensures if i < |At(s, q)| then At(s', q)[i] == At(s, q)[i]
            else i - |At(s, q)| < k <= |At(s, p)| && At(s', q)[i] == At(s, p)[i - |At(s, q)|]
  {
  }

  lemma MovedBack(s: State, s': State, p: Place, q: Place, k: nat, n: nat, r: Place, i: nat)
    requires Moved(s, s', p, q, k) && IsAt(s', n, r, i)
    ensures var o := Origin(s, p, q, k, r, i); IsAt(s, n, o.0, o.1) && At(s, o.0)[o.1] == At(s', r)[i]
  {
    if r == p {
      MovedBackFromSource(s, s', p, q, k, i);
    } else if r == q {
      MovedBackFromTarget(s, s', p, q, k, i);
    } else {
      assert At(s', r) == At(s, r);
    }
  }

  lemma MovedForward(s: State, s': State, p: Place, q: Place, k: nat, n: nat)
    requires Moved(s, s', p, q, k) && Somewhere(s, n)
    ensures Somewhere(s', n)
  {
    var r, i: nat :| IsAt(s, n, r, i);
    if r == p && i < k {
      assert IsAt(s', n, q, |At(s, q)| + i);
    } else if r == p {
      assert IsAt(s', n, p, i - k);
    } else {
      assert IsAt(s', n, r, i);
    }
  }

  lemma OriginInjective(s: State, p: Place, q: Place, k: nat, r: Place, i: nat, r': Place, j: nat)
    requires p != q && (r == q ==> i < |At(s, q)| + k) && (r' == q ==> j < |At(s, q)| + k)
    requires Origin(s, p, q, k, r, i) == Origin(s, p, q, k, r', j)
    ensures r == r' && i == j
  {
  }

  lemma MovedUnique(s: State, s': State, p: Place, q: Place, k: nat)
    requires Unique(s) && Moved(s, s', p, q, k)
    ensures Unique(s')
  {
    forall n: nat, r, i: nat, r', j: nat | IsAt(s', n, r, i) && IsAt(s', n, r', j)
      ensures r == r' && i == j
    {
      MovedBack(s, s', p, q, k, n, r, i);
      MovedBack(s, s', p, q, k, n, r', j);
      OriginInjective(s, p, q, k, r, i, r', j);
    }
  }

  lemma MovedKeeps(s: State, s': State, p: Place, q: Place, k: nat)
    requires Conserved(s) && Moved(s, s', p, q, k)
    ensures Conserved(s')
  {
    MovedUnique(s, s', p, q, k);
    forall n: nat, r, i: nat | IsAt(s', n, r, i)
      ensures n < |s'.log| && At(s', r)[i] == s'.log[n]
    {
      MovedBack(s, s', p, q, k, n, r, i);
    }
    forall n: nat | n < |s'.log|
      ensures Somewhere(s', n)
    {
      MovedForward(s, s', p, q, k, n);
    }
  }

  lemma AddedBack(s: State, s': State, q: Place, item: Item, n: nat, r: Place, i: nat)
    requires Added(s, s', q, item) && IsAt(s', n, r, i)
    ensures if r == q && i == |At(s, q)| then n == |s.log| && At(s', r)[i] == item
            else IsAt(s, n, r, i) && At(s', r)[i] == At(s, r)[i]
  {
    if r != q {
      assert At(s', r) == At(s, r);
    }
  }

  lemma AddedKeeps(s: State, s': State, q: Place, item: Item)
    requires Conserved(s) && Added(s, s', q, item)
    ensures Conserved(s')
  {
    forall n: nat, r, i: nat | IsAt(s', n, r, i)
      ensures if r == q && i == |At(s, q)| then n == |s.log| && At(s', r)[i] == item
              else IsAt(s, n, r, i) && n < |s.log| && At(s', r)[i] == s.log[n]
    {
      AddedBack(s, s', q, item, n, r, i);
    }
    forall n: nat | n < |s'.log|
      ensures Somewhere(s', n)
    {
      if n == |s.log| {
        assert IsAt(s', n, q, |At(s, q)|);
      } else {
        assert Somewhere(s, n);
        var r, i: nat :| IsAt(s, n, r, i);
        assert IsAt(s', n, r, i);
      }
    }
  }

  // ---------- every step conserves ----------

  /** A new instance of `event` at the end of the outbox of `client`. */
  function Queue(s: State, client: ClientId, event: WireEvent): State
    requires client in s.outboxes
  {
    var item := Item(|s.log|, event, client);
    s.(outboxes := Push(s.outboxes, client, item), log := s.log + [item])
  }

  lemma QueueKeeps(s: State, client: ClientId, event: WireEvent)
    requires Conserved(s) && client in s.outboxes
    ensures Conserved(Queue(s, client, event))
  {
    var s' := Queue(s, client, event);
    assert forall r | r != Outbox(client) :: At(s', r) == At(s, r);
    AddedKeeps(s, s', Outbox(client), Item(|s.log|, event, client));
  }

  lemma RouteKeeps(s: State, t: nat, event: WireEvent)
    requires Conserved(s) && t in s.tasks
    ensures Conserved(RouteStep(s, t, event))
  {
    var s', client := RouteStep(s, t, event), s.tasks[t].client;
    var verdict := Verdict(s.outboxes.Keys, client, event);
    if verdict.Ok? {
      QueueKeeps(s, verdict.value, event);
      var s1 := Queue(s, verdict.value, event);
      if AckFor(event).Some? {
        QueueKeeps(s1, client, AckFor(event).value);
        UnmovedKeeps(Queue(s1, client, AckFor(event).value), s');
      } else {
        UnmovedKeeps(s1, s');
      }
    } else {
      UnmovedKeeps(s, s');
    }
  }

  lemma ReportKeeps(s: State, t: nat, message: string)
    requires Conserved(s) && Enabled(s, Report(t, message))
    ensures Conserved(ReportStep(s, t, message))
  {
    var s' := ReportStep(s, t, message);
    var Refused(event, error) := s.tasks[t].phase;
    if ShouldReport(event, error) && HasRoom(s.channels[t]) {
      assert forall r | r != Arrived(t) :: At(s', r) == At(s, r);
      AddedKeeps(s, s', Arrived(t), Item(|s.log|, Error(CodeOf(error), message), s.tasks[t].client));
    } else {
      UnmovedKeeps(s, s');
    }
  }

  lemma DrainOneKeeps(s: State, c: ClientId)
    requires Conserved(s)
    ensures Conserved(DrainOne(s, c))
  {
    var s' := DrainOne(s, c);
    if s' != s {
      var b := |s.batches|;
      assert s'.batches[b] == Batch(s.connections[c], c, s.outboxes[c], [], false);
      assert At(s', Unsent(b)) == At(s, Outbox(c));
      assert forall r | r != Outbox(c) && r != Unsent(b) :: At(s', r) == At(s, r);
      MovedKeeps(s, s', Outbox(c), Unsent(b), |At(s, Outbox(c))|);
    }
  }

  lemma {:induction false} DrainAllKeeps(s: State, targets: seq<ClientId>)
    requires Conserved(s)
    ensures Conserved(DrainAll(s, targets))
    decreases |targets|
  {
    if targets != [] {
      DrainOneKeeps(s, targets[0]);
      DrainAllKeeps(DrainOne(s, targets[0]), targets[1..]);
    }
  }

  lemma FlushKeeps(s: State, t: nat)
    requires Conserved(s) && Enabled(s, Flush(t))
    ensures Conserved(FlushStep(s, t))
  {
    var drained := DrainAll(s, s.tasks[t].phase.targets);
    DrainAllKeeps(s, s.tasks[t].phase.targets);
    UnmovedKeeps(drained, FlushStep(s, t));
  }

  lemma SendKeeps(s: State, t: nat)
    requires Conserved(s) && Enabled(s, Send(t))
    ensures Conserved(SendStep(s, t))
  {
    var s', work := SendStep(s, t), s.tasks[t].phase.work;
    if work == [] || |s.batches[work[0]].placed| == |s.batches[work[0]].items| {
      UnmovedKeeps(s, s');
    } else {
      var b := work[0];
      var batch := s.batches[b];
      if HasRoom(s.channels[batch.conn]) {
        PlaceNext(s, s', b);
      } else {
        assert Rest(s'.batches[b]) == Rest(batch);
        UnmovedKeeps(s, s');
      }
    }
  }

  lemma PlaceNext(s: State, s': State, b: nat)
    requires Conserved(s) && SendOk(s, b) && |s.batches[b].placed| < |s.batches[b].items|
    requires var batch := s.batches[b];
             s' == PutIn(s, batch.conn, batch.items[|batch.placed|])
                     .(batches := s.batches[b := batch.(placed := batch.placed + [|s.channels[batch.conn].items|])])
    ensures Conserved(s')
  {
    var conn := s.batches[b].conn;
    assert At(s, Unsent(b))[..1] == [s.batches[b].items[|s.batches[b].placed|]];
    assert forall r | r != Unsent(b) && r != Arrived(conn) :: At(s', r) == At(s, r);
    MovedKeeps(s, s', Unsent(b), Arrived(conn), 1);
  }

  lemma DisconnectKeeps(s: State, t: nat)
    requires Conserved(s) && t in s.tasks
    ensures Conserved(DisconnectStep(s, t))
  {
    var s', p := DisconnectStep(s, t), Outbox(s.tasks[t].client);
    assert At(s, p)[..|At(s, p)|] == At(s, p);
    assert forall r | r != p && r != Removed :: At(s', r) == At(s, r);
    MovedKeeps(s, s', p, Removed, |At(s, p)|);
  }

  lemma StepKeepsConserved(s: State, a: Action)
    requires Conserved(s) && Owned(s) && Enabled(s, a)
    ensures Conserved(Do(s, a))
  {
    match a
    case Route(t, event) => RouteKeeps(s, t, event);
    case Report(t, message) => ReportKeeps(s, t, message);
    case Flush(t) => FlushKeeps(s, t);
    case Send(t) => SendKeeps(s, t);
    case Disconnect(t) => DisconnectKeeps(s, t);
    case _ => UnmovedKeeps(s, Do(s, a));
  }

  lemma {:induction false} ConservedAlways(s: State, actions: seq<Action>)
    requires Conserved(s) && Owned(s) && EnabledRun(s, actions)
    ensures Conserved(After(s, actions))
    decreases |actions|
  {
    if actions != [] {
      StepKeepsConserved(s, actions[0]);
      StepKeepsOwned(s, actions[0]);
      ConservedAlways(Do(s, actions[0]), actions[1..]);
    }
  }
}
