/** What happens to a drained batch: over every interleaving it reaches its own client's channel as a prefix. */
module RelayBatches {
  import opened Types
  import opened Events
  import opened Relay
  import opened RelayOwnership
  import opened RelayConservation

  /** The batches a task still has to send. */
  function Work(p: Phase): seq<nat> {
    match p
    case Sending(work) => work
    case Evicting(_, _, work) => work
    case _ => []
  }

  /** The items sent so far stand in the channel in their order. */
  predicate PlacedIn(items: seq<Item>, placed: seq<nat>, channel: seq<Item>) {
    && |placed| <= |items|
    && (forall i | 0 <= i < |placed| :: placed[i] < |channel| && channel[placed[i]] == items[i])
    && (forall i, j | 0 <= i < j < |placed| :: placed[i] < placed[j])
  }

  predicate BatchOk(s: State, b: Batch) {
    && b.conn in s.channels && b.conn in s.tasks && s.tasks[b.conn].client == b.client
    && PlacedIn(b.items, b.placed, s.channels[b.conn].items)
    && (b.cut ==> b.conn in s.told)
    && (forall i | 0 <= i < |b.items| :: b.items[i].client == b.client)
  }

  predicate BatchesOk(s: State) {
    forall b | 0 <= b < |s.batches| :: BatchOk(s, s.batches[b])
  }

  /** Queues and channels hold only what was queued for their client. */
  predicate Addressed(s: State) {
    && (forall c, i | c in s.outboxes && 0 <= i < |s.outboxes[c]| :: s.outboxes[c][i].client == c)
    && (forall t, i | t in s.channels && t in s.tasks && 0 <= i < |s.channels[t].items| ::
          s.channels[t].items[i].client == s.tasks[t].client)
  }

  predicate Holds(s: State, t: nat, i: nat, b: nat) {
    t in s.tasks && i < |Work(s.tasks[t].phase)| && Work(s.tasks[t].phase)[i] == b
  }

  ghost predicate Held(s: State, b: nat) {
    exists t: nat, i: nat :: Holds(s, t, i, b)
  }

  predicate Unfinished(b: Batch) {
    !b.cut && |b.placed| < |b.items|
  }

  /** An unfinished batch is held by exactly one flush, once, unless it was cut. */
  ghost predicate WorkOk(s: State) {
    && (forall t: nat, i: nat, b: nat | Holds(s, t, i, b) :: b < |s.batches| && !s.batches[b].cut)
    && (forall t: nat, i: nat, u: nat, j: nat, b: nat | Holds(s, t, i, b) && Holds(s, u, j, b) :: t == u && i == j)
    && (forall b | 0 <= b < |s.batches| && Unfinished(s.batches[b]) :: Held(s, b))
    && (forall t | t in s.tasks && s.tasks[t].phase.Evicting? :: s.tasks[t].phase.conn in s.told)
  }

  ghost predicate Sound(s: State) {
    BatchesOk(s) && Addressed(s) && WorkOk(s)
  }

  // ---------- channels only grow ----------

  /** Batches as they were; channels may only grow, connections may be told to close, tasks keep their client. */
  predicate Grown(s: State, s': State) {
    && s.channels.Keys <= s'.channels.Keys && s.tasks.Keys <= s'.tasks.Keys && s.told <= s'.told
    && (forall t | t in s.channels :: s.channels[t].items <= s'.channels[t].items)
    && (forall t | t in s.tasks :: s'.tasks[t].client == s.tasks[t].client)
  }

  lemma GrownKeepsBatch(s: State, s': State, b: Batch)
    requires Grown(s, s') && BatchOk(s, b)
    ensures BatchOk(s', b)
  {
    var ch, ch' := s.channels[b.conn].items, s'.channels[b.conn].items;
    forall i | 0 <= i < |b.placed|
      ensures b.placed[i] < |ch'| && ch'[b.placed[i]] == b.items[i]
    {
      assert ch[b.placed[i]] == b.items[i];
    }
  }

  lemma GrownKeepsBatches(s: State, s': State)
    requires Grown(s, s') && BatchesOk(s) && s'.batches == s.batches
    ensures BatchesOk(s')
  {
    forall b | 0 <= b < |s'.batches|
      ensures BatchOk(s', s'.batches[b])
    {
      GrownKeepsBatch(s, s', s.batches[b]);
    }
  }

  /** Task `t` may change phase without touching its work list; every other task stays as it is. */
  predicate SameWork(s: State, s': State, t: nat) {
    && t in s'.tasks && s'.tasks == s.tasks[t := s'.tasks[t]]
    && Work(s'.tasks[t].phase) == (if t in s.tasks then Work(s.tasks[t].phase) else [])
    && (s'.tasks[t].phase.Evicting? ==> t in s.tasks && s.tasks[t].phase == s'.tasks[t].phase)
  }

  lemma SameWorkKeeps(s: State, s': State, t: nat)
    requires WorkOk(s) && s'.batches == s.batches && s.told <= s'.told && SameWork(s, s', t)
    ensures WorkOk(s')
  {
    forall u: nat, i: nat, b: nat
      ensures Holds(s', u, i, b) <==> Holds(s, u, i, b)
    {
    }
    forall b | 0 <= b < |s'.batches| && Unfinished(s'.batches[b])
      ensures Held(s', b)
    {
      assert Held(s, b);
      var u: nat, i: nat :| Holds(s, u, i, b);
      assert Holds(s', u, i, b);
    }
  }

  // ---------- steps that leave batches alone ----------

  lemma RegisterGrows(s: State, a: Action)
    requires Owned(s) && Enabled(s, a) && (a.Accept? || a.Join? || a.Publish?)
    ensures Grown(s, Do(s, a)) && Do(s, a).batches == s.batches && SameWork(s, Do(s, a), a.t)
  {
  }

  lemma RouteGrows(s: State, t: nat, event: WireEvent)
    requires Enabled(s, Route(t, event))
    ensures var s' := RouteStep(s, t, event); Grown(s, s') && s'.batches == s.batches && SameWork(s, s', t)
  {
  }

  lemma ReportGrows(s: State, t: nat, message: string)
    requires Enabled(s, Report(t, message))
    ensures var s' := ReportStep(s, t, message); Grown(s, s') && s'.batches == s.batches && SameWork(s, s', t)
  {
  }

  lemma PhaseGrows(s: State, a: Action)
    requires Enabled(s, a) && (a.Evict? || a.End? || a.Withdraw? || a.Disconnect?)
    ensures Grown(s, Do(s, a)) && Do(s, a).batches == s.batches && SameWork(s, Do(s, a), a.t)
  {
    if a.Disconnect? {
      DisconnectGrows(s, a.t);
    }
  }

  lemma DisconnectGrows(s: State, t: nat)
    requires Enabled(s, Disconnect(t))
    ensures var s' := DisconnectStep(s, t); Grown(s, s') && s'.batches == s.batches && SameWork(s, s', t)
  {
  }

  lemma WriterGrows(s: State, a: Action)
    requires Enabled(s, a) && (a.WriterTakes? || a.WriterStops?)
    ensures Grown(s, Do(s, a)) && Do(s, a).batches == s.batches && SameWork(s, Do(s, a), a.t)
  {
    assert s.tasks == s.tasks[a.t := s.tasks[a.t]];
  }

  lemma RouteAddressed(s: State, t: nat, event: WireEvent)
    requires Addressed(s) && t in s.tasks
    ensures Addressed(RouteStep(s, t, event))
  {
  }

  lemma AloneAddressed(s: State, a: Action)
    requires Owned(s) && Addressed(s) && Enabled(s, a) && !a.Flush? && !a.Send?
    ensures Addressed(Do(s, a))
  {
    if a.Route? {
      RouteAddressed(s, a.t, a.event);
    }
  }

  lemma AloneKeepsSound(s: State, a: Action)
    requires Owned(s) && Sound(s) && Enabled(s, a) && !a.Flush? && !a.Send?
    ensures Sound(Do(s, a))
  {
    AloneAddressed(s, a);
    if a.Accept? || a.Join? || a.Publish? {
      RegisterGrows(s, a);
    } else if a.Route? {
      RouteGrows(s, a.t, a.event);
    } else if a.Report? {
      ReportGrows(s, a.t, a.message);
    } else if a.WriterTakes? || a.WriterStops? {
      WriterGrows(s, a);
    } else {
      PhaseGrows(s, a);
    }
    GrownKeepsBatches(s, Do(s, a));
    SameWorkKeeps(s, Do(s, a), a.t);
  }

  // ---------- flushing ----------

  /** Handles point at tasks of the same client. */
  predicate HandlesOk(s: State) {
    forall c | c in s.connections ::
      s.connections[c] in s.tasks && s.connections[c] in s.channels && s.tasks[s.connections[c]].client == c
  }

  lemma DrainOneKeepsBatches(s: State, c: ClientId)
    requires HandlesOk(s) && BatchesOk(s) && Addressed(s)
    ensures var s' := DrainOne(s, c); HandlesOk(s') && BatchesOk(s') && Addressed(s')
  {
    var s' := DrainOne(s, c);
    if s' != s {
      forall b | 0 <= b < |s'.batches|
        ensures BatchOk(s', s'.batches[b])
      {
        if b < |s.batches| {
          GrownKeepsBatch(s, s', s.batches[b]);
        }
      }
    }
  }

  lemma {:induction false} DrainAllKeepsBatches(s: State, targets: seq<ClientId>)
    requires HandlesOk(s) && BatchesOk(s) && Addressed(s)
    ensures var s' := DrainAll(s, targets); BatchesOk(s') && Addressed(s')
    ensures forall b | |s.batches| <= b < |DrainAll(s, targets).batches| :: !DrainAll(s, targets).batches[b].cut
    decreases |targets|
  {
    if targets != [] {
      DrainOneKeepsBatches(s, targets[0]);
      DrainAllKeepsBatches(DrainOne(s, targets[0]), targets[1..]);
    }
  }

  lemma FlushKeepsWork(s: State, t: nat)
    requires WorkOk(s) && Enabled(s, Flush(t))
    requires forall b | |s.batches| <= b < |FlushStep(s, t).batches| :: !FlushStep(s, t).batches[b].cut
    ensures WorkOk(FlushStep(s, t))
  {
    var s' := FlushStep(s, t);
    var lo, hi := |s.batches|, |s'.batches|;
    forall u: nat, i: nat, b: nat | Holds(s', u, i, b)
      ensures if u == t then b == lo + i && lo <= b < hi else Holds(s, u, i, b) && b < lo
    {
      if u != t {
        assert Holds(s, u, i, b);
      }
    }
    forall b | 0 <= b < |s'.batches| && Unfinished(s'.batches[b])
      ensures Held(s', b)
    {
      if b < lo {
        assert s'.batches[b] == s.batches[b];
        assert Held(s, b);
        var u: nat, i: nat :| Holds(s, u, i, b);
        assert Holds(s', u, i, b);
      } else {
        assert Holds(s', t, b - lo, b);
      }
    }
  }

  lemma FlushKeepsSound(s: State, t: nat)
    requires Owned(s) && Sound(s) && Enabled(s, Flush(t))
    ensures Sound(FlushStep(s, t))
  {
    var drained := DrainAll(s, s.tasks[t].phase.targets);
    DrainAllKeepsBatches(s, s.tasks[t].phase.targets);
    GrownKeepsBatches(drained, FlushStep(s, t));
    FlushKeepsWork(s, t);
  }

  // ---------- sending ----------

  /** Task `t` drops the first batch of its work list, which is finished or has just been cut. */
  lemma DropHeadKeepsWork(s: State, s': State, t: nat)
    requires WorkOk(s) && t in s.tasks && t in s'.tasks && s'.tasks == s.tasks[t := s'.tasks[t]]
    requires Work(s.tasks[t].phase) != [] && Work(s'.tasks[t].phase) == Work(s.tasks[t].phase)[1..]
    requires var b := Work(s.tasks[t].phase)[0];
             && b < |s.batches| == |s'.batches| && s'.batches == s.batches[b := s'.batches[b]]
             && !Unfinished(s'.batches[b])
    requires s.told <= s'.told
    requires s'.tasks[t].phase.Evicting? ==> s'.tasks[t].phase.conn in s'.told
    ensures WorkOk(s')
  {
    var head := Work(s.tasks[t].phase)[0];
    assert Holds(s, t, 0, head);
    forall u: nat, i: nat, b: nat | Holds(s', u, i, b)
      ensures Holds(s, u, if u == t then i + 1 else i, b) && b != head
    {
      assert Holds(s, u, if u == t then i + 1 else i, b);
    }
    forall b | 0 <= b < |s'.batches| && Unfinished(s'.batches[b])
      ensures Held(s', b)
    {
      assert Held(s, b);
      var u: nat, i: nat :| Holds(s, u, i, b);
      assert Holds(s', u, if u == t then i - 1 else i, b);
    }
  }

  lemma PlaceKeepsBatches(s: State, s': State, b: nat)
    requires BatchesOk(s) && SendOk(s, b) && |s.batches[b].placed| < |s.batches[b].items|
    requires var batch := s.batches[b];
             s' == PutIn(s, batch.conn, batch.items[|batch.placed|])
                     .(batches := s.batches[b := batch.(placed := batch.placed + [|s.channels[batch.conn].items|])])
    ensures BatchesOk(s')
  {
    assert Grown(s, s');
    forall k | 0 <= k < |s'.batches|
      ensures BatchOk(s', s'.batches[k])
    {
      GrownKeepsBatch(s, s', s.batches[k]);
    }
  }

  /** Tasks as they were, and no batch taken up again. */
  lemma SameTasksKeepWork(s: State, s': State)
    requires WorkOk(s) && s'.tasks == s.tasks && s'.told == s.told && |s'.batches| == |s.batches|
    requires forall k | 0 <= k < |s.batches| ::
               s'.batches[k].cut == s.batches[k].cut && (Unfinished(s'.batches[k]) ==> Unfinished(s.batches[k]))
    ensures WorkOk(s')
  {
    forall u: nat, i: nat, k: nat
      ensures Holds(s', u, i, k) <==> Holds(s, u, i, k)
    {
    }
    forall k | 0 <= k < |s'.batches| && Unfinished(s'.batches[k])
      ensures Held(s', k)
    {
      assert Held(s, k);
      var u: nat, i: nat :| Holds(s, u, i, k);
      assert Holds(s', u, i, k);
    }
  }

  lemma PlaceKeepsSound(s: State, s': State, b: nat)
    requires Sound(s) && SendOk(s, b) && |s.batches[b].placed| < |s.batches[b].items|
    requires var batch := s.batches[b];
             s' == PutIn(s, batch.conn, batch.items[|batch.placed|])
                     .(batches := s.batches[b := batch.(placed := batch.placed + [|s.channels[batch.conn].items|])])
    ensures Sound(s')
  {
    PlaceKeepsBatches(s, s', b);
    SameTasksKeepWork(s, s');
    assert BatchOk(s, s.batches[b]);
  }

  lemma CutKeepsSound(s: State, s': State, t: nat, b: nat)
    requires Sound(s) && SendOk(s, b) && t in s.tasks
    requires Work(s.tasks[t].phase) != [] && Work(s.tasks[t].phase)[0] == b
    requires var batch := s.batches[b];
             s' == In(s.(told := s.told + {batch.conn}, batches := s.batches[b := batch.(cut := true)]),
                      t, Evicting(batch.client, batch.conn, Work(s.tasks[t].phase)[1..]))
    ensures Sound(s')
  {
    assert Grown(s, s');
    forall k | 0 <= k < |s'.batches|
      ensures BatchOk(s', s'.batches[k])
    {
      GrownKeepsBatch(s, s', s.batches[k]);
    }
    DropHeadKeepsWork(s, s', t);
  }

  lemma RestKeepsSound(s: State, s': State, t: nat, phase: Phase)
    requires Sound(s) && t in s.tasks && Work(s.tasks[t].phase) == Work(phase) == [] && !phase.Evicting?
    requires s' == In(s, t, phase)
    ensures Sound(s')
  {
    GrownKeepsBatches(s, s');
    SameWorkKeeps(s, s', t);
  }

  lemma NextBatchKeepsSound(s: State, t: nat)
    requires Sound(s) && t in s.tasks && s.tasks[t].phase.Sending? && s.tasks[t].phase.work != []
    requires s.tasks[t].phase.work[0] < |s.batches| && !Unfinished(s.batches[s.tasks[t].phase.work[0]])
    ensures Sound(In(s, t, Sending(s.tasks[t].phase.work[1..])))
  {
    var s' := In(s, t, Sending(s.tasks[t].phase.work[1..]));
    GrownKeepsBatches(s, s');
    DropHeadKeepsWork(s, s', t);
  }

  lemma SendKeepsSound(s: State, t: nat)
    requires Owned(s) && Sound(s) && Enabled(s, Send(t))
    ensures Sound(SendStep(s, t))
  {
    var s', work := SendStep(s, t), s.tasks[t].phase.work;
    if work == [] {
      RestKeepsSound(s, s', t, Serving);
    } else {
      var b := work[0];
      var batch := s.batches[b];
      if |batch.placed| == |batch.items| {
        NextBatchKeepsSound(s, t);
      } else if HasRoom(s.channels[batch.conn]) {
        PlaceKeepsSound(s, s', b);
      } else {
        CutKeepsSound(s, s', t, b);
      }
    }
  }

  lemma StepKeepsSound(s: State, a: Action)
    requires Owned(s) && Sound(s) && Enabled(s, a)
    ensures Sound(Do(s, a))
  {
    if a.Flush? {
      FlushKeepsSound(s, a.t);
    } else if a.Send? {
      SendKeepsSound(s, a.t);
    } else {
      AloneKeepsSound(s, a);
    }
  }

  lemma {:induction false} SoundAlways(s: State, actions: seq<Action>)
    requires Owned(s) && Sound(s) && EnabledRun(s, actions)
    ensures Sound(After(s, actions)) && Owned(After(s, actions))
    decreases |actions|
  {
    if actions != [] {
      StepKeepsSound(s, actions[0]);
      StepKeepsOwned(s, actions[0]);
      SoundAlways(Do(s, actions[0]), actions[1..]);
    }
  }

  // ---------- the theorems ----------

  /** Exactly one flush holds batch `b`, at one position of its work list. */
  ghost predicate HeldOnce(s: State, b: nat) {
    exists t: nat, i: nat :: Holds(s, t, i, b) && forall u: nat, j: nat | Holds(s, u, j, b) :: t == u && i == j
  }

  /** Where a queued instance is, with what its place implies. */
  ghost predicate Accounted(s: State, p: Place) {
    match p
    case Outbox(c) => c in s.outboxes
    case Arrived(t) => t in s.channels
    case Unsent(b) => b < |s.batches| && (if s.batches[b].cut then s.batches[b].conn in s.told else HeldOnce(s, b))
    case Removed => true
  }

  lemma UnsentIsHeldOnce(s: State, b: nat)
    requires WorkOk(s) && b < |s.batches| && Unfinished(s.batches[b])
    ensures HeldOnce(s, b)
  {
    assert Held(s, b);
    var t: nat, i: nat :| Holds(s, t, i, b);
    assert forall u: nat, j: nat | Holds(s, u, j, b) :: t == u && i == j;
  }

  /**
   In every interleaving each instance ever queued is in exactly one place, unaltered: its client's outbox, a batch
   exactly one flush holds, a batch cut with a connection told to close, the channel it was drained for, or an outbox
   removed with its client.
   */
  lemma EachInstanceInOnePlace(actions: seq<Action>, n: nat)
    requires EnabledRun(EMPTY, actions) && n < |After(EMPTY, actions).log|
    ensures var s := After(EMPTY, actions);
            exists p, i: nat ::
              && IsAt(s, n, p, i) && At(s, p)[i] == s.log[n] && Accounted(s, p)
              && forall q, j: nat | IsAt(s, n, q, j) :: p == q && i == j
  {
    OwnedAlways(EMPTY, actions);
    EmptyIsConserved();
    ConservedAlways(EMPTY, actions);
    SoundAlways(EMPTY, actions);
    var s := After(EMPTY, actions);
    assert Somewhere(s, n);
    var p, i: nat :| IsAt(s, n, p, i);
    if p.Unsent? && !s.batches[p.b].cut {
      UnsentIsHeldOnce(s, p.b);
    }
    assert Accounted(s, p);
    assert forall q, j: nat | IsAt(s, n, q, j) :: p == q && i == j;
  }

  lemma LogGrows(s: State, a: Action)
    requires Enabled(s, a)
    ensures s.log <= Do(s, a).log
  {
  }

  /** What was queued as number `n` stays number `n`. */
  lemma {:induction false} NumbersAreKept(s: State, actions: seq<Action>)
    requires EnabledRun(s, actions)
    ensures s.log <= After(s, actions).log
    decreases |actions|
  {
    if actions != [] {
      LogGrows(s, actions[0]);
      NumbersAreKept(Do(s, actions[0]), actions[1..]);
    }
  }

  lemma EmptyIsConserved()
    ensures Conserved(EMPTY)
  {
  }

  /**
   In every interleaving the sent part of each batch is a prefix of it and stands in order in the channel of a
   connection of the client it was queued for; the unsent part is in no channel; only a told connection loses items.
   */
  lemma BatchesArriveAsPrefixes(actions: seq<Action>, b: nat)
    requires EnabledRun(EMPTY, actions) && b < |After(EMPTY, actions).batches|
    ensures var s := After(EMPTY, actions);
            var batch := s.batches[b];
            && batch.conn in s.channels && batch.conn in s.tasks && s.tasks[batch.conn].client == batch.client
            && PlacedIn(batch.items, batch.placed, s.channels[batch.conn].items)
            && (forall i, t, j: nat | |batch.placed| <= i < |batch.items|
                                      && t in s.channels && j < |s.channels[t].items| ::
                  s.channels[t].items[j].n != batch.items[i].n)
            && (batch.cut ==> batch.conn in s.told)
            && (!batch.cut && |batch.placed| < |batch.items| ==> Held(s, b))
  {
    OwnedAlways(EMPTY, actions);
    EmptyIsConserved();
    ConservedAlways(EMPTY, actions);
    SoundAlways(EMPTY, actions);
    var s := After(EMPTY, actions);
    var batch := s.batches[b];
    forall i, t, j: nat | |batch.placed| <= i < |batch.items| && t in s.channels && j < |s.channels[t].items|
      ensures s.channels[t].items[j].n != batch.items[i].n
    {
      assert IsAt(s, batch.items[i].n, Unsent(b), i - |batch.placed|);
      assert IsAt(s, s.channels[t].items[j].n, Arrived(t), j);
    }
  }

  /** In every interleaving a channel holds only what was queued for the client of its connection. */
  lemma NothingIsMisdelivered(actions: seq<Action>, t: nat, i: nat)
    requires EnabledRun(EMPTY, actions)
    requires t in After(EMPTY, actions).channels && i < |After(EMPTY, actions).channels[t].items|
    ensures t in After(EMPTY, actions).tasks
    ensures After(EMPTY, actions).channels[t].items[i].client == After(EMPTY, actions).tasks[t].client
  {
    SoundAlways(EMPTY, actions);
  }

  /** A task that is sending can always take its next step. */
  lemma SendingNeverBlocks(actions: seq<Action>, t: nat)
    requires EnabledRun(EMPTY, actions)
    requires t in After(EMPTY, actions).tasks && After(EMPTY, actions).tasks[t].phase.Sending?
    ensures Enabled(After(EMPTY, actions), Send(t))
  {
    SoundAlways(EMPTY, actions);
    var s := After(EMPTY, actions);
    var work := s.tasks[t].phase.work;
    if work != [] {
      assert Holds(s, t, 0, work[0]);
      assert BatchOk(s, s.batches[work[0]]);
    }
  }
}
