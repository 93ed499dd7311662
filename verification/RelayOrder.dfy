/** When channels keep the order of acceptance, and how much they hold. */
module RelayOrder {
  import opened Types
  import opened Events
  import opened Router
  import opened Relay
  import opened RelayOwnership
  import opened RelayConservation
  import opened RelayBatches

  /** Routed items with increasing serial numbers. */
  predicate Sorted(items: seq<Item>) {
    && (forall i | 0 <= i < |items| :: !items[i].event.Error?)
    && (forall i, j | 0 <= i < j < |items| :: items[i].n < items[j].n)
  }

  /** Every routed item of `p` was accepted before every item of `q`; reports to the sender itself do not count. */
  predicate Older(p: seq<Item>, q: seq<Item>) {
    forall i, j | 0 <= i < |p| && 0 <= j < |q| && !p[i].event.Error? :: p[i].n < q[j].n
  }

  /** The routed items of a channel stand in the order in which they were accepted. */
  predicate InAcceptanceOrder(items: seq<Item>) {
    forall i, j | 0 <= i < j < |items| && !items[i].event.Error? && !items[j].event.Error? :: items[i].n < items[j].n
  }

  predicate QueuesSorted(s: State) {
    && (forall c | c in s.outboxes :: Sorted(s.outboxes[c]))
    && (forall b | 0 <= b < |s.batches| :: Sorted(Rest(s.batches[b])))
  }

  /** What left an outbox is older than what is in it now. */
  predicate OutboxesYoungest(s: State) {
    && (forall b | 0 <= b < |s.batches| && s.batches[b].client in s.outboxes ::
          Older(Rest(s.batches[b]), s.outboxes[s.batches[b].client]))
    && (forall t | t in s.channels && t in s.tasks && s.tasks[t].client in s.outboxes ::
          Older(s.channels[t].items, s.outboxes[s.tasks[t].client]))
  }

  /** A channel is in order and older than what a flush still holds for it. */
  predicate ChannelsInOrder(s: State) {
    && (forall t | t in s.channels :: InAcceptanceOrder(s.channels[t].items))
    && (forall b | 0 <= b < |s.batches| && Unfinished(s.batches[b]) && s.batches[b].conn in s.channels ::
          Older(s.channels[s.batches[b].conn].items, Rest(s.batches[b])))
  }

  predicate Reading(s: State, conn: nat) {
    conn in s.channels && s.channels[conn].reading
  }

  /** Of two batches still being sent to one connection, nothing can arrive any more: it has stopped reading. */
  predicate Exclusive(s: State) {
    forall b, k | 0 <= b < k < |s.batches| && Unfinished(s.batches[b]) && Unfinished(s.batches[k])
                  && s.batches[b].conn == s.batches[k].conn ::
      s.batches[b].conn in s.channels && !Reading(s, s.batches[b].conn)
  }

  predicate Lined(s: State) {
    QueuesSorted(s) && OutboxesYoungest(s) && ChannelsInOrder(s) && Exclusive(s)
  }

  ghost predicate Inv(s: State) {
    Owned(s) && Conserved(s) && Sound(s)
  }

  lemma StepKeepsInv(s: State, a: Action)
    requires Inv(s) && Enabled(s, a)
    ensures Inv(Do(s, a))
  {
    StepKeepsOwned(s, a);
    StepKeepsConserved(s, a);
    StepKeepsSound(s, a);
  }

  // ---------- steps that move nothing ----------

  /** Queues may come or go empty; batches and channel contents stay; no connection starts reading again. */
  predicate Still(s: State, s': State) {
    && (forall t | t in s.channels :: t in s'.channels && (Reading(s', t) ==> Reading(s, t)))
    && s'.batches == s.batches
    && (forall c | c in s'.outboxes :: s'.outboxes[c] == [] || (c in s.outboxes && s'.outboxes[c] == s.outboxes[c]))
    && (forall t | t in s'.channels ::
          s'.channels[t].items == [] || (t in s.channels && s'.channels[t].items == s.channels[t].items))
    && (forall t | t in s'.channels && t in s'.tasks && s'.channels[t].items != [] ::
          t in s.tasks && s'.tasks[t].client == s.tasks[t].client)
  }

  lemma StillKeepsLined(s: State, s': State)
    requires Lined(s) && Still(s, s')
    ensures Lined(s')
  {
  }

  lemma OtherStepsAreStill(s: State, a: Action)
    requires Owned(s) && Enabled(s, a) && !a.Route? && !a.Report? && !a.Flush? && !a.Send?
    ensures Still(s, Do(s, a))
  {
  }

  // ---------- routing and reporting ----------

  lemma NumbersBelowNext(s: State)
    requires Conserved(s)
    ensures forall c, i | c in s.outboxes && 0 <= i < |s.outboxes[c]| :: s.outboxes[c][i].n < |s.log|
    ensures forall b, i | 0 <= b < |s.batches| && 0 <= i < |Rest(s.batches[b])| :: Rest(s.batches[b])[i].n < |s.log|
    ensures forall t, i | t in s.channels && 0 <= i < |s.channels[t].items| :: s.channels[t].items[i].n < |s.log|
  {
    forall c, i | c in s.outboxes && 0 <= i < |s.outboxes[c]|
      ensures s.outboxes[c][i].n < |s.log|
    {
      assert IsAt(s, s.outboxes[c][i].n, Outbox(c), i);
    }
    forall b, i | 0 <= b < |s.batches| && 0 <= i < |Rest(s.batches[b])|
      ensures Rest(s.batches[b])[i].n < |s.log|
    {
      assert IsAt(s, Rest(s.batches[b])[i].n, Unsent(b), i);
    }
    forall t, i | t in s.channels && 0 <= i < |s.channels[t].items|
      ensures s.channels[t].items[i].n < |s.log|
    {
      assert IsAt(s, s.channels[t].items[i].n, Arrived(t), i);
    }
  }

  /** The youngest item of all goes to the end of an outbox. */
  lemma QueueKeepsLined(s: State, c: ClientId, event: WireEvent)
    requires Lined(s) && Conserved(s) && c in s.outboxes && !event.Error?
    ensures Lined(Queue(s, c, event))
  {
    NumbersBelowNext(s);
  }

  /** Routing queues the event for its recipient and then the Ack for the sender, and moves nothing else. */
  lemma RouteQueues(s: State, t: nat, event: WireEvent)
    requires t in s.tasks
    ensures var client := s.tasks[t].client;
            var verdict := Verdict(s.outboxes.Keys, client, event);
            if verdict.Err? then Still(s, RouteStep(s, t, event))
            else
              && verdict.value in s.outboxes && client in s.outboxes && !event.Error?
              && (var s1 := Queue(s, verdict.value, event);
                  if AckFor(event).Some? then
                    && !AckFor(event).value.Error?
                    && Still(Queue(s1, client, AckFor(event).value), RouteStep(s, t, event))
                  else Still(s1, RouteStep(s, t, event)))
  {
  }

  lemma RouteKeepsLined(s: State, t: nat, event: WireEvent)
    requires Lined(s) && Conserved(s) && t in s.tasks
    ensures Lined(RouteStep(s, t, event))
  {
    var s', client := RouteStep(s, t, event), s.tasks[t].client;
    var verdict := Verdict(s.outboxes.Keys, client, event);
    RouteQueues(s, t, event);
    if verdict.Err? {
      StillKeepsLined(s, s');
    } else {
      var s1 := Queue(s, verdict.value, event);
      QueueKeepsLined(s, verdict.value, event);
      if AckFor(event).Some? {
        QueueKeeps(s, verdict.value, event);
        QueueKeepsLined(s1, client, AckFor(event).value);
        StillKeepsLined(Queue(s1, client, AckFor(event).value), s');
      } else {
        StillKeepsLined(s1, s');
      }
    }
  }

  /** A report changes no outbox, no batch and no channel but the end of the sender's own. */
  lemma ReportShape(s: State, t: nat, message: string)
    requires Enabled(s, Report(t, message))
    ensures var s' := ReportStep(s, t, message);
            && s'.outboxes == s.outboxes && s'.batches == s.batches && s'.channels.Keys == s.channels.Keys
            && s'.tasks.Keys == s.tasks.Keys && (forall u | u in s.tasks :: s'.tasks[u].client == s.tasks[u].client)
            && (forall u | u in s.channels ::
                  Reading(s', u) == Reading(s, u) && OnlyReported(s.channels[u], s'.channels[u]))
  {
  }

  /** Nothing routed has arrived since: the channel took at most reports to its own client. */
  predicate OnlyReported(ch: Channel, ch': Channel) {
    && ch.items <= ch'.items
    && forall i | |ch.items| <= i < |ch'.items| :: ch'.items[i].event.Error?
  }

  lemma ReportKeepsLined(s: State, t: nat, message: string)
    requires Lined(s) && Enabled(s, Report(t, message))
    ensures Lined(ReportStep(s, t, message))
  {
    ReportShape(s, t, message);
    var s' := ReportStep(s, t, message);
    forall u, q | u in s.channels && Older(s.channels[u].items, q)
      ensures Older(s'.channels[u].items, q)
    {
      ReportedKeepsOlder(s.channels[u], s'.channels[u], q);
    }
    assert forall u | u in s.channels :: InAcceptanceOrder(s.channels[u].items);
  }

  lemma ReportedKeepsOlder(ch: Channel, ch': Channel, q: seq<Item>)
    requires OnlyReported(ch, ch') && Older(ch.items, q)
    ensures Older(ch'.items, q)
  {
    assert forall i | 0 <= i < |ch.items| :: ch'.items[i] == ch.items[i];
  }

  // ---------- sending ----------

  /** The next item of batch `b` went to the end of its channel. */
  ghost predicate Moved(s: State, s': State, b: nat) {
    && SendOk(s, b) && Unfinished(s.batches[b])
    && s'.outboxes == s.outboxes && s'.tasks == s.tasks && s'.channels.Keys == s.channels.Keys
    && (var conn := s.batches[b].conn;
        && s.channels[conn].reading && s'.channels[conn].reading
        && s'.channels[conn].items == s.channels[conn].items + [Rest(s.batches[b])[0]]
        && (forall t | t in s.channels && t != conn :: s'.channels[t] == s.channels[t]))
    && |s'.batches| == |s.batches|
    && (forall k | 0 <= k < |s.batches| && k != b :: s'.batches[k] == s.batches[k])
    && s'.batches[b].conn == s.batches[b].conn && s'.batches[b].client == s.batches[b].client
    && Rest(s'.batches[b]) == Rest(s.batches[b])[1..]
  }

  lemma MovedKeepsOutboxesYoungest(s: State, s': State, b: nat)
    requires Moved(s, s', b) && OutboxesYoungest(s) && BatchesOk(s)
    ensures OutboxesYoungest(s')
  {
    assert BatchOk(s, s.batches[b]);
  }

  lemma MovedKeepsChannelsInOrder(s: State, s': State, b: nat)
    requires Moved(s, s', b) && QueuesSorted(s) && ChannelsInOrder(s) && Exclusive(s) && Unfinished(s.batches[b])
    requires forall k | 0 <= k < |s'.batches| && Unfinished(s'.batches[k]) :: Unfinished(s.batches[k])
    ensures ChannelsInOrder(s')
  {
    var conn := s.batches[b].conn;
    forall k | 0 <= k < |s'.batches| && Unfinished(s'.batches[k]) && s'.batches[k].conn in s'.channels
      ensures Older(s'.channels[s'.batches[k].conn].items, Rest(s'.batches[k]))
    {
      if k != b {
        assert s.batches[k].conn != conn;
      }
    }
  }

  lemma PlaceMoves(s: State, s': State, b: nat)
    requires SendOk(s, b) && Unfinished(s.batches[b]) && HasRoom(s.channels[s.batches[b].conn])
    requires var batch := s.batches[b];
             s' == PutIn(s, batch.conn, batch.items[|batch.placed|])
                     .(batches := s.batches[b := batch.(placed := batch.placed + [|s.channels[batch.conn].items|])])
    ensures Moved(s, s', b)
    ensures forall k | 0 <= k < |s'.batches| && Unfinished(s'.batches[k]) :: Unfinished(s.batches[k])
  {
    assert Rest(s'.batches[b]) == Rest(s.batches[b])[1..];
  }

  lemma MovedKeepsQueuesSorted(s: State, s': State, b: nat)
    requires Moved(s, s', b) && QueuesSorted(s)
    ensures QueuesSorted(s')
  {
    forall k | 0 <= k < |s'.batches|
      ensures Sorted(Rest(s'.batches[k]))
    {
      assert Sorted(Rest(s.batches[k]));
    }
  }

  lemma MovedKeepsExclusive(s: State, s': State, b: nat)
    requires Moved(s, s', b) && Exclusive(s)
    requires forall k | 0 <= k < |s'.batches| && Unfinished(s'.batches[k]) :: Unfinished(s.batches[k])
    ensures Exclusive(s')
  {
    forall j, k | 0 <= j < k < |s'.batches| && Unfinished(s'.batches[j]) && Unfinished(s'.batches[k])
                  && s'.batches[j].conn == s'.batches[k].conn
      ensures s'.batches[j].conn in s'.channels && !Reading(s', s'.batches[j].conn)
    {
      assert Unfinished(s.batches[j]) && Unfinished(s.batches[k]) && s.batches[j].conn == s.batches[k].conn;
    }
  }

  lemma MovedKeepsLined(s: State, s': State, b: nat)
    requires Lined(s) && BatchesOk(s) && Moved(s, s', b)
    requires forall k | 0 <= k < |s'.batches| && Unfinished(s'.batches[k]) :: Unfinished(s.batches[k])
    ensures Lined(s')
  {
    MovedKeepsQueuesSorted(s, s', b);
    MovedKeepsOutboxesYoungest(s, s', b);
    MovedKeepsChannelsInOrder(s, s', b);
    MovedKeepsExclusive(s, s', b);
  }

  lemma SendKeepsLined(s: State, t: nat)
    requires Lined(s) && BatchesOk(s) && WorkOk(s) && Enabled(s, Send(t))
    ensures Lined(SendStep(s, t))
  {
    var s', work := SendStep(s, t), s.tasks[t].phase.work;
    if work == [] || |s.batches[work[0]].placed| == |s.batches[work[0]].items| {
      StillKeepsLined(s, s');
    } else {
      var b := work[0];
      assert Holds(s, t, 0, b);
      if HasRoom(s.channels[s.batches[b].conn]) {
        PlaceMoves(s, s', b);
        MovedKeepsLined(s, s', b);
      } else {
        CutKeepsLined(s, s', b);
      }
    }
  }

  lemma CutKeepsLined(s: State, s': State, b: nat)
    requires Lined(s) && b < |s.batches| && s'.batches == s.batches[b := s.batches[b].(cut := true)]
    requires s'.outboxes == s.outboxes && s'.channels == s.channels && s'.tasks.Keys == s.tasks.Keys
    requires forall t | t in s.tasks :: s'.tasks[t].client == s.tasks[t].client
    ensures Lined(s')
  {
    forall k | 0 <= k < |s'.batches|
      ensures Rest(s'.batches[k]) == Rest(s.batches[k]) && (Unfinished(s'.batches[k]) ==> Unfinished(s.batches[k]))
      ensures s'.batches[k].conn == s.batches[k].conn && s'.batches[k].client == s.batches[k].client
    {
    }
  }

  // ---------- flushing ----------

  /** A target that a flush would drain. */
  predicate Drainable(s: State, c: ClientId) {
    c in s.connections && c in s.outboxes && s.outboxes[c] != []
  }

  predicate Busy(s: State, conn: nat) {
    exists b | 0 <= b < |s.batches| :: Unfinished(s.batches[b]) && s.batches[b].conn == conn
  }

  /** A flush would drain for `c` while another flush is still sending to the same connection, which still reads. */
  predicate Contested(s: State, c: ClientId) {
    Drainable(s, c) && Busy(s, s.connections[c]) && Reading(s, s.connections[c])
  }

  predicate Undisturbed(s: State, targets: seq<ClientId>) {
    forall c | c in targets :: !Contested(s, c)
  }

  lemma DrainOneKeepsOrder(s: State, c: ClientId)
    requires QueuesSorted(s) && OutboxesYoungest(s) && ChannelsInOrder(s) && HandlesOk(s) && Drainable(s, c)
    ensures var s' := DrainOne(s, c); QueuesSorted(s') && OutboxesYoungest(s') && ChannelsInOrder(s')
  {
    var s', b := DrainOne(s, c), |s.batches|;
    assert Rest(s'.batches[b]) == s.outboxes[c];
    assert forall k | 0 <= k < b :: s'.batches[k] == s.batches[k];
  }

  lemma DrainOneKeepsLined(s: State, c: ClientId)
    requires Lined(s) && HandlesOk(s) && !Contested(s, c)
    ensures Lined(DrainOne(s, c))
  {
    if Drainable(s, c) {
      var s' := DrainOne(s, c);
      DrainOneKeepsOrder(s, c);
      forall j, k | 0 <= j < k < |s'.batches| && Unfinished(s'.batches[j]) && Unfinished(s'.batches[k])
                    && s'.batches[j].conn == s'.batches[k].conn
        ensures s'.batches[j].conn in s'.channels && !Reading(s', s'.batches[j].conn)
      {
        assert s'.batches[j] == s.batches[j];
        if k < |s.batches| {
          assert s'.batches[k] == s.batches[k];
        } else {
          assert Busy(s, s.connections[c]);
        }
      }
    }
  }

  lemma DrainOneKeepsUndisturbed(s: State, targets: seq<ClientId>)
    requires HandlesOk(s) && targets != [] && Undisturbed(s, targets)
    ensures Undisturbed(DrainOne(s, targets[0]), targets[1..])
  {
    var s' := DrainOne(s, targets[0]);
    forall c | c in targets[1..] && Drainable(s', c) && Reading(s', s'.connections[c])
      ensures !Busy(s', s'.connections[c])
    {
      assert Drainable(s, c) && !Contested(s, c);
      forall b | 0 <= b < |s'.batches| && Unfinished(s'.batches[b])
        ensures s'.batches[b].conn != s'.connections[c]
      {
        if b < |s.batches| {
          assert s'.batches[b] == s.batches[b];
        }
      }
    }
  }

  lemma {:induction false} DrainAllKeepsLined(s: State, targets: seq<ClientId>)
    requires Lined(s) && HandlesOk(s) && Undisturbed(s, targets)
    ensures Lined(DrainAll(s, targets))
    decreases |targets|
  {
    if targets != [] {
      DrainOneKeepsLined(s, targets[0]);
      DrainOneKeepsUndisturbed(s, targets);
      DrainAllKeepsLined(DrainOne(s, targets[0]), targets[1..]);
    }
  }

  lemma FlushKeepsLined(s: State, t: nat)
    requires Lined(s) && HandlesOk(s) && Enabled(s, Flush(t)) && Undisturbed(s, s.tasks[t].phase.targets)
    ensures Lined(Do(s, Flush(t)))
  {
    DrainAllKeepsLined(s, s.tasks[t].phase.targets);
    StillKeepsLined(DrainAll(s, s.tasks[t].phase.targets), Do(s, Flush(t)));
  }

  // ---------- whole runs ----------

  lemma StepKeepsLined(s: State, a: Action)
    requires Lined(s) && Inv(s) && Enabled(s, a) && (a.Flush? ==> Undisturbed(s, s.tasks[a.t].phase.targets))
    ensures Lined(Do(s, a))
  {
    if a.Flush? {
      FlushKeepsLined(s, a.t);
    } else if a.Route? {
      RouteKeepsLined(s, a.t, a.event);
    } else if a.Report? {
      ReportKeepsLined(s, a.t, a.message);
    } else if a.Send? {
      SendKeepsLined(s, a.t);
    } else {
      OtherStepsAreStill(s, a);
      StillKeepsLined(s, Do(s, a));
    }
  }

  /** A run in which no flush drains for a reading connection that another flush is still sending to. */
  predicate OrderlyRun(s: State, actions: seq<Action>)
    requires EnabledRun(s, actions)
    decreases |actions|
  {
    actions == []
    || ((actions[0].Flush? ==> Undisturbed(s, s.tasks[actions[0].t].phase.targets))
        && OrderlyRun(Do(s, actions[0]), actions[1..]))
  }

  lemma {:induction false} OrderlyRunsStayLined(s: State, actions: seq<Action>)
    requires Lined(s) && Inv(s) && EnabledRun(s, actions) && OrderlyRun(s, actions)
    ensures Lined(After(s, actions)) && Inv(After(s, actions))
    decreases |actions|
  {
    if actions != [] {
      var a := actions[0];
      StepKeepsInv(s, a);
      StepKeepsLined(s, a);
      OrderlyRunsStayLined(Do(s, a), actions[1..]);
    }
  }

  /** In such a run every channel receives its routed events in the order in which they were accepted. */
  lemma OrderlyRunsDeliverInOrder(actions: seq<Action>, t: nat)
    requires EnabledRun(EMPTY, actions) && OrderlyRun(EMPTY, actions) && t in After(EMPTY, actions).channels
    ensures InAcceptanceOrder(After(EMPTY, actions).channels[t].items)
  {
    EmptyIsConserved();
    OrderlyRunsStayLined(EMPTY, actions);
  }

  // ---------- capacity ----------

  predicate Bounded(s: State) {
    forall t | t in s.channels :: s.channels[t].taken <= |s.channels[t].items| <= s.channels[t].taken + OUTBOX_CAPACITY
  }

  lemma SendKeepsBounded(s: State, t: nat)
    requires Bounded(s) && Enabled(s, Send(t))
    ensures Bounded(SendStep(s, t))
  {
  }

  lemma StepKeepsBounded(s: State, a: Action)
    requires Bounded(s) && Enabled(s, a)
    ensures Bounded(Do(s, a))
  {
    if a.Send? {
      SendKeepsBounded(s, a.t);
    } else if a.Flush? {
      assert Do(s, a).channels == s.channels;
    }
  }

  /** In every interleaving no channel ever holds more than its capacity of unread events. */
  lemma {:induction false} ChannelsStayBounded(s: State, actions: seq<Action>)
    requires Bounded(s) && EnabledRun(s, actions)
    ensures Bounded(After(s, actions))
    decreases |actions|
  {
    if actions != [] {
      StepKeepsBounded(s, actions[0]);
      ChannelsStayBounded(Do(s, actions[0]), actions[1..]);
    }
  }
}
