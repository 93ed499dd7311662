/** Whose handle an eviction removes: exactly when only connections that refused an event lose theirs. */
module RelayEviction {
  import opened Types
  import opened Events
  import opened Relay
  import opened RelayOwnership
  import opened RelayBatches

  /** A served connection has its handle in the connection map unless it was sent a close signal. */
  ghost predicate Attached(s: State) {
    forall t | t in s.tasks && Listed(s.tasks[t].phase) && !s.tasks[t].phase.Leaving? ::
      Deliverable(s, t) || t in s.told
  }

  predicate Deliverable(s: State, t: nat)
    requires t in s.tasks
  {
    s.tasks[t].client in s.connections && s.connections[s.tasks[t].client] == t
  }

  /** The handle that eviction would remove is that of the connection that refused, or of one that is closing anyway. */
  predicate EvictsOwnHandle(s: State, t: nat)
    requires t in s.tasks && s.tasks[t].phase.Evicting?
  {
    var Evicting(c, conn, _) := s.tasks[t].phase;
    c !in s.connections || s.connections[c] == conn || s.connections[c] in s.told
    || (s.connections[c] in s.tasks && s.tasks[s.connections[c]].phase.Leaving?)
  }

  /** Removing a handle by client id leaves all others their handle if and only if it removes the right one. */
  lemma EvictionKeepsAttachedIff(s: State, t: nat)
    requires Owned(s) && Sound(s) && Attached(s) && Enabled(s, Evict(t))
    ensures Attached(Do(s, Evict(t))) <==> EvictsOwnHandle(s, t)
  {
    var s' := Do(s, Evict(t));
    var Evicting(c, conn, _) := s.tasks[t].phase;
    if !EvictsOwnHandle(s, t) {
      var u := s.connections[c];
      assert Owns(s, u, c);
      assert u in s'.tasks && s'.tasks[u].client == c && Listed(s'.tasks[u].phase) && !s'.tasks[u].phase.Leaving?;
      assert !Deliverable(s', u) && u !in s'.told;
    } else {
      forall u | u in s'.tasks && Listed(s'.tasks[u].phase) && !s'.tasks[u].phase.Leaving?
        ensures Deliverable(s', u) || u in s'.told
      {
        assert Deliverable(s, u) || u in s.told;
      }
    }
  }

  /** Steps of a serving task that leave the connection map alone. */
  lemma ServingKeepsAttached(s: State, s': State, t: nat)
    requires Attached(s) && Serves(s, s', t) && s'.connections == s.connections && s.told <= s'.told
    requires s.tasks[t].phase.Leaving? ==> s'.tasks[t].phase.Leaving?
    ensures Attached(s')
  {
    forall u | u in s'.tasks && Listed(s'.tasks[u].phase) && !s'.tasks[u].phase.Leaving?
      ensures Deliverable(s', u) || u in s'.told
    {
      assert Deliverable(s, u) || u in s.told;
    }
  }

  lemma FlushKeepsAttached(s: State, t: nat)
    requires Attached(s) && Enabled(s, Flush(t))
    ensures Attached(Do(s, Flush(t)))
  {
    FlushServes(s, t);
    ServingKeepsAttached(s, Do(s, Flush(t)), t);
  }

  lemma SendKeepsAttached(s: State, t: nat)
    requires Attached(s) && Enabled(s, Send(t))
    ensures Attached(Do(s, Send(t)))
  {
    SendServes(s, t);
    ServingKeepsAttached(s, Do(s, Send(t)), t);
  }

  lemma OtherStepsKeepAttached(s: State, a: Action)
    requires Owned(s) && Attached(s) && Enabled(s, a) && !a.Evict?
    ensures Attached(Do(s, a))
  {
    if a.Flush? {
      FlushKeepsAttached(s, a.t);
    } else if a.Send? {
      SendKeepsAttached(s, a.t);
    } else if a.Route? || a.Report? || a.End? {
      OtherServes(s, a);
      ServingKeepsAttached(s, Do(s, a), a.t);
    } else {
      ComingAndGoingKeepsAttached(s, a);
    }
  }

  lemma ComingAndGoingKeepsAttached(s: State, a: Action)
    requires Owned(s) && Attached(s) && Enabled(s, a)
    requires a.Accept? || a.Join? || a.Publish? || a.Withdraw? || a.Disconnect? || a.WriterTakes? || a.WriterStops?
    ensures Attached(Do(s, a))
  {
    var s' := Do(s, a);
    if a.Withdraw? || a.Publish? {
      assert Owns(s, a.t, s.tasks[a.t].client);
    }
    forall u | u in s'.tasks && Listed(s'.tasks[u].phase) && !s'.tasks[u].phase.Leaving?
      ensures Deliverable(s', u) || u in s'.told
    {
      if u in s.tasks && Listed(s.tasks[u].phase) {
        assert Owns(s, u, s.tasks[u].client);
        assert Deliverable(s, u) || u in s.told;
      }
    }
  }

  /** A run in which every eviction removed the right handle. */
  predicate CarefulRun(s: State, actions: seq<Action>)
    requires EnabledRun(s, actions)
    decreases |actions|
  {
    actions == []
    || ((actions[0].Evict? ==> EvictsOwnHandle(s, actions[0].t)) && CarefulRun(Do(s, actions[0]), actions[1..]))
  }

  /** At every point of the run only connections that refused an event are without their handle. */
  ghost predicate AttachedThroughout(s: State, actions: seq<Action>)
    requires EnabledRun(s, actions)
    decreases |actions|
  {
    Attached(s) && (actions == [] || AttachedThroughout(Do(s, actions[0]), actions[1..]))
  }

  lemma {:induction false} CarefulIffAttachedFrom(s: State, actions: seq<Action>)
    requires Owned(s) && Sound(s) && Attached(s) && EnabledRun(s, actions)
    ensures CarefulRun(s, actions) <==> AttachedThroughout(s, actions)
    decreases |actions|
  {
    if actions != [] {
      var a := actions[0];
      StepKeepsOwned(s, a);
      StepKeepsSound(s, a);
      if a.Evict? {
        EvictionKeepsAttachedIff(s, a.t);
      } else {
        OtherStepsKeepAttached(s, a);
      }
      if Attached(Do(s, a)) {
        CarefulIffAttachedFrom(Do(s, a), actions[1..]);
      }
    }
  }

  /** Over every interleaving: nobody else ever loses a handle if and only if every eviction removes the right one. */
  lemma CarefulIffAttachedThroughout(actions: seq<Action>)
    requires EnabledRun(EMPTY, actions)
    ensures CarefulRun(EMPTY, actions) <==> AttachedThroughout(EMPTY, actions)
  {
    CarefulIffAttachedFrom(EMPTY, actions);
  }

  // ---------- witnesses ----------

  ghost predicate Reachable(s: State) {
    exists actions :: EnabledRun(EMPTY, actions) && After(EMPTY, actions) == s
  }

  lemma ReachStep(s: State, a: Action)
    requires Reachable(s) && Enabled(s, a)
    ensures Reachable(Do(s, a))
  {
    var actions :| EnabledRun(EMPTY, actions) && After(EMPTY, actions) == s;
    RunExtends(EMPTY, actions, a);
  }

  function Entered(s: State, t: nat, c: ClientId): State {
    s.(tasks := s.tasks[t := Task(c, Serving)], channels := s.channels[t := Channel([], 0, true)],
       outboxes := s.outboxes[c := []], connections := s.connections[c := t])
  }

  lemma EnterSteps(s: State, t: nat, c: ClientId)
    requires t !in s.tasks && c !in s.outboxes
    ensures var s1 := Do(s, Accept(t, c));
            && Enabled(s1, Join(t))
            && var s2 := Do(s1, Join(t));
               Enabled(s2, Publish(t)) && Do(s2, Publish(t)) == Entered(s, t, c)
  {
    var s1 := Do(s, Accept(t, c));
    var s2 := Do(s1, Join(t));
    assert Do(s2, Publish(t)).tasks == Entered(s, t, c).tasks;
  }

  /** A connection arrives, registers and is published. */
  lemma Enters(s: State, t: nat, c: ClientId)
    requires Reachable(s) && t !in s.tasks && c !in s.outboxes
    ensures Reachable(Entered(s, t, c))
  {
    EnterSteps(s, t, c);
    ReachStep(s, Accept(t, c));
    ReachStep(Do(s, Accept(t, c)), Join(t));
    ReachStep(Do(Do(s, Accept(t, c)), Join(t)), Publish(t));
  }

  /** A served connection ends and is unregistered. */
  lemma Leaves(s: State, t: nat, c: ClientId) returns (s': State)
    requires Reachable(s) && t in s.tasks && t in s.channels && s.tasks[t] == Task(c, Serving)
    ensures Reachable(s')
    ensures s'.tasks == s.tasks[t := Task(c, Gone)]
    ensures s'.outboxes == s.outboxes - {c} && s'.connections == s.connections - {c}
    ensures s'.channels == s.channels && s'.batches == s.batches && s'.told == s.told && s'.log == s.log
  {
    var s1 := Withdraws(s, t, c);
    s' := Do(s1, Disconnect(t));
    ReachStep(s1, Disconnect(t));
  }

  lemma Stops(s: State, t: nat) returns (s': State)
    requires Reachable(s) && t in s.tasks && t in s.channels
    ensures Reachable(s') && s' == s.(channels := s.channels[t := s.channels[t].(reading := false)])
  {
    s' := Do(s, WriterStops(t));
    ReachStep(s, WriterStops(t));
  }

  lemma Ends(s: State, t: nat, c: ClientId) returns (s': State)
    requires Reachable(s) && t in s.tasks && t in s.channels && s.tasks[t] == Task(c, Serving)
    ensures Reachable(s') && s' == s.(tasks := s.tasks[t := Task(c, Leaving)])
  {
    s' := Do(s, End(t));
    ReachStep(s, End(t));
  }

  lemma Withdraws(s: State, t: nat, c: ClientId) returns (s': State)
    requires Reachable(s) && t in s.tasks && t in s.channels && s.tasks[t] == Task(c, Serving)
    ensures Reachable(s')
    ensures s' == s.(tasks := s.tasks[t := Task(c, Withdrawn)], connections := s.connections - {c})
  {
    var s1 := Ends(s, t, c);
    s' := Do(s1, Withdraw(t));
    ReachStep(s1, Withdraw(t));
    assert s'.tasks == s.tasks[t := Task(c, Withdrawn)];
  }

  /** A flush whose next item finds no room gives up its batch and removes the handle. */
  lemma Evicts(s: State, t: nat, b: nat) returns (s': State)
    requires Reachable(s) && t in s.tasks && t in s.channels && s.tasks[t].phase == Sending([b]) && SendOk(s, b)
    requires |s.batches[b].placed| < |s.batches[b].items| && !HasRoom(s.channels[s.batches[b].conn])
    ensures Reachable(s')
    ensures s'.tasks == s.tasks[t := Task(s.tasks[t].client, Sending([]))]
    ensures s'.connections == s.connections - {s.batches[b].client} && s'.outboxes == s.outboxes
    ensures s'.told == s.told + {s.batches[b].conn} && s'.channels == s.channels
    ensures s'.batches == s.batches[b := s.batches[b].(cut := true)]
  {
    var s1 := Do(s, Send(t));
    ReachStep(s, Send(t));
    assert s1.tasks[t].phase == Evicting(s.batches[b].client, s.batches[b].conn, []);
    s' := Do(s1, Evict(t));
    ReachStep(s1, Evict(t));
  }

  /** A served connection routes a key announcement to `c`, who is deliverable through `conn` and has nothing queued. */
  lemma Routes(s: State, t: nat, from: ClientId, c: ClientId, key: PublicKey) returns (s': State)
    requires Reachable(s) && t in s.tasks && t in s.channels && s.tasks[t] == Task(from, Serving)
    requires from in s.outboxes && c in s.outboxes && s.outboxes[c] == []
    ensures Reachable(s')
    ensures s'.tasks == s.tasks[t := Task(from, Accepted([c]))]
    ensures s'.outboxes == s.outboxes[c := [Item(|s.log|, PeerKey(from, c, key), c)]] && |s'.log| == |s.log| + 1
    ensures s' == s.(tasks := s'.tasks, outboxes := s'.outboxes, log := s'.log)
  {
    var e := PeerKey(from, c, key);
    s' := Do(s, Route(t, e));
    ReachStep(s, Route(t, e));
    assert [] + [Item(|s.log|, e, c)] == [Item(|s.log|, e, c)];
  }

  /** Its flush drains that event into a batch for `conn`. */
  lemma Drains(s: State, t: nat, c: ClientId, conn: nat) returns (s': State)
    requires Reachable(s) && t in s.tasks && t in s.channels && s.tasks[t].phase == Accepted([c])
    requires c in s.connections && s.connections[c] == conn && c in s.outboxes && s.outboxes[c] != []
    ensures Reachable(s')
    ensures s' == In(s.(outboxes := s.outboxes[c := []],
                        batches := s.batches + [Batch(conn, c, s.outboxes[c], [], false)]), t, Sending([|s.batches|]))
  {
    s' := Do(s, Flush(t));
    ReachStep(s, Flush(t));
    assert [c][1..] == [];
    assert DrainAll(s, [c]) == DrainAll(DrainOne(s, c), []) == DrainOne(s, c);
    assert Range(|s.batches|, |s.batches| + 1) == [|s.batches|];
  }

  /** Connection 1 of `c` is served; connection 2 of `a` has drained the first event for it and not sent it yet. */
  predicate Poised(s: State, a: ClientId, c: ClientId) {
    && a != c
    && s.tasks.Keys == s.channels.Keys == {1, 2}
    && s.tasks[1] == Task(c, Serving) && s.tasks[2] == Task(a, Sending([0]))
    && s.channels[1] == Channel([], 0, true)
    && c in s.outboxes && s.outboxes[c] == [] && c in s.connections && s.connections[c] == 1
    && s.told == {} && |s.log| == 1
    && |s.batches| == 1 && s.batches[0].conn == 1 && s.batches[0].client == c
    && s.batches[0].placed == [] && |s.batches[0].items| == 1 && s.batches[0].items[0].n == 0 && !s.batches[0].cut
  }

  lemma PoisedIsReachable(a: ClientId, c: ClientId, key: PublicKey) returns (s: State)
    requires a != c
    ensures Reachable(s) && Poised(s, a, c)
  {
    assert EnabledRun(EMPTY, []) && After(EMPTY, []) == EMPTY;
    Enters(EMPTY, 1, c);
    Enters(Entered(EMPTY, 1, c), 2, a);
    var s1 := Routes(Entered(Entered(EMPTY, 1, c), 2, a), 2, a, c, key);
    s := Drains(s1, 2, c, 1);
  }

  /** Connection 1 dies and connection 3 of the same client takes its place while connection 2 holds its batch. */
  lemma ReplacedIsReachable(s: State, a: ClientId, c: ClientId) returns (s': State)
    requires Reachable(s) && Poised(s, a, c)
    ensures Reachable(s')
    ensures 2 in s'.tasks && s'.tasks[2] == Task(a, Sending([0])) && 3 in s'.tasks && s'.tasks[3] == Task(c, Serving)
    ensures s'.tasks.Keys == s'.channels.Keys == {1, 2, 3} && s'.tasks[1].phase.Gone?
    ensures !s'.channels[1].reading && s'.channels[3] == Channel([], 0, true)
    ensures c in s'.outboxes && c in s'.connections && s'.connections[c] == 3
    ensures s'.batches == s.batches && s'.told == s.told
  {
    var s1 := Stops(s, 1);
    var s2 := Leaves(s1, 1, c);
    Enters(s2, 3, c);
    s' := Entered(s2, 3, c);
  }

  lemma ReachableIsSound(s: State)
    requires Reachable(s)
    ensures Owned(s) && Sound(s)
  {
    var actions :| EnabledRun(EMPTY, actions) && After(EMPTY, actions) == s;
    SoundAlways(EMPTY, actions);
  }

  /** Connection 1 has drained a second event for itself while the first is still with connection 2. */
  lemma SecondIsDrained(s: State, a: ClientId, c: ClientId, key: PublicKey) returns (s': State)
    requires Reachable(s) && Poised(s, a, c)
    ensures Reachable(s') && s'.tasks.Keys == s'.channels.Keys == {1, 2} && s'.channels[1] == Channel([], 0, true)
    ensures s'.tasks[1].phase == Sending([1]) && s'.tasks[2].phase == Sending([0])
    ensures |s'.batches| == 2 && s'.batches[0] == s.batches[0]
    ensures s'.batches[1] == Batch(1, c, [Item(1, PeerKey(c, c, key), c)], [], false)
  {
    var s1 := Routes(s, 1, c, c, key);
    s' := Drains(s1, 1, c, 1);
  }

  /** Channel order need not be the order of acceptance: two flushes may drain in one order and send in the other. */
  lemma FlushesCanReorder(a: ClientId, c: ClientId, key: PublicKey)
    requires a != c
    ensures exists s :: Reachable(s) && 1 in s.channels && |s.channels[1].items| == 2
                        && s.channels[1].items[0].n > s.channels[1].items[1].n
  {
    var s0 := PoisedIsReachable(a, c, key);
    var s1 := SecondIsDrained(s0, a, c, key);
    var s2 := Sends(s1, 1, 1);
    var s3 := Sends(s2, 2, 0);
    assert s3.channels[1].items == [s1.batches[1].items[0], s0.batches[0].items[0]];
  }

  /** A flush puts its next item into the channel. */
  lemma Sends(s: State, t: nat, b: nat) returns (s': State)
    requires Reachable(s) && t in s.tasks && t in s.channels && s.tasks[t].phase == Sending([b]) && SendOk(s, b)
    requires |s.batches[b].placed| < |s.batches[b].items| && HasRoom(s.channels[s.batches[b].conn])
    ensures Reachable(s') && s'.tasks == s.tasks && s'.channels.Keys == s.channels.Keys
    ensures var conn := s.batches[b].conn;
            var item := s.batches[b].items[|s.batches[b].placed|];
            s'.channels[conn] == s.channels[conn].(items := s.channels[conn].items + [item])
    ensures |s'.batches| == |s.batches| && forall k | 0 <= k < |s.batches| && k != b :: s'.batches[k] == s.batches[k]
  {
    s' := Do(s, Send(t));
    ReachStep(s, Send(t));
  }
}
