/**
 How a connection learns that it must close. Its loop ends when a close signal arrives or when the last sender of its
 close channel is dropped; a sender lives in its handle, so in the connection map and in every clone a flush has taken.
 */
module RelayClosing {
  import opened Types
  import opened Events
  import opened Router
  import opened Relay
  import opened RelayOwnership
  import opened RelayConservation
  import opened RelayBatches
  import opened RelayOrder
  import opened RelayEviction

  // ---------- close signals ----------

  /** The channel of connection `t` refused an event of some batch. */
  predicate Refused(s: State, t: nat) {
    exists b | 0 <= b < |s.batches| :: s.batches[b].cut && s.batches[b].conn == t
  }

  ghost predicate SignalsEarned(s: State) {
    forall t | t in s.told :: Refused(s, t)
  }

  /** Batches stay in place, for the same connection, and are never taken up again. */
  predicate BatchesKept(s: State, s': State) {
    && |s.batches| <= |s'.batches|
    && forall b | 0 <= b < |s.batches| ::
         s'.batches[b].conn == s.batches[b].conn && (s.batches[b].cut ==> s'.batches[b].cut)
  }

  lemma StepKeepsBatches(s: State, a: Action)
    requires Enabled(s, a)
    ensures BatchesKept(s, Do(s, a))
  {
    if a.Flush? {
      assert s.batches <= DrainAll(s, s.tasks[a.t].phase.targets).batches;
    }
  }

  lemma KeptKeepsRefused(s: State, s': State, t: nat)
    requires BatchesKept(s, s') && Refused(s, t)
    ensures Refused(s', t)
  {
    var b :| 0 <= b < |s.batches| && s.batches[b].cut && s.batches[b].conn == t;
    assert s'.batches[b].cut && s'.batches[b].conn == t;
  }

  /** Only a refused send signals. */
  lemma NewSignal(s: State, a: Action, t: nat)
    requires Enabled(s, a) && t in Do(s, a).told && t !in s.told
    ensures Refused(Do(s, a), t)
  {
    assert a.Send?;
    var b := s.tasks[a.t].phase.work[0];
    assert Do(s, a).batches[b].cut && Do(s, a).batches[b].conn == t;
  }

  lemma StepKeepsSignalsEarned(s: State, a: Action)
    requires SignalsEarned(s) && Enabled(s, a)
    ensures SignalsEarned(Do(s, a))
  {
    StepKeepsBatches(s, a);
    forall t | t in Do(s, a).told
      ensures Refused(Do(s, a), t)
    {
      if t in s.told {
        KeptKeepsRefused(s, Do(s, a), t);
      } else {
        NewSignal(s, a, t);
      }
    }
  }

  lemma {:induction false} SignalsEarnedAlways(s: State, actions: seq<Action>)
    requires SignalsEarned(s) && EnabledRun(s, actions)
    ensures SignalsEarned(After(s, actions))
    decreases |actions|
  {
    if actions != [] {
      StepKeepsSignalsEarned(s, actions[0]);
      SignalsEarnedAlways(Do(s, actions[0]), actions[1..]);
    }
  }

  // ---------- when a channel refuses ----------

  /** The writer has stopped reading, or 256 events wait for it. */
  predicate Full(ch: Channel) {
    !ch.reading || |ch.items| - ch.taken >= 256
  }

  /** The next thing task `v` has to send is for connection `t`, which cannot take it. */
  predicate Overflows(s: State, a: Action, t: nat) {
    && a.Send? && a.t in s.tasks && s.tasks[a.t].phase.Sending? && s.tasks[a.t].phase.work != []
    && s.tasks[a.t].phase.work[0] < |s.batches|
    && var batch := s.batches[s.tasks[a.t].phase.work[0]];
       |batch.placed| < |batch.items| && batch.conn == t && t in s.channels && Full(s.channels[t])
  }

  /** Sending gives up a batch if and only if it has an event left and its channel is full; else the event arrives. */
  lemma SendRefusesIffFull(s: State, v: nat)
    requires Enabled(s, Send(v)) && s.tasks[v].phase.work != []
    requires !s.batches[s.tasks[v].phase.work[0]].cut
    ensures var s', b := Do(s, Send(v)), s.tasks[v].phase.work[0];
            var batch := s.batches[b];
            && (s'.batches[b].cut <==> Overflows(s, Send(v), batch.conn))
            && (|batch.placed| < |batch.items| && !Full(s.channels[batch.conn]) ==>
                  && batch.conn in s'.channels
                  && s'.channels[batch.conn].items == s.channels[batch.conn].items + [batch.items[|batch.placed|]])
  {
  }

  /** A step signals a connection if and only if it overflows it. */
  lemma SignalIffOverflow(s: State, a: Action, t: nat)
    requires Enabled(s, a)
    ensures t in Do(s, a).told <==> t in s.told || Overflows(s, a, t)
  {
    if a.Send? {
      SendSignals(s, a.t, t);
    } else if a.Flush? {
      assert Do(s, a).told == s.told;
    }
  }

  lemma SendSignals(s: State, v: nat, t: nat)
    requires Enabled(s, Send(v))
    ensures t in Do(s, Send(v)).told <==> t in s.told || Overflows(s, Send(v), t)
  {
  }

  /** Some step of the run overflows connection `t`. */
  predicate OverflowsIn(s: State, actions: seq<Action>, t: nat)
    requires EnabledRun(s, actions)
    decreases |actions|
  {
    actions != [] && (Overflows(s, actions[0], t) || OverflowsIn(Do(s, actions[0]), actions[1..], t))
  }

  lemma {:induction false} SignalledIffOverflowedFrom(s: State, actions: seq<Action>, t: nat)
    requires EnabledRun(s, actions)
    ensures t in After(s, actions).told <==> t in s.told || OverflowsIn(s, actions, t)
    decreases |actions|
  {
    if actions != [] {
      SignalIffOverflow(s, actions[0], t);
      SignalledIffOverflowedFrom(Do(s, actions[0]), actions[1..], t);
    }
  }

  /**
   Over every interleaving: a connection was sent a close signal if and only if at some step an event for it found its
   writer stopped or 256 events unread.
   */
  lemma SignalledIffOverflowed(actions: seq<Action>, t: nat)
    requires EnabledRun(EMPTY, actions)
    ensures t in After(EMPTY, actions).told <==> OverflowsIn(EMPTY, actions, t)
  {
    SignalledIffOverflowedFrom(EMPTY, actions, t);
  }

  // ---------- reports ----------

  /**
   A refused event is reported to its sender, with the code of the refusal, if and only if it is not a key announcement
   to an absent peer and the sender's own channel is not full; nothing else changes.
   */
  lemma ReportedIff(s: State, t: nat, message: string)
    requires Enabled(s, Report(t, message))
    ensures var s' := Do(s, Report(t, message));
            var event, error := s.tasks[t].phase.event, s.tasks[t].phase.error;
            var wanted := !(event.PeerKey? && error == NoSuchRecipient) && !Full(s.channels[t]);
            && s'.tasks == s.tasks[t := Task(s.tasks[t].client, Serving)]
            && s'.outboxes == s.outboxes && s'.connections == s.connections
            && s'.batches == s.batches && s'.told == s.told
            && (!wanted ==> s'.channels == s.channels)
            && (wanted ==>
                  && t in s'.channels && |s'.channels[t].items| == |s.channels[t].items| + 1
                  && s.channels[t].items < s'.channels[t].items
                  && s'.channels[t].items[|s.channels[t].items|].event.Error?
                  && s'.channels[t].items[|s.channels[t].items|].event.message == message
                  && Tells(s'.channels[t].items[|s.channels[t].items|].event.code, error)
                  && (forall u | u in s.channels && u != t :: u in s'.channels && s'.channels[u] == s.channels[u]))
  {
  }

  /** The wire code names the router's error. */
  predicate Tells(code: RelayErrorCode, error: RouterError) {
    && (error == AlreadyConnected <==> code == ClientAlreadyConnected)
    && (error == NotConnected <==> code == ClientNotConnected)
    && (error == WrongSender <==> code == SenderMismatch)
    && (error == NoSuchRecipient <==> code == UnknownRecipient)
    && (error == Unsupported <==> code == UnsupportedEvent)
  }

  // ---------- a signal is a cut batch ----------

  /** In every interleaving a connection was sent a close signal if and only if its own channel refused an event. */
  lemma SignalledIffRefused(actions: seq<Action>, t: nat)
    requires EnabledRun(EMPTY, actions)
    ensures t in After(EMPTY, actions).told <==> Refused(After(EMPTY, actions), t)
  {
    SignalsEarnedAlways(EMPTY, actions);
    SoundAlways(EMPTY, actions);
    var s := After(EMPTY, actions);
    if Refused(s, t) {
      var b :| 0 <= b < |s.batches| && s.batches[b].cut && s.batches[b].conn == t;
      assert BatchOk(s, s.batches[b]);
    }
  }

  /** So in every interleaving "attached" means that only connections that refused an event are without their handle. */
  lemma AttachedIffOnlyRefusersLose(actions: seq<Action>)
    requires EnabledRun(EMPTY, actions)
    ensures var s := After(EMPTY, actions);
            Attached(s) <==> forall t | t in s.tasks && Listed(s.tasks[t].phase) && !s.tasks[t].phase.Leaving? ::
                               Deliverable(s, t) || Refused(s, t)
  {
    forall t
      ensures t in After(EMPTY, actions).told <==> Refused(After(EMPTY, actions), t)
    {
      SignalledIffRefused(actions, t);
    }
  }

  // ---------- senders of the close channel ----------

  /** The flush of task `u` holds a clone of the handle of connection `t`. */
  predicate Clutches(s: State, u: nat, t: nat) {
    && u in s.tasks
    && (|| (s.tasks[u].phase.Evicting? && s.tasks[u].phase.conn == t)
        || HasWorkFor(s.batches, Work(s.tasks[u].phase), t))
  }

  predicate HasWorkFor(batches: seq<Batch>, work: seq<nat>, t: nat) {
    exists i | 0 <= i < |work| :: work[i] < |batches| && batches[work[i]].conn == t
  }

  /** Some sender of the close channel of `t` is left: with its own task, in the connection map, or with a flush. */
  ghost predicate HasSender(s: State, t: nat) {
    || (t in s.tasks && (s.tasks[t].phase.Greeted? || s.tasks[t].phase.Joined?))
    || (exists c :: c in s.connections && s.connections[c] == t)
    || (exists u :: Clutches(s, u, t))
  }

  /** Connection `t` has been published, still holds its id, and no longer has its handle in the map. */
  predicate Lost(s: State, t: nat) {
    && t in s.tasks && t in s.channels && Holding(s.tasks[t].phase) && !s.tasks[t].phase.Joined?
    && !Deliverable(s, t)
  }

  lemma LostHasNoHandle(s: State, t: nat)
    requires Owned(s) && Lost(s, t)
    ensures forall c | c in s.connections :: s.connections[c] != t
  {
    forall c | c in s.connections
      ensures s.connections[c] != t
    {
      assert Owns(s, s.connections[c], c);
    }
  }

  lemma {:induction false} DrainAllSkips(s: State, targets: seq<ClientId>, t: nat)
    requires forall c | c in s.connections :: s.connections[c] != t
    ensures forall b | |s.batches| <= b < |DrainAll(s, targets).batches| :: DrainAll(s, targets).batches[b].conn != t
    decreases |targets|
  {
    if targets != [] {
      var s1 := DrainOne(s, targets[0]);
      DrainAllSkips(s1, targets[1..], t);
      assert s1.batches <= DrainAll(s1, targets[1..]).batches;
    }
  }

  /** Whether a list of batches has one for `t` does not change as batches are sent, cut or added. */
  lemma KeptKeepsWorkFor(s: State, s': State, work: seq<nat>, t: nat)
    requires BatchesKept(s, s') && forall i | 0 <= i < |work| :: work[i] < |s.batches|
    ensures HasWorkFor(s'.batches, work, t) ==> HasWorkFor(s.batches, work, t)
  {
  }

  /** In a step a task other than those that flush gains no work. */
  predicate NoNewWork(s: State, s': State) {
    forall u | u in s'.tasks ::
      || (u in s.tasks && s'.tasks[u].phase == s.tasks[u].phase)
      || (Work(s'.tasks[u].phase) == [] && !s'.tasks[u].phase.Evicting?)
  }

  lemma WorkIsBatches(s: State, u: nat)
    requires WorkOk(s) && u in s.tasks
    ensures forall i | 0 <= i < |Work(s.tasks[u].phase)| :: Work(s.tasks[u].phase)[i] < |s.batches|
  {
    forall i: nat | i < |Work(s.tasks[u].phase)|
      ensures Work(s.tasks[u].phase)[i] < |s.batches|
    {
      assert Holds(s, u, i, Work(s.tasks[u].phase)[i]);
    }
  }

  lemma IdleGrasps(s: State, s': State, u: nat, t: nat)
    requires WorkOk(s) && BatchesKept(s, s') && NoNewWork(s, s') && Clutches(s', u, t)
    ensures Clutches(s, u, t)
  {
    if u in s.tasks {
      WorkIsBatches(s, u);
      KeptKeepsWorkFor(s, s', Work(s.tasks[u].phase), t);
    }
  }

  lemma FlushGrasps(s: State, v: nat, u: nat, t: nat)
    requires Owned(s) && WorkOk(s) && Lost(s, t) && Enabled(s, Flush(v)) && Clutches(Do(s, Flush(v)), u, t)
    ensures Clutches(s, u, t)
  {
    var s' := Do(s, Flush(v));
    LostHasNoHandle(s, t);
    DrainAllSkips(s, s.tasks[v].phase.targets, t);
    StepKeepsBatches(s, Flush(v));
    if u != v {
      WorkIsBatches(s, u);
      KeptKeepsWorkFor(s, s', Work(s.tasks[u].phase), t);
    }
  }

  lemma SendGrasps(s: State, v: nat, u: nat, t: nat)
    requires WorkOk(s) && Enabled(s, Send(v)) && Clutches(Do(s, Send(v)), u, t)
    ensures Clutches(s, u, t)
  {
    var s', work := Do(s, Send(v)), s.tasks[v].phase.work;
    StepKeepsBatches(s, Send(v));
    WorkIsBatches(s, u);
    KeptKeepsWorkFor(s, s', Work(s.tasks[u].phase), t);
    if u == v && work != [] {
      ShorterWorkFor(s'.batches, work, t);
      assert HeadFor(s.batches, work, t) ==> HasWorkFor(s.batches, work, t);
    }
  }

  predicate HeadFor(batches: seq<Batch>, work: seq<nat>, t: nat) {
    work != [] && work[0] < |batches| && batches[work[0]].conn == t
  }

  lemma ShorterWorkFor(batches: seq<Batch>, work: seq<nat>, t: nat)
    requires work != []
    ensures HasWorkFor(batches, work[1..], t) ==> HasWorkFor(batches, work, t)
  {
    if HasWorkFor(batches, work[1..], t) {
      var i :| 0 <= i < |work[1..]| && work[1..][i] < |batches| && batches[work[1..][i]].conn == t;
      assert work[i + 1] == work[1..][i];
    }
  }

  lemma EvictGrasps(s: State, v: nat, u: nat, t: nat)
    requires WorkOk(s) && Enabled(s, Evict(v)) && Clutches(Do(s, Evict(v)), u, t)
    ensures Clutches(s, u, t)
  {
    assert Do(s, Evict(v)).batches == s.batches;
  }

  lemma OthersAreIdle(s: State, a: Action)
    requires Enabled(s, a) && !a.Flush? && !a.Send? && !a.Evict?
    ensures NoNewWork(s, Do(s, a))
  {
  }

  /** Nobody gets hold of a lost handle again. */
  lemma StepGraspsNothing(s: State, a: Action, u: nat, t: nat)
    requires Owned(s) && Sound(s) && Lost(s, t) && Enabled(s, a) && Clutches(Do(s, a), u, t)
    ensures Clutches(s, u, t)
  {
    if a.Flush? {
      FlushGrasps(s, a.t, u, t);
    } else if a.Send? {
      SendGrasps(s, a.t, u, t);
    } else if a.Evict? {
      EvictGrasps(s, a.t, u, t);
    } else {
      OthersAreIdle(s, a);
      StepKeepsBatches(s, a);
      IdleGrasps(s, Do(s, a), u, t);
    }
  }

  /** A lost handle does not come back: only the owner of an id publishes it, and once. */
  lemma StepKeepsLost(s: State, a: Action, t: nat)
    requires Owned(s) && Lost(s, t) && Enabled(s, a)
    ensures t in Do(s, a).tasks && t in Do(s, a).channels && (Do(s, a).tasks[t].phase.Gone? || Lost(Do(s, a), t))
  {
    assert Owns(s, t, s.tasks[t].client);
    if a.Publish? {
      assert Owns(s, a.t, s.tasks[a.t].client);
    } else if a.Flush? || a.Send? {
      ServingKeepsLost(s, a, t);
    }
  }

  lemma ServingKeepsLost(s: State, a: Action, t: nat)
    requires Lost(s, t) && Enabled(s, a) && (a.Flush? || a.Send?)
    ensures Lost(Do(s, a), t)
  {
    if a.Flush? {
      FlushServes(s, a.t);
    } else {
      SendServes(s, a.t);
    }
  }

  lemma {:induction false} GoneStaysGone(s: State, actions: seq<Action>, t: nat)
    requires EnabledRun(s, actions) && t in s.tasks && s.tasks[t].phase.Gone?
    ensures t in After(s, actions).tasks && After(s, actions).tasks[t].phase.Gone?
    decreases |actions|
  {
    if actions != [] {
      GoneStaysGone(Do(s, actions[0]), actions[1..], t);
    }
  }

  // ---------- a flush lets go after finitely many steps of its own ----------

  function Load(batches: seq<Batch>, work: seq<nat>): nat {
    if work == [] then 0
    else (if work[0] < |batches| then |Rest(batches[work[0]])| + 1 else 0) + Load(batches, work[1..])
  }

  /** An upper bound on the steps task `u` still needs to finish its flush. */
  function StepsLeft(s: State, u: nat): nat
    requires u in s.tasks
  {
    Load(s.batches, Work(s.tasks[u].phase)) + if s.tasks[u].phase.Evicting? then 1 else 0
  }

  predicate OwnStep(a: Action, u: nat) {
    (a.Send? || a.Evict?) && a.t == u
  }

  function OwnSteps(actions: seq<Action>, u: nat): nat {
    if actions == [] then 0 else (if OwnStep(actions[0], u) then 1 else 0) + OwnSteps(actions[1..], u)
  }

  lemma {:induction false} LoadDependsOnWork(p: seq<Batch>, q: seq<Batch>, work: seq<nat>)
    requires forall i | 0 <= i < |work| :: work[i] < |p| && work[i] < |q| && Rest(p[work[i]]) == Rest(q[work[i]])
    ensures Load(p, work) == Load(q, work)
  {
    if work != [] {
      forall i | 0 <= i < |work[1..]|
        ensures work[1..][i] < |p| && work[1..][i] < |q| && Rest(p[work[1..][i]]) == Rest(q[work[1..][i]])
      {
        assert work[1..][i] == work[i + 1];
      }
      LoadDependsOnWork(p, q, work[1..]);
    }
  }

  /** What `u` still has to send is not touched by the step. */
  predicate WorkUntouched(s: State, s': State, u: nat)
    requires u in s.tasks
  {
    var work := Work(s.tasks[u].phase);
    forall i | 0 <= i < |work| ::
      work[i] < |s.batches| && work[i] < |s'.batches| && s'.batches[work[i]] == s.batches[work[i]]
  }

  lemma OthersLeaveLoad(s: State, a: Action, u: nat)
    requires WorkOk(s) && Enabled(s, a) && u in s.tasks && (a.Send? || a.Flush? ==> a.t != u)
    ensures WorkUntouched(s, Do(s, a), u)
  {
    WorkIsBatches(s, u);
    if a.Flush? {
      assert s.batches <= Do(s, a).batches;
    } else if a.Send? && s.tasks[a.t].phase.work != [] {
      var head, work := s.tasks[a.t].phase.work[0], Work(s.tasks[u].phase);
      assert Holds(s, a.t, 0, head);
      forall i: nat | i < |work|
        ensures work[i] != head
      {
        assert Holds(s, u, i, work[i]);
      }
    }
  }

  lemma TailUntouched(s: State, v: nat)
    requires WorkOk(s) && Enabled(s, Send(v)) && s.tasks[v].phase.work != []
    ensures var work, s' := s.tasks[v].phase.work, Do(s, Send(v));
            Load(s'.batches, work[1..]) == Load(s.batches, work[1..])
  {
    var work, s' := s.tasks[v].phase.work, Do(s, Send(v));
    assert Holds(s, v, 0, work[0]);
    forall i | 0 <= i < |work[1..]|
      ensures work[1..][i] < |s.batches| == |s'.batches| && s'.batches[work[1..][i]] == s.batches[work[1..][i]]
    {
      assert Holds(s, v, i + 1, work[i + 1]);
    }
    LoadDependsOnWork(s'.batches, s.batches, work[1..]);
  }

  lemma SendLightens(s: State, v: nat)
    requires WorkOk(s) && Enabled(s, Send(v)) && s.tasks[v].phase.work != []
    ensures v in Do(s, Send(v)).tasks && StepsLeft(Do(s, Send(v)), v) < StepsLeft(s, v)
  {
    var s', work := Do(s, Send(v)), s.tasks[v].phase.work;
    TailUntouched(s, v);
    var batch := s.batches[work[0]];
    if |batch.placed| < |batch.items| && HasRoom(s.channels[batch.conn]) {
      assert Rest(s'.batches[work[0]]) == Rest(batch)[1..];
    }
  }

  /** While `u` is in a flush each of its own steps brings it closer to the end, and no other step sets it back. */
  lemma StepLightens(s: State, a: Action, u: nat, t: nat)
    requires WorkOk(s) && Enabled(s, a) && Clutches(s, u, t) && Clutches(Do(s, a), u, t)
    ensures StepsLeft(Do(s, a), u) + (if OwnStep(a, u) then 1 else 0) <= StepsLeft(s, u)
  {
    if a == Send(u) {
      SendLightens(s, u);
    } else {
      OthersLeaveLoad(s, a, u);
      LoadDependsOnWork(Do(s, a).batches, s.batches, Work(s.tasks[u].phase));
      PhaseOnlyBySelf(s, a, u);
    }
  }

  lemma PhaseOnlyBySelf(s: State, a: Action, u: nat)
    requires Enabled(s, a) && u in s.tasks && (s.tasks[u].phase.Sending? || s.tasks[u].phase.Evicting?) && a != Send(u)
    ensures u in Do(s, a).tasks
    ensures Do(s, a).tasks[u].phase == if a == Evict(u) then Sending(s.tasks[u].phase.work) else s.tasks[u].phase
  {
    if a.Send? {
      SendServes(s, a.t);
    } else if a.Flush? {
      FlushServes(s, a.t);
    } else if a.Route? {
      OtherServes(s, a);
    }
  }

  lemma ClutchingHasStepsLeft(s: State, u: nat, t: nat)
    requires Clutches(s, u, t)
    ensures StepsLeft(s, u) > 0
  {
    if HasWorkFor(s.batches, Work(s.tasks[u].phase), t) {
      LoadPositive(s.batches, Work(s.tasks[u].phase), t);
    }
  }

  lemma {:induction false} LoadPositive(batches: seq<Batch>, work: seq<nat>, t: nat)
    requires HasWorkFor(batches, work, t)
    ensures Load(batches, work) > 0
  {
    if !HeadFor(batches, work, t) {
      var i :| 0 <= i < |work| && work[i] < |batches| && batches[work[i]].conn == t;
      assert work[1..][i - 1] == work[i];
      LoadPositive(batches, work[1..], t);
    }
  }

  // ---------- a connection that lost its handle is closed ----------

  /**
   However the run goes on, until the task of a connection that lost its handle has gone: the handle does not come
   back, only flushes that hold a clone of it now can hold one later, and each lets go within its own remaining steps.
   */
  lemma {:induction false} LostHandleIsLetGo(s: State, actions: seq<Action>, t: nat, u: nat)
    requires Owned(s) && Sound(s) && Lost(s, t) && EnabledRun(s, actions)
    ensures var s' := After(s, actions);
            && t in s'.tasks
            && (s'.tasks[t].phase.Gone?
                || (Lost(s', t)
                    && (Clutches(s', u, t) ==>
                          Clutches(s, u, t) && StepsLeft(s', u) + OwnSteps(actions, u) <= StepsLeft(s, u))))
    decreases |actions|
  {
    if actions != [] {
      var a := actions[0];
      var s1 := Do(s, a);
      StepKeepsOwned(s, a);
      StepKeepsSound(s, a);
      StepKeepsLost(s, a, t);
      if s1.tasks[t].phase.Gone? {
        GoneStaysGone(s1, actions[1..], t);
      } else {
        LostHandleIsLetGo(s1, actions[1..], t, u);
        if Clutches(s1, u, t) {
          StepGraspsNothing(s, a, u, t);
          StepLightens(s, a, u, t);
        }
      }
    }
  }

  /** Every flush that holds a clone of the handle of `t` has taken as many steps as it had left. */
  ghost predicate FlushesFinish(s: State, actions: seq<Action>, t: nat) {
    forall u | Clutches(s, u, t) :: OwnSteps(actions, u) >= StepsLeft(s, u)
  }

  /** So no connection is left hanging without its handle: once those flushes have run, its close channel is closed. */
  lemma LostConnectionIsClosed(s: State, actions: seq<Action>, t: nat)
    requires Owned(s) && Sound(s) && Lost(s, t) && EnabledRun(s, actions) && FlushesFinish(s, actions, t)
    ensures var s' := After(s, actions); t in s'.tasks && (s'.tasks[t].phase.Gone? || !HasSender(s', t))
  {
    var s' := After(s, actions);
    LostHandleIsLetGo(s, actions, t, t);
    SoundAlways(s, actions);
    if !s'.tasks[t].phase.Gone? {
      LostHasNoHandle(s', t);
      forall u
        ensures !Clutches(s', u, t)
      {
        LostHandleIsLetGo(s, actions, t, u);
        if Clutches(s', u, t) {
          ClutchingHasStepsLeft(s', u, t);
        }
      }
    }
  }

  // ---------- after the last sender is gone ----------

  /** No batch is on its way to a connection without senders. */
  lemma SenderlessAwaitsNothing(s: State, t: nat)
    requires WorkOk(s) && !HasSender(s, t)
    ensures forall b | 0 <= b < |s.batches| && Unfinished(s.batches[b]) :: s.batches[b].conn != t
  {
    forall b | 0 <= b < |s.batches| && Unfinished(s.batches[b])
      ensures s.batches[b].conn != t
    {
      assert Held(s, b);
      var u: nat, i: nat :| Holds(s, u, i, b);
      if s.batches[b].conn == t {
        assert Clutches(s, u, t);
      }
    }
  }

  lemma SendSkips(s: State, v: nat, t: nat)
    requires WorkOk(s) && Enabled(s, Send(v)) && t in s.channels
    requires forall b | 0 <= b < |s.batches| && Unfinished(s.batches[b]) :: s.batches[b].conn != t
    ensures t in Do(s, Send(v)).channels && Do(s, Send(v)).channels[t] == s.channels[t]
  {
    if s.tasks[v].phase.work != [] {
      assert Holds(s, v, 0, s.tasks[v].phase.work[0]);
    }
  }

  lemma StepReportsOnly(s: State, a: Action, t: nat)
    requires Owned(s) && WorkOk(s) && Enabled(s, a) && t in s.channels && t in s.tasks && !HasSender(s, t)
    ensures t in Do(s, a).channels && OnlyReported(s.channels[t], Do(s, a).channels[t])
  {
    if a.Send? {
      SenderlessAwaitsNothing(s, t);
      SendSkips(s, a.t, t);
    } else if a.Report? {
      ReportShape(s, a.t, a.message);
    } else {
      OthersKeepItems(s, a, t);
    }
  }

  lemma OthersKeepItems(s: State, a: Action, t: nat)
    requires Owned(s) && Enabled(s, a) && t in s.channels && t in s.tasks && !a.Send? && !a.Report?
    ensures t in Do(s, a).channels && Do(s, a).channels[t].items == s.channels[t].items
  {
    if a.Flush? {
      assert Do(s, a).channels == s.channels;
    }
  }

  lemma StepGivesNoSender(s: State, a: Action, t: nat)
    requires Owned(s) && Sound(s) && Lost(s, t) && !HasSender(s, t) && Enabled(s, a)
    ensures var s' := Do(s, a); t in s'.tasks && (s'.tasks[t].phase.Gone? || (Lost(s', t) && !HasSender(s', t)))
  {
    var s' := Do(s, a);
    StepKeepsOwned(s, a);
    StepKeepsLost(s, a, t);
    if !s'.tasks[t].phase.Gone? {
      LostHasNoHandle(s', t);
      forall u
        ensures !Clutches(s', u, t)
      {
        if Clutches(s', u, t) {
          StepGraspsNothing(s, a, u, t);
        }
      }
    }
  }

  /** A closed close channel stays closed until the task has gone, and nothing routed arrives meanwhile. */
  lemma {:induction false} ClosedStaysClosed(s: State, actions: seq<Action>, t: nat)
    requires Owned(s) && Sound(s) && Lost(s, t) && !HasSender(s, t) && EnabledRun(s, actions)
    ensures var s' := After(s, actions);
            && t in s'.tasks
            && (s'.tasks[t].phase.Gone?
                || (Lost(s', t) && !HasSender(s', t) && OnlyReported(s.channels[t], s'.channels[t])))
    decreases |actions|
  {
    if actions != [] {
      var a := actions[0];
      var s1 := Do(s, a);
      StepKeepsOwned(s, a);
      StepKeepsSound(s, a);
      StepGivesNoSender(s, a, t);
      StepReportsOnly(s, a, t);
      if s1.tasks[t].phase.Gone? {
        GoneStaysGone(s1, actions[1..], t);
      } else {
        ClosedStaysClosed(s1, actions[1..], t);
        if !After(s, actions).tasks[t].phase.Gone? {
          ReportedTwice(s.channels[t], s1.channels[t], After(s, actions).channels[t]);
        }
      }
    }
  }

  lemma ReportedTwice(p: Channel, q: Channel, r: Channel)
    requires OnlyReported(p, q) && OnlyReported(q, r)
    ensures OnlyReported(p, r)
  {
    assert forall i | 0 <= i < |q.items| :: r.items[i] == q.items[i];
  }

  // ---------- what eviction by client id gets wrong ----------

  /** A served, registered, reading connection refused nothing, and yet its handle and every clone of it are gone. */
  ghost predicate ClosedUnasked(s: State, t: nat, c: ClientId) {
    && t in s.tasks && s.tasks[t] == Task(c, Serving) && c in s.outboxes
    && t in s.channels && s.channels[t] == Channel([], 0, true) && !Refused(s, t)
    && Lost(s, t) && !HasSender(s, t)
  }

  /**
   A flush that outlives the connection it drained for evicts by client id, so it can take the handle of the client's
   new connection, and with it the last sender: a connection that has room and refused nothing is closed.
   */
  lemma StaleFlushClosesNewConnection(a: ClientId, c: ClientId, key: PublicKey)
    requires a != c
    ensures exists s :: Reachable(s) && ClosedUnasked(s, 3, c) && !Attached(s)
  {
    var s0 := PoisedIsReachable(a, c, key);
    var s1 := ReplacedIsReachable(s0, a, c);
    var s2 := Evicts(s1, 2, 0);
    ReachableIsSound(s2);
    assert s2.tasks[3] == Task(c, Serving) && s2.told == {1};
    assert !Deliverable(s2, 3);
    LostHasNoHandle(s2, 3);
    assert forall u | u in s2.tasks :: Work(s2.tasks[u].phase) == [] && !s2.tasks[u].phase.Evicting?;
    assert ClosedUnasked(s2, 3, c);
  }
}
