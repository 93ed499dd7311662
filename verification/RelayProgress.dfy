/** A connection task is never stuck: by its own steps it deals with each event and serves again. */
module RelayProgress {
  import opened Types
  import opened Events
  import opened Router
  import opened Relay
  import opened RelayOwnership
  import opened RelayBatches
  import opened RelayClosing

  /** Task `t` gets from `s` to `s'` by steps of its own. */
  ghost predicate ByItself(s: State, s': State, t: nat) {
    exists run :: EnabledRun(s, run) && Own(run, t) && After(s, run) == s'
  }

  predicate Own(run: seq<Action>, t: nat) {
    forall i | 0 <= i < |run| :: run[i].t == t
  }

  lemma StaysByItself(s: State, t: nat)
    ensures ByItself(s, s, t)
  {
    assert EnabledRun(s, []) && Own([], t) && After(s, []) == s;
  }

  lemma OneMoreByItself(s: State, s': State, a: Action)
    requires ByItself(s, s', a.t) && Enabled(s', a)
    ensures ByItself(s, Do(s', a), a.t)
  {
    var run :| EnabledRun(s, run) && Own(run, a.t) && After(s, run) == s';
    RunExtends(s, run, a);
    assert Own(run + [a], a.t);
  }

  /** Registration succeeds if and only if the id is free; otherwise the task goes and nothing else changes. */
  lemma JoinsIffFree(s: State, t: nat)
    requires Enabled(s, Join(t))
    ensures var s', c := Do(s, Join(t)), s.tasks[t].client;
            if c in s.outboxes then s' == s.(tasks := s.tasks[t := Task(c, Gone)])
            else s' == s.(tasks := s.tasks[t := Task(c, Joined)], outboxes := s.outboxes[c := []])
  {
  }

  /** A refused event leaves the queues alone and is to be reported; an accepted one is flushed to all it concerns. */
  lemma RoutedOrRefused(s: State, t: nat, event: WireEvent)
    requires Enabled(s, Route(t, event))
    ensures var s', c := Do(s, Route(t, event)), s.tasks[t].client;
            var verdict := Verdict(s.outboxes.Keys, c, event);
            && s'.tasks.Keys == s.tasks.Keys && s'.tasks[t].client == c
            && (verdict.Err? ==> s'.tasks[t].phase == Refused(event, verdict.error) && s'.outboxes == s.outboxes)
            && (verdict.Ok? ==>
                  && s'.tasks[t].phase.Accepted?
                  && forall d :: d in s'.tasks[t].phase.targets <==> Meaning(Entry(c, event), d) != [])
  {
  }

  /** Only the outboxes of those whose handle is in the map, and who are among the targets, are emptied. */
  lemma {:induction false} DrainAllEmpties(s: State, targets: seq<ClientId>, d: ClientId)
    requires d in s.outboxes
    ensures d in DrainAll(s, targets).outboxes
    ensures DrainAll(s, targets).outboxes[d] == if d in targets && d in s.connections then [] else s.outboxes[d]
    decreases |targets|
  {
    if targets != [] {
      DrainAllEmpties(DrainOne(s, targets[0]), targets[1..], d);
    }
  }

  /** Sending and evicting leave the outboxes alone. */
  lemma SendKeepsOutboxes(s: State, t: nat)
    requires Enabled(s, Send(t))
    ensures Do(s, Send(t)).outboxes == s.outboxes
  {
  }

  lemma CanSendOn(s: State, t: nat)
    requires Owned(s) && Sound(s) && t in s.tasks && s.tasks[t].phase.Sending?
    ensures Enabled(s, Send(t))
  {
    var work := s.tasks[t].phase.work;
    if work != [] {
      assert Holds(s, t, 0, work[0]);
      assert BatchOk(s, s.batches[work[0]]);
    }
  }

  lemma EvictLightens(s: State, t: nat)
    requires Enabled(s, Evict(t))
    ensures var s' := Do(s, Evict(t));
            && t in s'.tasks && s'.tasks[t].phase.Sending? && StepsLeft(s', t) < StepsLeft(s, t)
            && s'.outboxes == s.outboxes
  {
  }

  lemma SendStaysInFlush(s: State, t: nat)
    requires Enabled(s, Send(t))
    ensures var s' := Do(s, Send(t));
            && t in s'.tasks
            && if s.tasks[t].phase.work == [] then s' == s.(tasks := s.tasks[t := Task(s.tasks[t].client, Serving)])
               else s'.tasks[t].phase.Sending? || s'.tasks[t].phase.Evicting?
  {
  }

  /** A flush comes to its end by its own steps, whatever its channels are like. */
  lemma {:induction false} FlushEnds(s0: State, s: State, t: nat) returns (s': State)
    requires Owned(s) && Sound(s) && ByItself(s0, s, t)
    requires t in s.tasks && (s.tasks[t].phase.Sending? || s.tasks[t].phase.Evicting?)
    ensures ByItself(s0, s', t) && t in s'.tasks && s'.tasks[t].phase.Serving? && s'.outboxes == s.outboxes
    decreases StepsLeft(s, t)
  {
    if s.tasks[t].phase.Evicting? {
      assert Owns(s, t, s.tasks[t].client);
      EvictLightens(s, t);
      OneMoreByItself(s0, s, Evict(t));
      StepKeepsOwned(s, Evict(t));
      StepKeepsSound(s, Evict(t));
      s' := FlushEnds(s0, Do(s, Evict(t)), t);
    } else {
      CanSendOn(s, t);
      SendStaysInFlush(s, t);
      SendKeepsOutboxes(s, t);
      OneMoreByItself(s0, s, Send(t));
      if s.tasks[t].phase.work == [] {
        s' := Do(s, Send(t));
      } else {
        SendLightens(s, t);
        StepKeepsOwned(s, Send(t));
        StepKeepsSound(s, Send(t));
        s' := FlushEnds(s0, Do(s, Send(t)), t);
      }
    }
  }

  lemma FlushBegins(s: State, t: nat)
    requires Enabled(s, Flush(t))
    ensures var s' := Do(s, Flush(t));
            && t in s'.tasks && s'.tasks[t].phase.Sending?
            && s'.outboxes == DrainAll(s, s.tasks[t].phase.targets).outboxes
  {
  }

  /** Every client the event concerns whose handle is in the map of `s` has nothing waiting in `s'`. */
  predicate AllFlushed(s: State, s': State, from: ClientId, event: WireEvent) {
    forall d | d in s.connections && d in s'.outboxes && Meaning(Entry(from, event), d) != [] :: s'.outboxes[d] == []
  }

  /**
   A serving task deals with any event by its own steps alone, however full its peers' channels are: it serves again,
   and if the event was accepted then nothing waits for a client it concerns that has a handle.
   */
  lemma EveryEventIsHandled(s: State, t: nat, event: WireEvent, message: string) returns (s': State)
    requires Owned(s) && Sound(s) && Enabled(s, Route(t, event))
    ensures ByItself(s, s', t) && t in s'.tasks && s'.tasks[t].phase.Serving?
    ensures Verdict(s.outboxes.Keys, s.tasks[t].client, event).Ok? ==> AllFlushed(s, s', s.tasks[t].client, event)
    ensures Verdict(s.outboxes.Keys, s.tasks[t].client, event).Err? ==> s'.outboxes == s.outboxes
  {
    var s1 := Do(s, Route(t, event));
    StaysByItself(s, t);
    OneMoreByItself(s, s, Route(t, event));
    RoutedOrRefused(s, t, event);
    StepKeepsOwned(s, Route(t, event));
    StepKeepsSound(s, Route(t, event));
    if s1.tasks[t].phase.Refused? {
      OneMoreByItself(s, s1, Report(t, message));
      s' := Do(s1, Report(t, message));
      ReportedIff(s1, t, message);
    } else {
      s' := FlushesAccepted(s, s1, t);
      assert s1.connections == s.connections;
      forall d | d in s.connections && d in s'.outboxes && Meaning(Entry(s.tasks[t].client, event), d) != []
        ensures s'.outboxes[d] == []
      {
        assert d in s1.tasks[t].phase.targets;
      }
    }
  }

  lemma FlushesAccepted(s0: State, s: State, t: nat) returns (s': State)
    requires Owned(s) && Sound(s) && ByItself(s0, s, t) && Enabled(s, Flush(t))
    ensures ByItself(s0, s', t) && t in s'.tasks && s'.tasks[t].phase.Serving?
    ensures forall d | d in s'.outboxes && d in s.connections && d in s.tasks[t].phase.targets :: s'.outboxes[d] == []
  {
    var s1 := Do(s, Flush(t));
    FlushBegins(s, t);
    OneMoreByItself(s0, s, Flush(t));
    StepKeepsOwned(s, Flush(t));
    StepKeepsSound(s, Flush(t));
    s' := FlushEnds(s0, s1, t);
    forall d | d in s'.outboxes && d in s.connections && d in s.tasks[t].phase.targets
      ensures s'.outboxes[d] == []
    {
      DrainAllEmpties(s, s.tasks[t].phase.targets, d);
    }
  }
}
