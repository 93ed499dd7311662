/** Who owns a client id: over every interleaving, at most one connection task, and its handle only while it serves. */
module RelayOwnership {
  import opened Types
  import opened Relay

  /** Phases in which the task's client is in the router because this task put it there. */
  predicate Holding(p: Phase) { !p.Greeted? && !p.Gone? }

  /** Phases in which the task's handle may be in the connection map. */
  predicate Listed(p: Phase) { Holding(p) && !p.Joined? && !p.Withdrawn? }

  predicate Owns(s: State, t: nat, c: ClientId) {
    t in s.tasks && s.tasks[t].client == c && Holding(s.tasks[t].phase)
  }

  ghost predicate Owned(s: State) {
    && s.channels.Keys == s.tasks.Keys
    && (forall t, c | Owns(s, t, c) :: c in s.outboxes)
    && (forall t, u, c | Owns(s, t, c) && Owns(s, u, c) :: t == u)
    && (forall c | c in s.outboxes :: exists t :: Owns(s, t, c))
    && (forall c | c in s.connections :: Owns(s, s.connections[c], c) && Listed(s.tasks[s.connections[c]].phase))
  }

  /** A step that changes one task's phase within the same class, and at most drops handles. */
  lemma PhaseChangeKeepsOwned(s: State, s': State, t: nat)
    requires Owned(s) && t in s.tasks && t in s'.tasks
    requires s'.tasks == s.tasks[t := s'.tasks[t]] && s'.tasks[t].client == s.tasks[t].client
    requires s'.channels.Keys == s.channels.Keys && s'.outboxes.Keys == s.outboxes.Keys
    requires Holding(s'.tasks[t].phase) == Holding(s.tasks[t].phase)
    requires forall c | c in s'.connections :: c in s.connections && s'.connections[c] == s.connections[c]
    requires !Listed(s'.tasks[t].phase) ==> s.tasks[t].client !in s'.connections
    ensures Owned(s')
  {
    forall c | c in s'.outboxes
      ensures exists u :: Owns(s', u, c)
    {
      var u :| Owns(s, u, c);
      assert Owns(s', u, c);
    }
    forall u, c | Owns(s', u, c)
      ensures Owns(s, u, c)
    {
    }
  }

  lemma AcceptKeepsOwned(s: State, t: nat, client: ClientId)
    requires Owned(s) && Enabled(s, Accept(t, client))
    ensures Owned(Do(s, Accept(t, client)))
  {
    var s' := Do(s, Accept(t, client));
    forall c | c in s'.outboxes
      ensures exists u :: Owns(s', u, c)
    {
      var u :| Owns(s, u, c);
      assert Owns(s', u, c);
    }
    forall u, c | Owns(s', u, c)
      ensures Owns(s, u, c)
    {
    }
  }

  lemma JoinKeepsOwned(s: State, t: nat)
    requires Owned(s) && Enabled(s, Join(t))
    ensures Owned(Do(s, Join(t)))
  {
    var s', client := Do(s, Join(t)), s.tasks[t].client;
    if client in s.outboxes {
      assert client !in s.connections || s.connections[client] != t;
    }
    forall c | c in s'.outboxes
      ensures exists u :: Owns(s', u, c)
    {
      if c == client && client !in s.outboxes {
        assert Owns(s', t, c);
      } else {
        var u :| Owns(s, u, c);
        assert Owns(s', u, c);
      }
    }
    forall u, c | Owns(s', u, c)
      ensures Owns(s, u, c) || (u == t && c == client && client !in s.outboxes)
    {
    }
  }

  lemma PublishKeepsOwned(s: State, t: nat)
    requires Owned(s) && Enabled(s, Publish(t))
    ensures Owned(Do(s, Publish(t)))
  {
    var s' := Do(s, Publish(t));
    forall c | c in s'.outboxes
      ensures exists u :: Owns(s', u, c)
    {
      var u :| Owns(s, u, c);
      assert Owns(s', u, c);
    }
    forall u, c | Owns(s', u, c)
      ensures Owns(s, u, c)
    {
    }
    assert Owns(s, t, s.tasks[t].client);
  }

  lemma DisconnectKeepsOwned(s: State, t: nat)
    requires Owned(s) && Enabled(s, Disconnect(t))
    ensures Owned(Do(s, Disconnect(t)))
  {
    var s', client := Do(s, Disconnect(t)), s.tasks[t].client;
    assert Owns(s, t, client);
    forall c | c in s'.outboxes
      ensures exists u :: Owns(s', u, c)
    {
      var u :| Owns(s, u, c);
      assert Owns(s', u, c);
    }
    forall u, c | Owns(s', u, c)
      ensures Owns(s, u, c) && c != client
    {
      assert Owns(s, u, c);
      assert c == client ==> u == t;
    }
  }

  lemma WriterKeepsOwned(s: State, s': State)
    requires Owned(s) && s' == s.(channels := s'.channels) && s'.channels.Keys == s.channels.Keys
    ensures Owned(s')
  {
    forall t, c
      ensures Owns(s', t, c) == Owns(s, t, c)
    {
    }
    forall c | c in s'.outboxes
      ensures exists u :: Owns(s', u, c)
    {
      var u :| Owns(s, u, c);
      assert Owns(s', u, c);
    }
  }

  /** What routing, reporting, flushing, sending, evicting and ending change, as far as ownership goes. */
  predicate Serves(s: State, s': State, t: nat) {
    && t in s.tasks && t in s'.tasks
    && s'.tasks == s.tasks[t := s'.tasks[t]] && s'.tasks[t].client == s.tasks[t].client
    && s'.channels.Keys == s.channels.Keys && s'.outboxes.Keys == s.outboxes.Keys
    && Listed(s.tasks[t].phase) && Listed(s'.tasks[t].phase)
    && s'.connections.Keys <= s.connections.Keys
    && forall c | c in s'.connections :: s'.connections[c] == s.connections[c]
  }

  lemma FlushServes(s: State, t: nat)
    requires Enabled(s, Flush(t))
    ensures Serves(s, Do(s, Flush(t)), t)
  {
  }

  lemma SendServes(s: State, t: nat)
    requires Enabled(s, Send(t))
    ensures Serves(s, Do(s, Send(t)), t)
  {
  }

  lemma OtherServes(s: State, a: Action)
    requires Enabled(s, a) && (a.Route? || a.Report? || a.Evict? || a.End?)
    ensures Serves(s, Do(s, a), a.t)
  {
  }

  lemma StepKeepsOwned(s: State, a: Action)
    requires Owned(s) && Enabled(s, a)
    ensures Owned(Do(s, a))
  {
    match a
    case Accept(t, client) => AcceptKeepsOwned(s, t, client);
    case Join(t) => JoinKeepsOwned(s, t);
    case Publish(t) => PublishKeepsOwned(s, t);
    case Disconnect(t) => DisconnectKeepsOwned(s, t);
    case Withdraw(t) => PhaseChangeKeepsOwned(s, Do(s, a), t);
    case WriterTakes(_) => WriterKeepsOwned(s, Do(s, a));
    case WriterStops(_) => WriterKeepsOwned(s, Do(s, a));
    case Flush(t) =>
      FlushServes(s, t);
      PhaseChangeKeepsOwned(s, Do(s, a), t);
    case Send(t) =>
      SendServes(s, t);
      PhaseChangeKeepsOwned(s, Do(s, a), t);
    case _ =>
      OtherServes(s, a);
      PhaseChangeKeepsOwned(s, Do(s, a), a.t);
  }

  lemma {:induction false} OwnedAlways(s: State, actions: seq<Action>)
    requires Owned(s) && EnabledRun(s, actions)
    ensures Owned(After(s, actions))
    decreases |actions|
  {
    if actions != [] {
      StepKeepsOwned(s, actions[0]);
      OwnedAlways(Do(s, actions[0]), actions[1..]);
    }
  }

  /**
   In every interleaving each id in the router belongs to exactly one task, and each id in the connection map is in
   the router under the handle of its present owner.
   */
  lemma ExactlyOneOwner(actions: seq<Action>)
    requires EnabledRun(EMPTY, actions)
    ensures var s := After(EMPTY, actions);
            && (forall c | c in s.outboxes :: exists t :: Owns(s, t, c) && forall u | Owns(s, u, c) :: u == t)
            && (forall t, c | Owns(s, t, c) :: c in s.outboxes)
            && (forall c | c in s.connections :: c in s.outboxes && Owns(s, s.connections[c], c))
  {
    OwnedAlways(EMPTY, actions);
    var s := After(EMPTY, actions);
    forall c | c in s.outboxes
      ensures exists t :: Owns(s, t, c) && forall u | Owns(s, u, c) :: u == t
    {
      var t :| Owns(s, t, c);
      assert forall u | Owns(s, u, c) :: u == t;
    }
  }
}
