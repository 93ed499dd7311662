/** Exactly when channel order can be lost: from every state reached in order, by every flush. */
module RelayDisorder {
  import opened Types
  import opened Relay
  import opened RelayOwnership
  import opened RelayConservation
  import opened RelayBatches
  import opened RelayOrder

  // ---------- continuations without a further flush ----------

  predicate NoFlush(run: seq<Action>) {
    forall i | 0 <= i < |run| :: !run[i].Flush?
  }

  ghost predicate Leads(s: State, s': State) {
    exists run :: EnabledRun(s, run) && NoFlush(run) && After(s, run) == s'
  }

  lemma LeadsToItself(s: State)
    ensures Leads(s, s)
  {
    assert EnabledRun(s, []) && NoFlush([]) && After(s, []) == s;
  }

  lemma LeadsOn(s: State, s': State, a: Action)
    requires Leads(s, s') && Enabled(s', a) && !a.Flush?
    ensures Leads(s, Do(s', a))
  {
    var run :| EnabledRun(s, run) && NoFlush(run) && After(s, run) == s';
    RunExtends(s, run, a);
    assert NoFlush(run + [a]);
  }

  predicate AllInOrder(s: State) {
    forall t | t in s.channels :: InAcceptanceOrder(s.channels[t].items)
  }

  /** What has already been drained can still arrive out of order. */
  ghost predicate CanMisorder(s: State) {
    exists s' :: Leads(s, s') && !AllInOrder(s')
  }

  lemma {:induction false} CalmRunIsOrderly(s: State, run: seq<Action>)
    requires EnabledRun(s, run) && NoFlush(run)
    ensures OrderlyRun(s, run)
    decreases |run|
  {
    if run != [] {
      assert !run[0].Flush?;
      assert NoFlush(run[1..]);
      CalmRunIsOrderly(Do(s, run[0]), run[1..]);
    }
  }

  lemma LinedCannotMisorder(s: State)
    requires Inv(s) && Lined(s)
    ensures !CanMisorder(s)
  {
    forall s' | Leads(s, s')
      ensures AllInOrder(s')
    {
      var run :| EnabledRun(s, run) && NoFlush(run) && After(s, run) == s';
      CalmRunIsOrderly(s, run);
      OrderlyRunsStayLined(s, run);
    }
  }

  // ---------- what a flush drains ----------

  function BatchFor(s: State, c: ClientId): Batch
    requires Drainable(s, c)
  {
    Batch(s.connections[c], c, s.outboxes[c], [], false)
  }

  /** New batches are whole outboxes of drainable targets, one for each. */
  ghost predicate Drained(s: State, s': State, targets: seq<ClientId>) {
    && s.batches <= s'.batches
    && (forall m | |s.batches| <= m < |s'.batches| ::
          Drainable(s, s'.batches[m].client) && s'.batches[m] == BatchFor(s, s'.batches[m].client))
    && (forall m, n | |s.batches| <= m < n < |s'.batches| :: s'.batches[m].client != s'.batches[n].client)
    && (forall c | c in targets && Drainable(s, c) :: HasBatch(s'.batches[|s.batches|..], c))
  }

  predicate HasBatch(batches: seq<Batch>, c: ClientId) {
    exists m | 0 <= m < |batches| :: batches[m].client == c
  }

  lemma {:induction false} DrainAllDrains(s: State, targets: seq<ClientId>)
    ensures Drained(s, DrainAll(s, targets), targets)
    decreases |targets|
  {
    if targets != [] {
      DrainAllDrains(DrainOne(s, targets[0]), targets[1..]);
      DrainedAfterOne(s, DrainAll(s, targets), targets);
    }
  }

  lemma DrainedAfterOne(s: State, s': State, targets: seq<ClientId>)
    requires targets != [] && Drained(DrainOne(s, targets[0]), s', targets[1..])
    ensures Drained(s, s', targets)
  {
    var first := targets[0];
    var s1 := DrainOne(s, first);
    if Drainable(s, first) {
      NewBatchFirst(s, s1, s', first);
    } else {
      assert s1 == s;
    }
    forall c | c in targets && Drainable(s, c)
      ensures HasBatch(s'.batches[|s.batches|..], c)
    {
      if c != first {
        assert c in targets[1..] && Drainable(s1, c);
        HasBatchFurtherBack(s'.batches, |s.batches|, |s1.batches|, c);
      }
    }
  }

  lemma HasBatchFurtherBack(batches: seq<Batch>, lo: nat, hi: nat, c: ClientId)
    requires lo <= hi <= |batches| && HasBatch(batches[hi..], c)
    ensures HasBatch(batches[lo..], c)
  {
    var m :| 0 <= m < |batches[hi..]| && batches[hi..][m].client == c;
    assert batches[lo..][m + hi - lo].client == c;
  }

  /** The first target's batch, then batches of clients that were still drainable after it. */
  lemma NewBatchFirst(s: State, s1: State, s': State, first: ClientId)
    requires Drainable(s, first) && s1 == DrainOne(s, first) && s1.batches <= s'.batches
    requires forall m | |s1.batches| <= m < |s'.batches| ::
               Drainable(s1, s'.batches[m].client) && s'.batches[m] == BatchFor(s1, s'.batches[m].client)
    ensures s.batches <= s'.batches && HasBatch(s'.batches[|s.batches|..], first)
    ensures forall m | |s.batches| <= m < |s'.batches| ::
              Drainable(s, s'.batches[m].client) && s'.batches[m] == BatchFor(s, s'.batches[m].client)
    ensures s'.batches[|s.batches|].client == first
    ensures forall m | |s.batches| < m < |s'.batches| :: s'.batches[m].client != first
  {
    assert s'.batches[|s.batches|] == s1.batches[|s.batches|] == BatchFor(s, first);
    assert s'.batches[|s.batches|..][0].client == first;
  }

  // ---------- a flush gets past the batches before a given one ----------

  /** Task `u` is past the first `n` batches of its work list; connection `q` and every other batch are untouched. */
  predicate Passed(s: State, s': State, u: nat, q: nat, n: nat) {
    && u in s.tasks && s.tasks[u].phase.Sending? && n <= |s.tasks[u].phase.work|
    && s'.tasks == s.tasks[u := s.tasks[u].(phase := Sending(s.tasks[u].phase.work[n..]))]
    && s'.channels.Keys == s.channels.Keys && q in s.channels && s'.channels[q] == s.channels[q]
    && |s'.batches| == |s.batches|
    && (forall m | 0 <= m < |s.batches| && m !in s.tasks[u].phase.work[..n] :: s'.batches[m] == s.batches[m])
  }

  /** The first batch in the work of `u` is not one that would still reach connection `q`. */
  predicate HeadApart(s: State, u: nat, q: nat) {
    && u in s.tasks && s.tasks[u].phase.Sending? && s.tasks[u].phase.work != []
    && s.tasks[u].phase.work[0] < |s.batches|
    && Apart(s.batches[s.tasks[u].phase.work[0]], q)
  }

  predicate Apart(b: Batch, q: nat) {
    Unfinished(b) ==> b.conn != q
  }

  /** A sending task can always send. */
  lemma CanSend(s: State, u: nat)
    requires Owned(s) && Sound(s) && u in s.tasks && s.tasks[u].phase.Sending?
    ensures Enabled(s, Send(u))
    ensures var work := s.tasks[u].phase.work; work != [] ==> !s.batches[work[0]].cut
  {
    var work := s.tasks[u].phase.work;
    if work != [] {
      assert Holds(s, u, 0, work[0]);
      assert BatchOk(s, s.batches[work[0]]);
    }
  }

  /** The head of the work is finished: the task moves on. */
  lemma SkipHead(s: State, u: nat, q: nat)
    requires Enabled(s, Send(u)) && HeadApart(s, u, q) && q in s.channels
    requires var head := s.batches[s.tasks[u].phase.work[0]]; |head.placed| == |head.items|
    ensures Passed(s, Do(s, Send(u)), u, q, 1)
  {
  }

  /** The head of the work has an item left and there is room: it goes to another connection than `q`. */
  lemma PlaceHead(s: State, u: nat, q: nat)
    requires Enabled(s, Send(u)) && HeadApart(s, u, q) && q in s.channels
    requires Unfinished(s.batches[s.tasks[u].phase.work[0]])
    requires HasRoom(s.channels[s.batches[s.tasks[u].phase.work[0]].conn])
    ensures var s', b := Do(s, Send(u)), s.tasks[u].phase.work[0];
            && s'.tasks == s.tasks && s'.channels.Keys == s.channels.Keys && s'.channels[q] == s.channels[q]
            && |s'.batches| == |s.batches|
            && (forall m | 0 <= m < |s.batches| && m != b :: s'.batches[m] == s.batches[m])
            && s'.batches[b].conn == s.batches[b].conn && s'.batches[b].items == s.batches[b].items
            && |s'.batches[b].placed| == |s.batches[b].placed| + 1
  {
  }

  /** The head of the work has an item left and there is no room: it is cut and its connection evicted. */
  lemma CutHead(s: State, u: nat, q: nat)
    requires Enabled(s, Send(u)) && HeadApart(s, u, q) && q in s.channels
    requires Unfinished(s.batches[s.tasks[u].phase.work[0]])
    requires !HasRoom(s.channels[s.batches[s.tasks[u].phase.work[0]].conn])
    ensures Enabled(Do(s, Send(u)), Evict(u))
    ensures var s' := Do(Do(s, Send(u)), Evict(u));
            Passed(s, s', u, q, 1) && !Unfinished(s'.batches[s.tasks[u].phase.work[0]])
  {
    var s1 := Do(s, Send(u));
    var s' := Do(s1, Evict(u));
    assert s'.tasks == s.tasks[u := s.tasks[u].(phase := Sending(s.tasks[u].phase.work[1..]))];
  }

  lemma LeadsKeepsFit(s: State, s': State)
    requires Owned(s) && Sound(s) && Leads(s, s')
    ensures Owned(s') && Sound(s')
  {
    var run :| EnabledRun(s, run) && NoFlush(run) && After(s, run) == s';
    SoundAlways(s, run);
  }

  lemma {:induction false} PassHead(s0: State, s: State, u: nat, q: nat) returns (s': State)
    requires Owned(s0) && Sound(s0) && Leads(s0, s) && HeadApart(s, u, q) && q in s.channels
    ensures Leads(s0, s') && Passed(s, s', u, q, 1) && !Unfinished(s'.batches[s.tasks[u].phase.work[0]])
    decreases |s.batches[s.tasks[u].phase.work[0]].items| - |s.batches[s.tasks[u].phase.work[0]].placed|
  {
    var batch := s.batches[s.tasks[u].phase.work[0]];
    LeadsKeepsFit(s0, s);
    CanSend(s, u);
    LeadsOn(s0, s, Send(u));
    s' := Do(s, Send(u));
    if |batch.placed| == |batch.items| {
      SkipHead(s, u, q);
    } else if HasRoom(s.channels[batch.conn]) {
      PlaceHead(s, u, q);
      var s1 := s';
      s' := PassHead(s0, s1, u, q);
      PassedSinceEqual(s, s1, s', u, q);
    } else {
      CutHead(s, u, q);
      LeadsOn(s0, s', Evict(u));
      s' := Do(s', Evict(u));
    }
  }

  lemma PassedSinceEqual(s: State, s1: State, s': State, u: nat, q: nat)
    requires Passed(s1, s', u, q, 1) && s1.tasks == s.tasks
    requires q in s.channels && s1.channels.Keys == s.channels.Keys && s1.channels[q] == s.channels[q]
    requires |s1.batches| == |s.batches|
    requires forall m | 0 <= m < |s.batches| && m != s.tasks[u].phase.work[0] :: s1.batches[m] == s.batches[m]
    ensures Passed(s, s', u, q, 1)
  {
    var work := s.tasks[u].phase.work;
    assert work[..1] == [work[0]];
  }

  /** None of the first `n` batches in the work of `u` would still reach connection `q`. */
  predicate PrefixApart(s: State, u: nat, q: nat, n: nat) {
    && u in s.tasks && s.tasks[u].phase.Sending? && n <= |s.tasks[u].phase.work|
    && forall i | 0 <= i < n ::
         s.tasks[u].phase.work[i] < |s.batches| && Apart(s.batches[s.tasks[u].phase.work[i]], q)
  }

  lemma PassOne(s0: State, s: State, u: nat, q: nat, n: nat) returns (s': State)
    requires Owned(s0) && Sound(s0) && Leads(s0, s) && PrefixApart(s, u, q, n) && q in s.channels && n > 0
    ensures Leads(s0, s') && Passed(s, s', u, q, 1) && PrefixApart(s', u, q, n - 1)
  {
    HeadOfPrefix(s, u, q, n);
    s' := PassHead(s0, s, u, q);
    PrefixStaysApart(s, s', u, q, n);
  }

  lemma {:induction false} PassPrefix(s0: State, s: State, u: nat, q: nat, n: nat) returns (s': State)
    requires Owned(s0) && Sound(s0) && Leads(s0, s) && PrefixApart(s, u, q, n) && q in s.channels
    ensures Leads(s0, s') && Passed(s, s', u, q, n)
    decreases n
  {
    if n == 0 {
      s' := s;
      PassedNone(s, u, q);
    } else {
      var s1 := PassOne(s0, s, u, q, n);
      s' := PassPrefix(s0, s1, u, q, n - 1);
      PassedOnward(s, s1, s', u, q, n);
    }
  }

  lemma HeadOfPrefix(s: State, u: nat, q: nat, n: nat)
    requires PrefixApart(s, u, q, n) && n > 0
    ensures HeadApart(s, u, q)
  {
  }

  lemma PassedNone(s: State, u: nat, q: nat)
    requires u in s.tasks && s.tasks[u].phase.Sending? && q in s.channels
    ensures Passed(s, s, u, q, 0)
  {
    assert s.tasks[u].phase.work[0..] == s.tasks[u].phase.work;
    assert s.tasks == s.tasks[u := s.tasks[u].(phase := Sending(s.tasks[u].phase.work[0..]))];
  }

  lemma PrefixStaysApart(s: State, s1: State, u: nat, q: nat, n: nat)
    requires n > 0 && PrefixApart(s, u, q, n) && Passed(s, s1, u, q, 1)
    requires !Unfinished(s1.batches[s.tasks[u].phase.work[0]])
    ensures PrefixApart(s1, u, q, n - 1)
  {
    var work := s.tasks[u].phase.work;
    assert work[..1] == [work[0]];
    forall i | 0 <= i < n - 1
      ensures s1.tasks[u].phase.work[i] < |s1.batches| && Apart(s1.batches[s1.tasks[u].phase.work[i]], q)
    {
      assert s1.tasks[u].phase.work[i] == work[i + 1];
    }
  }

  lemma PassedOnward(s: State, s1: State, s': State, u: nat, q: nat, n: nat)
    requires n > 0 && Passed(s, s1, u, q, 1) && Passed(s1, s', u, q, n - 1) && n <= |s.tasks[u].phase.work|
    ensures Passed(s, s', u, q, n)
  {
    var work := s.tasks[u].phase.work;
    assert work[1..][n - 1..] == work[n..];
    assert work[..n] == work[..1] + work[1..][..n - 1];
  }

  // ---------- two batches for one connection ----------

  /** Batches `b` and `k` are the only ones that would still reach connection `q`, which reads. */
  predicate Rivals(s: State, q: nat, b: nat, k: nat) {
    && b < |s.batches| && k < |s.batches| && b != k && Reading(s, q) && q in s.tasks
    && Unfinished(s.batches[b]) && s.batches[b].conn == q && Unfinished(s.batches[k]) && s.batches[k].conn == q
    && (forall m: nat | m < |s.batches| && m != b && m != k :: Apart(s.batches[m], q))
  }

  /** Two routed items, the second accepted before the first. */
  predicate Inverts(x: Item, y: Item) {
    !x.event.Error? && !y.event.Error? && y.n < x.n
  }

  lemma BackToBack(items: seq<Item>, x: Item, y: Item)
    requires Inverts(x, y)
    ensures !InAcceptanceOrder(items + [x] + [y])
  {
    var all, i, j := items + [x] + [y], |items|, |items| + 1;
    assert all[i] == x && all[j] == y;
  }

  /** What stands before `b` in the work of a task that does not hold `k` is apart from `q`. */
  lemma BeforeIsApart(s: State, u: nat, i: nat, q: nat, b: nat, k: nat)
    requires WorkOk(s) && Rivals(s, q, b, k) && Holds(s, u, i, b) && s.tasks[u].phase.Sending?
    requires forall j: nat :: !Holds(s, u, j, k)
    ensures PrefixApart(s, u, q, i)
    ensures b !in s.tasks[u].phase.work[..i] && k !in s.tasks[u].phase.work[..i]
  {
    var work := s.tasks[u].phase.work;
    forall j: nat | j < i
      ensures work[j] != b && work[j] != k && work[j] < |s.batches|
    {
      assert Holds(s, u, j, work[j]);
    }
  }

  /** A task that has just cut a batch goes on to send. */
  lemma Settle(s0: State, s: State, u: nat) returns (s': State)
    requires Owned(s0) && Sound(s0) && Leads(s0, s) && u in s.tasks && Work(s.tasks[u].phase) != []
    ensures Leads(s0, s')
    ensures s'.tasks == s.tasks[u := s.tasks[u].(phase := Sending(Work(s.tasks[u].phase)))]
    ensures s'.batches == s.batches && s'.channels == s.channels
  {
    s' := s;
    if s.tasks[u].phase.Evicting? {
      LeadsKeepsFit(s0, s);
      LeadsOn(s0, s, Evict(u));
      s' := Do(s, Evict(u));
    }
  }

  /** The writer of a reading connection empties its channel. */
  lemma {:induction false} MakeRoom(s0: State, s: State, q: nat) returns (s': State)
    requires Leads(s0, s) && q in s.tasks && Reading(s, q)
    ensures Leads(s0, s') && s'.channels.Keys == s.channels.Keys && s'.tasks == s.tasks && s'.batches == s.batches
    ensures s'.channels[q].reading && s'.channels[q].items == s.channels[q].items
    ensures |s'.channels[q].items| <= s'.channels[q].taken
    decreases |s.channels[q].items| - s.channels[q].taken
  {
    if s.channels[q].taken < |s.channels[q].items| {
      LeadsOn(s0, s, WriterTakes(q));
      s' := MakeRoom(s0, Do(s, WriterTakes(q)), q);
    } else {
      s' := s;
    }
  }

  /** Tasks `t` and `u` are about to send to the same empty connection `q`. */
  predicate Ready(s: State, t: nat, u: nat, q: nat, b: nat, k: nat) {
    && t in s.tasks && u in s.tasks && t in s.channels && u in s.channels && t != u
    && s.tasks[t].phase.Sending? && s.tasks[t].phase.work != [] && s.tasks[t].phase.work[0] == k
    && s.tasks[u].phase.Sending? && s.tasks[u].phase.work != [] && s.tasks[u].phase.work[0] == b
    && b < |s.batches| && k < |s.batches| && b != k
    && Unfinished(s.batches[b]) && s.batches[b].conn == q && Unfinished(s.batches[k]) && s.batches[k].conn == q
    && Reading(s, q) && |s.channels[q].items| <= s.channels[q].taken
  }

  lemma FirstSend(s: State, t: nat, u: nat, q: nat, b: nat, k: nat)
    requires Ready(s, t, u, q, b, k)
    ensures Enabled(s, Send(t)) && Enabled(Do(s, Send(t)), Send(u))
    ensures var s' := Do(s, Send(t));
            && s'.tasks == s.tasks && s'.batches[b] == s.batches[b] && HasRoom(s'.channels[q])
            && s'.channels[q].items == s.channels[q].items + [Rest(s.batches[k])[0]]
  {
  }

  lemma SecondSend(s: State, u: nat, q: nat, b: nat)
    requires Enabled(s, Send(u)) && s.tasks[u].phase.work != [] && s.tasks[u].phase.work[0] == b
    requires Unfinished(s.batches[b]) && s.batches[b].conn == q && HasRoom(s.channels[q])
    ensures var s' := Do(s, Send(u));
            q in s'.channels && s'.channels[q].items == s.channels[q].items + [Rest(s.batches[b])[0]]
  {
  }

  lemma ReadyMisorders(s0: State, s: State, t: nat, u: nat, q: nat, b: nat, k: nat)
    requires Leads(s0, s) && Ready(s, t, u, q, b, k)
    requires Inverts(Rest(s.batches[k])[0], Rest(s.batches[b])[0])
    ensures CanMisorder(s0)
  {
    FirstSend(s, t, u, q, b, k);
    var s1 := Do(s, Send(t));
    SecondSend(s1, u, q, b);
    var s2 := Do(s1, Send(u));
    LeadsOn(s0, s, Send(t));
    LeadsOn(s0, s1, Send(u));
    BackToBack(s.channels[q].items, Rest(s.batches[k])[0], Rest(s.batches[b])[0]);
    assert !AllInOrder(s2);
  }

  /** Both tasks get past what they hold before `k` and `b`. */
  lemma RivalsGetReady(s0: State, s: State, t: nat, j: nat, u: nat, i: nat, q: nat, b: nat, k: nat) returns (s': State)
    requires Owned(s0) && Sound(s0) && Leads(s0, s) && Rivals(s, q, b, k) && t != u
    requires Holds(s, t, j, k) && Holds(s, u, i, b) && s.tasks[t].phase.Sending? && s.tasks[u].phase.Sending?
    ensures Leads(s0, s') && Ready(s', t, u, q, b, k)
    ensures s'.batches[b] == s.batches[b] && s'.batches[k] == s.batches[k]
  {
    LeadsKeepsFit(s0, s);
    BeforeIsApart(s, t, j, q, k, b);
    BeforeIsApart(s, u, i, q, b, k);
    var s1 := PassPrefix(s0, s, t, q, j);
    OthersWorkIsKept(s, s1, t, j, u, i, q);
    var s2 := PassPrefix(s0, s1, u, q, i);
    s' := MakeRoom(s0, s2, q);
    assert s.tasks[t].phase.work[j..][0] == k && s.tasks[u].phase.work[i..][0] == b;
  }

  /** What `u` holds is not touched while `t` gets past its own batches. */
  lemma OthersWorkIsKept(s: State, s': State, t: nat, j: nat, u: nat, i: nat, q: nat)
    requires WorkOk(s) && t != u && Passed(s, s', t, q, j) && PrefixApart(s, u, q, i)
    ensures PrefixApart(s', u, q, i)
  {
    forall m | 0 <= m < i
      ensures var b := s.tasks[u].phase.work[m]; b < |s'.batches| && s'.batches[b] == s.batches[b]
    {
      var b := s.tasks[u].phase.work[m];
      assert Holds(s, u, m, b);
      assert forall n: nat | n < j :: Holds(s, t, n, s.tasks[t].phase.work[n]);
    }
  }

  /** Who sends what to connection `conn`: batch `k` is `j`th with task `t`, batch `b` is `i`th with task `u`. */
  datatype Contest = Contest(conn: nat, t: nat, j: nat, k: nat, u: nat, i: nat, b: nat)

  /** The two batches are rivals, and the one whose first item is younger is with a task that can send. */
  predicate Race(s: State, r: Contest) {
    && Rivals(s, r.conn, r.b, r.k) && r.t != r.u
    && Holds(s, r.t, r.j, r.k) && Holds(s, r.u, r.i, r.b) && s.tasks[r.t].phase.Sending?
    && Inverts(Rest(s.batches[r.k])[0], Rest(s.batches[r.b])[0])
  }

  /** Two flushes that still hold batches for one reading connection can deliver in the wrong order. */
  lemma RaceMisorders(s: State, r: Contest)
    requires Owned(s) && Sound(s) && Race(s, r)
    ensures CanMisorder(s)
  {
    LeadsToItself(s);
    var s1 := Settle(s, s, r.u);
    var s2 := RivalsGetReady(s, s1, r.t, r.j, r.u, r.i, r.conn, r.b, r.k);
    ReadyMisorders(s, s2, r.t, r.u, r.conn, r.b, r.k);
  }

  // ---------- the exact condition ----------

  lemma YoungerInOutbox(s: State, b: nat, c: ClientId)
    requires QueuesSorted(s) && OutboxesYoungest(s) && BatchesOk(s) && HandlesOk(s)
    requires b < |s.batches| && Unfinished(s.batches[b]) && Drainable(s, c) && s.connections[c] == s.batches[b].conn
    ensures Inverts(s.outboxes[c][0], Rest(s.batches[b])[0])
  {
    assert BatchOk(s, s.batches[b]) && Older(Rest(s.batches[b]), s.outboxes[c]);
  }

  lemma FlushDrains(s: State, t: nat)
    requires Enabled(s, Flush(t))
    ensures var s' := Do(s, Flush(t));
            && Drained(s, s', s.tasks[t].phase.targets)
            && s'.channels == s.channels && s'.tasks.Keys == s.tasks.Keys
  {
    DrainAllDrains(s, s.tasks[t].phase.targets);
  }

  lemma DrainedHasBatch(s: State, s': State, targets: seq<ClientId>, c: ClientId) returns (k: nat)
    requires Drained(s, s', targets) && c in targets && Drainable(s, c)
    ensures |s.batches| <= k < |s'.batches| && s'.batches[k] == BatchFor(s, c)
  {
    var m :| 0 <= m < |s'.batches[|s.batches|..]| && s'.batches[|s.batches|..][m].client == c;
    k := m + |s.batches|;
  }

  /** A contested drain leaves two batches racing for the connection. */
  lemma ContestedDrainMakesRivals(s: State, s': State, targets: seq<ClientId>, c: ClientId, b: nat, k: nat)
    requires Exclusive(s) && HandlesOk(s) && Drained(s, s', targets) && Contested(s, c)
    requires s'.channels == s.channels && s'.tasks.Keys == s.tasks.Keys
    requires b < |s.batches| && Unfinished(s.batches[b]) && s.batches[b].conn == s.connections[c]
    requires |s.batches| <= k < |s'.batches| && s'.batches[k] == BatchFor(s, c)
    ensures Rivals(s', s.connections[c], b, k)
  {
    assert s'.batches[b] == s.batches[b];
    forall n: nat | n < |s'.batches| && n != b && n != k && Unfinished(s'.batches[n])
      ensures s'.batches[n].conn != s.connections[c]
    {
      if n < |s.batches| {
        assert s'.batches[n] == s.batches[n];
      } else {
        assert s'.batches[n].client != c;
      }
    }
  }

  lemma ContestedFlushMakesRivals(s: State, t: nat, c: ClientId, b: nat) returns (k: nat)
    requires Exclusive(s) && HandlesOk(s) && Enabled(s, Flush(t)) && c in s.tasks[t].phase.targets && Contested(s, c)
    requires b < |s.batches| && Unfinished(s.batches[b]) && s.batches[b].conn == s.connections[c]
    ensures var s' := Do(s, Flush(t));
            && |s.batches| <= k < |s'.batches| && Rivals(s', s.connections[c], b, k)
            && Rest(s'.batches[k]) == s.outboxes[c] && s'.batches[b] == s.batches[b]
  {
    FlushDrains(s, t);
    k := DrainedHasBatch(s, Do(s, Flush(t)), s.tasks[t].phase.targets, c);
    ContestedDrainMakesRivals(s, Do(s, Flush(t)), s.tasks[t].phase.targets, c, b, k);
    assert Rest(BatchFor(s, c)) == s.outboxes[c];
  }

  /** After the flush the new batch is in its work; the old one is where it was, with another task. */
  lemma FlushHolders(s: State, t: nat, b: nat, k: nat) returns (u: nat, i: nat)
    requires WorkOk(s) && Enabled(s, Flush(t)) && b < |s.batches| && Unfinished(s.batches[b])
    requires |s.batches| <= k < |Do(s, Flush(t)).batches|
    ensures var s' := Do(s, Flush(t));
            && Holds(s', t, k - |s.batches|, k) && s'.tasks[t].phase.Sending? && Holds(s', u, i, b) && u != t
  {
    assert Held(s, b);
    u, i :| Holds(s, u, i, b);
  }

  lemma ContestedFlushRaces(s: State, t: nat, c: ClientId, b: nat) returns (r: Contest)
    requires QueuesSorted(s) && OutboxesYoungest(s) && Exclusive(s) && HandlesOk(s) && BatchesOk(s) && WorkOk(s)
    requires Enabled(s, Flush(t)) && c in s.tasks[t].phase.targets && Contested(s, c)
    requires b < |s.batches| && Unfinished(s.batches[b]) && s.batches[b].conn == s.connections[c]
    ensures Race(Do(s, Flush(t)), r)
  {
    var k := ContestedFlushMakesRivals(s, t, c, b);
    YoungerInOutbox(s, b, c);
    var u, i := FlushHolders(s, t, b, k);
    r := Contest(s.connections[c], t, k - |s.batches|, k, u, i, b);
  }

  lemma FlushKeepsFit(s: State, t: nat)
    requires Owned(s) && Sound(s) && Enabled(s, Flush(t))
    ensures Owned(Do(s, Flush(t))) && Sound(Do(s, Flush(t)))
  {
    StepKeepsOwned(s, Flush(t));
    StepKeepsSound(s, Flush(t));
  }

  lemma ContestedFlushMisorders(s: State, t: nat, c: ClientId)
    requires Owned(s) && Sound(s) && Lined(s)
    requires Enabled(s, Flush(t)) && c in s.tasks[t].phase.targets && Contested(s, c)
    ensures CanMisorder(Do(s, Flush(t)))
  {
    var b :| 0 <= b < |s.batches| && Unfinished(s.batches[b]) && s.batches[b].conn == s.connections[c];
    var r := ContestedFlushRaces(s, t, c, b);
    FlushKeepsFit(s, t);
    RaceMisorders(Do(s, Flush(t)), r);
  }

  /**
   From any state reached in order, a flush makes it possible for what has been drained to arrive out of order if and
   only if it drains for a reading connection to which another flush is still sending.
   */
  lemma FlushCanMisorderIff(s: State, t: nat)
    requires Inv(s) && Lined(s) && Enabled(s, Flush(t))
    ensures CanMisorder(Do(s, Flush(t))) <==> exists c :: c in s.tasks[t].phase.targets && Contested(s, c)
  {
    if exists c :: c in s.tasks[t].phase.targets && Contested(s, c) {
      var c :| c in s.tasks[t].phase.targets && Contested(s, c);
      ContestedFlushMisorders(s, t, c);
    } else {
      StepKeepsInv(s, Flush(t));
      FlushKeepsLined(s, t);
      LinedCannotMisorder(Do(s, Flush(t)));
    }
  }

  /** At no point of the run could what had been drained by then arrive out of order. */
  ghost predicate NeverExposed(s: State, actions: seq<Action>)
    requires EnabledRun(s, actions)
    decreases |actions|
  {
    !CanMisorder(s) && (actions == [] || NeverExposed(Do(s, actions[0]), actions[1..]))
  }

  lemma {:induction false} OrderlyIffNeverExposedFrom(s: State, actions: seq<Action>)
    requires Inv(s) && Lined(s) && EnabledRun(s, actions)
    ensures OrderlyRun(s, actions) <==> NeverExposed(s, actions)
    decreases |actions|
  {
    LinedCannotMisorder(s);
    if actions != [] {
      var a := actions[0];
      StepKeepsInv(s, a);
      if a.Flush? && !Undisturbed(s, s.tasks[a.t].phase.targets) {
        FlushCanMisorderIff(s, a.t);
      } else {
        StepKeepsLined(s, a);
        OrderlyIffNeverExposedFrom(Do(s, a), actions[1..]);
      }
    }
  }

  /** Over every interleaving: order was never at risk if and only if no flush drained for a contested connection. */
  lemma OrderlyIffNeverExposed(actions: seq<Action>)
    requires EnabledRun(EMPTY, actions)
    ensures OrderlyRun(EMPTY, actions) <==> NeverExposed(EMPTY, actions)
  {
    EmptyIsConserved();
    OrderlyIffNeverExposedFrom(EMPTY, actions);
  }
}
