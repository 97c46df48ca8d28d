/** What the sync protocol guarantees in every run, what it guarantees in every run that respects the guard
    of `SyncState.Guarded`, and that the guard is exactly what is missing. */
module SyncTheorems {
  import opened Forests
  import opened SyncState
  import opened SyncInvariant
  import opened SyncProtocol

  lemma EmptyInv()
    ensures Inv(EMPTY)
  {}

  lemma {:induction false} RunDelivery(run: seq<State>, steps: seq<Step>, i: nat)
    requires Run(run, steps) && i < |run|
    ensures Delivery(run[i])
  {
    hide Inv, Delivery, Enabled, Do;
    if i == 0 {
      EmptyInv();
      InvParts(EMPTY);
    } else {
      RunDelivery(run, steps, i - 1);
      assert Enabled(run[i - 1], steps[i - 1]) && run[i - 1 + 1] == Do(run[i - 1], steps[i - 1]);
      StepDelivery(run[i - 1], steps[i - 1]);
    }
  }

  lemma {:induction false} RunInv(run: seq<State>, steps: seq<Step>, i: nat)
    requires GuardedRun(run, steps) && i < |run|
    ensures Inv(run[i])
  {
    hide Inv, Enabled, Guarded, Do;
    if i == 0 {
      EmptyInv();
    } else {
      RunInv(run, steps, i - 1);
      assert Enabled(run[i - 1], steps[i - 1]) && run[i - 1 + 1] == Do(run[i - 1], steps[i - 1]);
      assert Guarded(run[i - 1], steps[i - 1]);
      StepInv(run[i - 1], steps[i - 1]);
    }
  }

  lemma ClientInv(run: seq<State>, steps: seq<Step>, i: nat, c: nat)
    requires GuardedRun(run, steps) && i < |run| && c in run[i].clients
    ensures Inv(run[i]) && LogOk(run[i]) && Ok(run[i], run[i].clients[c])
  {
    RunInv(run, steps, i);
    hide SnapsOk, NothingLost, Answered, QueuesOk, ClientOk, LogOk;
  }

  // ---- Every run --------------------------------------------------------------------------------

  /** At least once: no crash and no lost reply ever loses a queued delta, with or without the guard. */
  lemma AtLeastOnce(run: seq<State>, steps: seq<Step>, i: nat, item: Item)
    requires Run(run, steps) && i < |run| && item in run[i].enqueued
    ensures item in run[i].rejected || Logged(run[i].log, item) || Queued(run[i], item)
  {
    RunDelivery(run, steps, i);
    hide LogOk, QueuesOk, Answered, Logged, Queued;
  }

  /** The log only grows at its end and the server snapshot only advances. */
  ghost predicate Forward(s: State, t: State) {
    s.log <= t.log && SnapSeq(s.snap) <= SnapSeq(t.snap) && (s.snap.Some? ==> t.snap.Some?)
  }

  lemma StepForward(s: State, step: Step)
    requires Enabled(s, step)
    ensures Forward(s, Do(s, step))
  {}

  /** In every run, guarded or not, the server's snapshot and log never go back. */
  lemma {:induction false} RunForward(run: seq<State>, steps: seq<Step>, i: nat, k: nat)
    requires Run(run, steps) && i <= k < |run|
    ensures Forward(run[i], run[k])
    decreases k
  {
    hide Enabled, Do;
    if i < k {
      RunForward(run, steps, i, k - 1);
      assert Enabled(run[k - 1], steps[k - 1]) && run[k - 1 + 1] == Do(run[k - 1], steps[k - 1]);
      StepForward(run[k - 1], steps[k - 1]);
    }
  }

  // ---- Guarded runs -----------------------------------------------------------------------------

  /** Crash-safe cursor: at every moment of every guarded run a stored snapshot contains every delta up to the
      stored cursor, so a client that dies now and hydrates from it misses nothing when it pulls from the cursor. */
  lemma CrashSafeCursor(run: seq<State>, steps: seq<Step>, i: nat, c: nat)
    requires GuardedRun(run, steps) && i < |run| && c in run[i].clients && run[i].clients[c].snap.Some?
    ensures Covers(run[i].log, run[i].clients[c].cursor, run[i].clients[c].snap.value)
  {
    ClientInv(run, steps, i, c);
    hide Covers, Inv;
  }

  /** Compaction preserves meaning, in every guarded run: what the server's snapshot and the deltas above it
      contain is everything the whole log contains, and nothing nobody made; its sequence id is in the log and
      never goes back. */
  lemma Compaction(run: seq<State>, steps: seq<Step>, i: nat, k: nat)
    requires GuardedRun(run, steps) && i <= k < |run| && run[i].snap.Some?
    ensures var s := run[i]; var u := s.snap.value;
      && Covers(s.log, u.seqId, u.ops) && u.seqId <= LastSeq(s.log)
      && OpsBetween(s.log, 0, LastSeq(s.log)) <= u.ops + OpsBetween(s.log, u.seqId, LastSeq(s.log))
      && u.ops + OpsBetween(s.log, u.seqId, LastSeq(s.log)) <= AllOps(s.enqueued)
    ensures run[k].snap.Some? && run[i].snap.value.seqId <= run[k].snap.value.seqId && run[i].log <= run[k].log
  {
    RunInv(run, steps, i);
    RunForward(run, steps, i, k);
    var s := run[i];
    SnapPlusTail(s, s.snap.value) by { InvParts(s); }
  }

  lemma SnapPlusTail(s: State, u: Snap)
    requires LogOk(s) && SnapOk(s.log, s.enqueued, u)
    ensures OpsBetween(s.log, 0, LastSeq(s.log)) <= u.ops + OpsBetween(s.log, u.seqId, LastSeq(s.log))
    ensures u.ops + OpsBetween(s.log, u.seqId, LastSeq(s.log)) <= AllOps(s.enqueued)
  {
    PageKnown(s, u.seqId, LastSeq(s.log));
    forall o | o in OpsBetween(s.log, 0, LastSeq(s.log))
      ensures o in u.ops + OpsBetween(s.log, u.seqId, LastSeq(s.log))
    {
      var i :| 0 <= i < |s.log| && 0 < s.log[i].seqId <= LastSeq(s.log) && o in s.log[i].item.ops;
      if s.log[i].seqId > u.seqId { assert o in OpsBetween(s.log, u.seqId, LastSeq(s.log)); }
    }
  }

  /** The client has pulled to the end of the log. */
  predicate AtEnd(s: State, c: Client) {
    c.doc.Some? && CursorUsable(c) && LastSeq(s.log) <= c.cursor
  }

  lemma EndCovers(s: State, c: Client, item: Item)
    requires LogOk(s) && Ok(s, c) && AtEnd(s, c) && Logged(s.log, item)
    ensures item.ops <= c.doc.value
  {
    hide TasksOk, ChainOk, OriginOk, StoredOk, KnownOk;
    var i :| 0 <= i < |s.log| && s.log[i].item == item;
    LastIsLast(s, i);
  }

  /** All queues are drained and nothing was rejected. */
  ghost predicate Drained(s: State) {
    s.rejected == {} && forall k {:trigger s.clients[k]} :: k in s.clients ==> s.clients[k].queue == []
  }

  /** Convergence at quiescence, in every guarded run: when everything is drained, every client that has pulled
      to the end of the log holds exactly the operations ever made anywhere. */
  lemma Quiescence(run: seq<State>, steps: seq<Step>, i: nat, c: nat)
    requires GuardedRun(run, steps) && i < |run| && c in run[i].clients && AtEnd(run[i], run[i].clients[c])
    requires Drained(run[i])
    ensures run[i].clients[c].doc.value == AllOps(run[i].enqueued)
  {
    var s := run[i];
    ClientInv(run, steps, i, c);
    assert NothingLost(s);
    hide Inv, LogOk, ClientOk, AtEnd;
    forall o | o in AllOps(s.enqueued) ensures o in s.clients[c].doc.value {
      var item :| item in s.enqueued && o in item.ops;
      EndCovers(s, s.clients[c], item);
    }
    assert s.clients[c].doc.value <= AllOps(s.enqueued) by { DocKnown(s, s.clients[c]); }
  }

  lemma DocKnown(s: State, c: Client)
    requires Ok(s, c) && c.doc.Some?
    ensures c.doc.value <= AllOps(s.enqueued)
  {
    hide TasksOk, ChainOk, OriginOk, StoredOk, Covers;
  }

  /** Hence any two of them show the same bookmarks, whatever the bookmarks are as a function of the operations. */
  lemma SameBookmarks<B>(run: seq<State>, steps: seq<Step>, i: nat, a: nat, b: nat, bookmarks: Ops -> B)
    requires GuardedRun(run, steps) && i < |run| && Drained(run[i])
    requires a in run[i].clients && AtEnd(run[i], run[i].clients[a]) && b in run[i].clients
    requires AtEnd(run[i], run[i].clients[b])
    ensures bookmarks(run[i].clients[a].doc.value) == bookmarks(run[i].clients[b].doc.value)
  {
    hide AtEnd, Drained;
    Quiescence(run, steps, i, a);
    Quiescence(run, steps, i, b);
  }

  // ---- What an unguarded step does, in any state ------------------------------------------------

  /** One step of the code. */
  ghost predicate Takes(s: State, step: Step, t: State) {
    Enabled(s, step) && t == Do(s, step)
  }

  /** The stored pair is consistent: a stored snapshot contains every delta up to the cursor. */
  ghost predicate Consistent(s: State, c: nat)
    requires c in s.clients
  {
    s.clients[c].snap.Some? ==> Covers(s.log, s.clients[c].cursor, s.clients[c].snap.value)
  }

  /** A sync with all its pages at hand, run to its end: what it stores is consistent exactly when the document
      with the pulled deltas contains everything up to the last of them. */
  lemma SyncEndIff(s: State, c: nat, t: nat) returns (s1: State, s2: State, s3: State)
    requires HasTask(s, c, t) && s.clients[c].tasks[t].Pulled?
    requires s.clients[c].tasks[t].at != s.clients[c].tasks[t].since
    requires s.clients[c].doc.Some? && s.clients[c].pending == []
    ensures Takes(s, ApplyDeltas(c, t), s1) && Takes(s1, CommitWrite(c), s2) && Takes(s2, WriteCursor(c, t), s3)
    ensures HasTask(s3, c, t)
    ensures var k := s.clients[c].tasks[t]; var d := s.clients[c].doc.value + k.got;
      && s3 == With(s, c, s3.clients[c]) && s3.clients[c].snap == Some(d) && s3.clients[c].doc == Some(d)
           && s3.clients[c].cursor == k.at
      && s3.clients[c].tasks[t] == Uploading(k.at) && s3.clients[c].caughtUp
           && s3.clients[c].queue == s.clients[c].queue
      && (Consistent(s3, c) <==> Covers(s.log, k.at, d))
  {
    hide Covers;
    var k, task := s.clients[c], s.clients[c].tasks[t];
    s1 := Do(s, ApplyDeltas(c, t));
    assert s1.clients[c].pending == [k.doc.value + task.got]
      && s1.clients[c].tasks[t] == Persisting(k.committed, task.at);
    s2 := Do(s1, CommitWrite(c));
    s3 := Do(s2, WriteCursor(c, t));
  }

  /** Storing a snapshot apart from a sync: the stored pair is consistent afterwards exactly when the document
      contains everything up to the stored cursor. */
  lemma PersistEndIff(s: State, c: nat) returns (s1: State, s2: State)
    requires HasClient(s, c) && s.clients[c].doc.Some? && s.clients[c].pending == []
    ensures Takes(s, Persist(c), s1) && Takes(s1, CommitWrite(c), s2)
    ensures c in s2.clients && (Consistent(s2, c) <==> Covers(s.log, s.clients[c].cursor, s.clients[c].doc.value))
  {
    hide Covers;
    s1 := Do(s, Persist(c));
    assert s1.clients[c].pending == [s.clients[c].doc.value];
    s2 := Do(s1, CommitWrite(c));
  }

  /** The steps with which a sync from the stored cursor pulls to the end of the log. */
  lemma SyncPulls(s: State, c: nat, t: nat) returns (s1: State, s2: State)
    requires HasClient(s, c) && !s.clients[c].origin.Down? && t !in s.clients[c].tasks
    requires s.clients[c].cursor < LastSeq(s.log)
    ensures Takes(s, StartSync(c, t), s1) && Takes(s1, PullPage(c, t, LastSeq(s.log), true), s2)
    ensures var got := OpsBetween(s.log, s.clients[c].cursor, LastSeq(s.log));
      s2 == With(s, c, WithTask(s.clients[c], t, Pulled(s.clients[c].cursor, LastSeq(s.log), got)))
  {
    var k, last := s.clients[c], LastSeq(s.log);
    s1 := Do(s, StartSync(c, t));
    assert s.log[|s.log| - 1].seqId == last;
    assert PageEnd(s.log, k.cursor, last);
    assert {} + OpsBetween(s.log, k.cursor, last) == OpsBetween(s.log, k.cursor, last);
    s2 := Do(s1, PullPage(c, t, last, true));
    var task := Pulled(k.cursor, last, OpsBetween(s.log, k.cursor, last));
    assert s2.clients[c].tasks == k.tasks[t := task];
    assert s2.clients[c] == WithTask(k, t, task);
    assert s2.clients == s.clients[c := WithTask(k, t, task)];
  }

  /** A sync from the stored cursor, run to its end while nothing else happens: what it stores is consistent
      exactly when the document together with the deltas above the cursor contains everything up to the cursor. */
  lemma SyncFromCursorIff(s: State, c: nat, t: nat) returns (s1: State, s2: State, s3: State, s4: State, s5: State)
    requires HasClient(s, c) && !s.clients[c].origin.Down? && t !in s.clients[c].tasks
    requires s.clients[c].cursor < LastSeq(s.log)
    requires s.clients[c].doc.Some? && s.clients[c].pending == []
    ensures Takes(s, StartSync(c, t), s1) && Takes(s1, PullPage(c, t, LastSeq(s.log), true), s2)
    ensures Takes(s2, ApplyDeltas(c, t), s3)
    ensures Takes(s3, CommitWrite(c), s4) && Takes(s4, WriteCursor(c, t), s5) && c in s5.clients
    ensures var k := s.clients[c];
      Consistent(s5, c) <==> Covers(s.log, k.cursor, k.doc.value + OpsBetween(s.log, k.cursor, LastSeq(s.log)))
  {
    s1, s2 := SyncPulls(s, c, t);
    s3, s4, s5 := SyncEndIff(s2, c, t);
    var k := s.clients[c];
    var x := k.doc.value + OpsBetween(s.log, k.cursor, LastSeq(s.log));
    hide Enabled, Do;
    if Covers(s.log, k.cursor, x) { CoversPage(s.log, k.cursor, LastSeq(s.log), x, x); }
    if Covers(s.log, LastSeq(s.log), x) { CoversLess(s.log, LastSeq(s.log), k.cursor, x); }
  }

  // ---- The guard is exact -----------------------------------------------------------------------

  /** A consistent state in which client `c` looks like `k`, and has deltas to pull. */
  ghost predicate LooksLike(s: State, c: nat, k: Client) {
    Inv(s) && c in s.clients && s.clients[c] == k && k.cursor < LastSeq(s.log)
  }

  /** A client with a document and nothing under way. */
  ghost predicate Resting(k: Client) {
    k.doc.Some? && k.pending == [] && k.tasks == map[]
  }

  /** A client without a snapshot and a document, on which a sync from the stored cursor has just begun. */
  ghost predicate Starting(k: Client, t: nat) {
    k.origin.Booting? && k.doc.None? && k.snap.None? && k.pending == []
      && k.tasks == map[t := Pulling(k.cursor, k.cursor, {})]
  }

  lemma UsableCovers(s: State, c: nat, k: Client)
    requires LooksLike(s, c, k) && Resting(k) && CursorUsable(k)
    ensures Covers(s.log, k.cursor, k.doc.value)
    ensures Covers(s.log, LastSeq(s.log), k.doc.value + OpsBetween(s.log, k.cursor, LastSeq(s.log)))
  {
    assert Ok(s, s.clients[c]);
    assert Covers(s.log, k.cursor, k.doc.value);
    CoversPage(s.log, k.cursor, LastSeq(s.log), k.doc.value, k.doc.value + OpsBetween(s.log, k.cursor, LastSeq(s.log)));
  }

  lemma {:induction false} FreshOp(a: Ops) returns (x: nat)
    ensures forall y :: y in a ==> y < x
  {
    if a == {} {
      x := 0;
    } else {
      var z :| z in a;
      x := FreshOp(a - {z});
      if x <= z { x := z + 1; }
      assert forall y :: y in a ==> y == z || y in a - {z};
    }
  }

  function Items(q: seq<Item>): set<Item> {
    set i | i in q
  }

  /** A state in which the client cannot know that a delta below its cursor is missing. */
  function Betrayed(k: Client, x: nat): State {
    var all := Item(0, Memory(k) + k.ver);
    State([Row(k.cursor, Item(1, {x})), Row(k.cursor + 1, Item(2, {x + 1}))], k.cursor + 2, Some(Snap(k.cursor, {x})),
      {}, map[0 := k],
          Items(k.queue) + {all, Item(1, {x}), Item(2, {x + 1})}, Items(k.queue) + {all})
  }

  lemma BetrayedDelivery(k: Client, x: nat, s0: State, c: nat)
    requires Delivery(s0) && c in s0.clients && s0.clients[c] == k && k.cursor > 0
    ensures Delivery(Betrayed(k, x))
  {
    ClientFacts(s0, c);
    var s := Betrayed(k, x);
    assert s.log[0].item == Item(1, {x}) && s.log[1].item == Item(2, {x + 1});
    assert forall i :: 0 <= i < |k.queue| ==> k.queue[i] in Items(k.queue);
    assert QueueOk(s.enqueued, k);
    assert AnsweredOk(s, k);
  }

  lemma BetrayedKnown(k: Client, x: nat)
    ensures Memory(k) <= AllOps(Betrayed(k, x).enqueued) && k.ver <= AllOps(Betrayed(k, x).enqueued)
    ensures k.cursor > 0 ==> SnapOk(Betrayed(k, x).log, Betrayed(k, x).enqueued, Snap(k.cursor, {x}))
    ensures k.cursor > 0 ==> LastSeq(Betrayed(k, x).log) == k.cursor + 1
  {
    var s := Betrayed(k, x);
    var all := Item(0, Memory(k) + k.ver);
    assert all in s.enqueued && Item(1, {x}) in s.enqueued;
    forall o | o in Memory(k) + k.ver ensures o in AllOps(s.enqueued) { assert o in all.ops; }
  }

  lemma BetrayedClient(k: Client, x: nat, s0: State)
    requires Ok(s0, k) && ((Resting(k) && !CursorUsable(k)) || exists t :: Starting(k, t)) && k.cursor > 0
    ensures Ok(Betrayed(k, x), k)
  {
    BetrayedKnown(k, x);
    var s := Betrayed(k, x);
    assert OpsBetween(s.log, k.cursor, k.cursor) == {};
    hide AllOps, Covers, OpsBetween;
  }

  lemma BetrayedInv(k: Client, x: nat, s0: State, c: nat)
    requires Inv(s0) && c in s0.clients && s0.clients[c] == k
    requires ((Resting(k) && !CursorUsable(k)) || exists t :: Starting(k, t)) && k.cursor > 0
    ensures LooksLike(Betrayed(k, x), 0, k)
  {
    var s := Betrayed(k, x);
    BetrayedDelivery(k, x, s0, c);
    assert Ok(s0, k);
    BetrayedClient(k, x, s0);
    BetrayedKnown(k, x);
    hide Delivery, ClientOk, SnapOk;
  }

  lemma BetrayedLoses(k: Client, x: nat)
    requires forall y :: y in Memory(k) ==> y < x
    ensures var s := Betrayed(k, x);
      && !Covers(s.log, k.cursor, Memory(k))
      && !Covers(s.log, LastSeq(s.log), Memory(k) + OpsBetween(s.log, k.cursor, LastSeq(s.log)))
  {
    var s := Betrayed(k, x);
    assert s.log[0].seqId <= k.cursor && x in s.log[0].item.ops;
    assert x !in OpsBetween(s.log, k.cursor, LastSeq(s.log)) by {
      assert forall i :: 0 <= i < |s.log| && k.cursor < s.log[i].seqId ==> i == 1 && s.log[i].item.ops == {x + 1};
    }
  }

  /** Storing a snapshot is harmless in every state that looks the same to the client. */
  ghost predicate PersistHarmless(k: Client)
    requires k.doc.Some?
  {
    forall s, c :: LooksLike(s, c, k) ==> Covers(s.log, k.cursor, k.doc.value)
  }

  /** A sync from the stored cursor is harmless in every state that looks the same to the client. */
  ghost predicate SyncHarmless(k: Client)
    requires k.doc.Some?
  {
    forall s, c :: LooksLike(s, c, k) ==>
      Covers(s.log, LastSeq(s.log), k.doc.value + OpsBetween(s.log, k.cursor, LastSeq(s.log)))
  }

  /** The guard is exact. For a client with a document and nothing under way, the sync from the stored cursor,
      and the separate persist, store a consistent pair in all states that look like this to the client if and
      only if the cursor is usable. The states need only satisfy the invariant; they need not be reachable. */
  lemma GuardExact(k: Client, s0: State, c: nat)
    requires Inv(s0) && c in s0.clients && s0.clients[c] == k && Resting(k)
    ensures SyncHarmless(k) <==> CursorUsable(k)
    ensures PersistHarmless(k) <==> CursorUsable(k)
  {
    hide Inv, Covers, CursorUsable;
    if CursorUsable(k) {
      forall s, c | LooksLike(s, c, k)
        ensures Covers(s.log, k.cursor, k.doc.value)
        ensures Covers(s.log, LastSeq(s.log), k.doc.value + OpsBetween(s.log, k.cursor, LastSeq(s.log)))
      {
        UsableCovers(s, c, k);
      }
    } else {
      UnusableIsPositive(k);
      var x := FreshOp(k.doc.value);
      BetrayedInv(k, x, s0, c);
      BetrayedLoses(k, x);
    }
  }

  lemma UnusableIsPositive(k: Client)
    ensures !CursorUsable(k) ==> k.cursor > 0
  {}

  /** Falling back to the empty document is harmless for the sync that has just begun, in every state that looks
      the same to the client. */
  ghost predicate FallbackHarmless(k: Client) {
    forall s, c :: LooksLike(s, c, k) ==>
      Covers(s.log, LastSeq(s.log), {} + OpsBetween(s.log, k.cursor, LastSeq(s.log)))
  }

  /** The guard on the fall-back is exact as well. */
  lemma FallbackExact(k: Client, t: nat, s0: State, c: nat)
    requires Inv(s0) && c in s0.clients && s0.clients[c] == k && Starting(k, t)
    ensures FallbackHarmless(k) <==> k.cursor == 0
  {
    if k.cursor == 0 {
      forall s, c | LooksLike(s, c, k)
        ensures Covers(s.log, LastSeq(s.log), {} + OpsBetween(s.log, k.cursor, LastSeq(s.log)))
      {
        CoversNone(s, {});
        CoversPage(s.log, 0, LastSeq(s.log), {}, {} + OpsBetween(s.log, 0, LastSeq(s.log)));
      }
    } else {
      assert Memory(k) == {};
      hide Inv, Covers;
      BetrayedInv(k, 0, s0, c);
      BetrayedLoses(k, 0);
    }
  }

  // ---- How far the damage goes ------------------------------------------------------------------

  /** The client has a document and a stored cursor that is not usable, and some delta below that cursor is
      neither in the document nor above it. */
  ghost predicate Exposed(s: State, c: nat, t: nat, i: nat) {
    && c in s.clients && t !in s.clients[c].tasks && s.clients[c].pending == [] && s.clients[c].doc.Some?
         && !s.clients[c].origin.Down?
    && !CursorUsable(s.clients[c]) && s.clients[c].cursor < LastSeq(s.log)
    && i < |s.log| && s.log[i].seqId <= s.clients[c].cursor
    && !(s.log[i].item.ops <= s.clients[c].doc.value + OpsBetween(s.log, s.clients[c].cursor, LastSeq(s.log)))
  }

  /** The stored snapshot and the document lack a delta below the stored cursor, and the client counts as having
      pulled everything. */
  ghost predicate Lost(s: State, c: nat, i: nat) {
    && c in s.clients && i < |s.log| && s.clients[c].snap.Some? && s.log[i].seqId <= s.clients[c].cursor
    && !(s.log[i].item.ops <= s.clients[c].snap.value)
    && AtEnd(s, s.clients[c]) && !(s.log[i].item.ops <= s.clients[c].doc.value)
  }

  ghost predicate BadSnapshot(s: State) {
    s.snap.Some? && !Covers(s.log, s.snap.value.seqId, s.snap.value.ops)
  }

  /** From an exposed state the sync stores a cursor above a delta its snapshot does not contain, and what the
      client uploads next makes the server's snapshot lack that delta, unless a newer one is there. */
  lemma UnguardedSyncLoses(s: State, c: nat, t: nat, i: nat)
    returns (s1: State, s2: State, s3: State, s4: State, s5: State, s6: State, s7: State)
    requires LogOk(s) && Exposed(s, c, t, i)
    ensures Takes(s, StartSync(c, t), s1) && Takes(s1, PullPage(c, t, LastSeq(s.log), true), s2)
    ensures Takes(s2, ApplyDeltas(c, t), s3)
    ensures Takes(s3, CommitWrite(c), s4) && Takes(s4, WriteCursor(c, t), s5) && Takes(s5, Upload(c, t), s6)
    ensures Lost(s5, c, i) && !Consistent(s5, c) && s5.log == s.log && s5.enqueued == s.enqueued
    ensures (Drained(s) ==> Drained(s5))
    ensures Takes(s6, PutSnapshot(Snap(LastSeq(s.log), s5.clients[c].doc.value)), s7)
    ensures SnapSeq(s.snap) < LastSeq(s.log) ==> BadSnapshot(s7)
  {
    s1, s2 := SyncPulls(s, c, t);
    s3, s4, s5 := SyncEndIff(s2, c, t);
    hide Enabled, Do;
    LogBound(s, i);
    NotCovered(s.log, LastSeq(s.log), s5.clients[c].doc.value, i);
    hide Covers, LogOk;
    s6, s7 := BadUpload(s5, c, t, i);
  }

  lemma NotCovered(log: seq<Row>, n: nat, x: Ops, i: nat)
    requires i < |log| && log[i].seqId <= n && !(log[i].item.ops <= x)
    ensures !Covers(log, n, x)
  {}

  lemma LogBound(s: State, i: nat)
    requires LogOk(s) && i < |s.log|
    ensures s.log[i].seqId <= LastSeq(s.log) && s.log != []
  {}

  lemma BadUpload(s: State, c: nat, t: nat, i: nat) returns (s1: State, s2: State)
    requires HasTask(s, c, t) && s.clients[c].tasks[t] == Uploading(LastSeq(s.log)) && s.log != []
    requires s.clients[c].doc.Some?
    requires i < |s.log| && s.log[i].seqId <= LastSeq(s.log) && !(s.log[i].item.ops <= s.clients[c].doc.value)
    ensures Takes(s, Upload(c, t), s1) && Takes(s1, PutSnapshot(Snap(LastSeq(s.log), s.clients[c].doc.value)), s2)
    ensures SnapSeq(s.snap) < LastSeq(s.log) ==> BadSnapshot(s2)
  {
    var u := Snap(LastSeq(s.log), s.clients[c].doc.value);
    s1 := Do(s, Upload(c, t));
    s2 := Do(s1, PutSnapshot(u));
    if SnapSeq(s.snap) < LastSeq(s.log) {
      assert s2.snap == Some(u) && s2.log == s.log;
    }
  }

  // ---- Such a state is reachable ----------------------------------------------------------------

  ghost predicate Reachable(s: State) {
    exists run, steps :: Run(run, steps) && run[|run| - 1] == s
  }

  lemma ReachEmpty()
    ensures Reachable(EMPTY)
  {
    assert Run([EMPTY], []);
    assert [EMPTY][|[EMPTY]| - 1] == EMPTY;
  }

  lemma ReachStep(s: State, step: Step)
    requires Reachable(s) && Enabled(s, step)
    ensures Reachable(Do(s, step))
  {
    hide Enabled, Do;
    var run, steps :| Run(run, steps) && run[|run| - 1] == s;
    var run', steps' := run + [Do(s, step)], steps + [step];
    forall i | 0 <= i < |steps'| ensures Enabled(run'[i], steps'[i]) && run'[i + 1] == Do(run'[i], steps'[i]) {
      if i < |steps| { assert steps[i] == steps'[i]; }
    }
    assert Run(run', steps') && run'[|run'| - 1] == Do(s, step);
  }

  const FIRST := Item(1, {7})
  const SECOND := Item(2, {8})

  /** Client 0 with a document, nothing running. */
  function Idle(snap: Option<Ops>, cursor: nat, queue: seq<Item>, doc: Ops, caughtUp: bool, committed: nat,
                drain: Option<Drain>): Client {
    Client(snap, cursor, queue, Fallback, Some(doc), doc, caughtUp, [], committed, map[], drain)
  }

  /** Client 0 makes an edit, pushes it and pulls it back. */
  lemma Story1()
    ensures Reachable(State([Row(1, FIRST)], 2, None, {}, map[0 := Idle(None, 0, [], {7}, false, 0, None)], {FIRST},
      {}))
  {
    ReachEmpty();
    ReachStep(EMPTY, Join(0));
    var s1 := State([], 1, None, {}, map[0 := NEW_CLIENT], {}, {});
    assert Do(EMPTY, Join(0)) == s1;
    ReachStep(s1, Boot(0));
    var s2 := Do(s1, Boot(0));
    ReachStep(s2, HydrateEmpty(0));
    var s3 := State([], 1, None, {}, map[0 := Idle(None, 0, [], {}, false, 0, None)], {}, {});
    assert Do(s2, HydrateEmpty(0)) == s3;
    ReachStep(s3, Edit(0, {7}, 1));
    var s4 := State([], 1, None, {}, map[0 := Idle(None, 0, [FIRST], {7}, false, 0, None)], {FIRST}, {});
    assert s3.clients[0].doc.value + {7} == {7} && s3.clients[0].doc.value + {7} - s3.clients[0].ver == {7};
    assert Item(1, s3.clients[0].doc.value + {7} - s3.clients[0].ver) == FIRST;
    assert s3.clients[0].queue + [FIRST] == [FIRST] && s3.enqueued + {FIRST} == {FIRST};
    assert Do(s3, Edit(0, {7}, 1)).clients[0] == s4.clients[0];
    assert Do(s3, Edit(0, {7}, 1)) == s4;
    PushOne(s4, FIRST);
  }

  /** Client 0 drains a queue of one item. */
  lemma PushOne(s: State, item: Item)
    requires Reachable(s) && 0 in s.clients && s.clients[0].queue == [item] && s.clients[0].drain.None?
    ensures Reachable(State(s.log + [Row(s.next, item)], s.next + 1, s.snap, s.uploads,
      s.clients[0 := s.clients[0].(queue := [])], s.enqueued, s.rejected))
  {
    ReachStep(s, StartDrain(0));
    var s1 := Do(s, StartDrain(0));
    assert s1.clients[0].drain == Some(Drain(1, 0));
    ReachStep(s1, Post(0));
    var s2 := Do(s1, Post(0));
    assert s2.clients[0].queue[1..] == [];
    ReachStep(s2, Acknowledge(0));
    assert Do(s2, Acknowledge(0)) == State(s.log + [Row(s.next, item)], s.next + 1, s.snap, s.uploads,
      s.clients[0 := s.clients[0].(queue := [])], s.enqueued, s.rejected);
  }

  const ONE := Snap(1, {7})

  /** Client 0 syncs, stores snapshot and cursor, and uploads its snapshot. */
  lemma Story2()
    ensures Reachable(State([Row(1, FIRST)], 2, Some(ONE), {ONE}, map[0 := Idle(Some({7}), 1, [], {7}, true, 1, None)],
      {FIRST}, {}))
  {
    Story1();
    var s0 := State([Row(1, FIRST)], 2, None, {}, map[0 := Idle(None, 0, [], {7}, false, 0, None)], {FIRST}, {});
    ReachStep(s0, InitSync(0, 0));
    var k0 := s0.clients[0];
    var s1 := With(s0, 0, WithTask(k0, 0, Pulling(0, 0, {})));
    assert Do(s0, InitSync(0, 0)) == s1;
    assert s0.log[0].seqId == 1;
    ReachStep(s1, PullPage(0, 0, 1, true));
    assert {} + OpsBetween(s0.log, 0, 1) == {7} by { assert s0.log[0].item.ops == {7}; }
    var s2 := With(s0, 0, WithTask(k0, 0, Pulled(0, 1, {7})));
    assert WithTask(s1.clients[0], 0, Pulled(0, 1, {7})) == s2.clients[0] by {
      assert s1.clients[0].tasks[0 := Pulled(0, 1, {7})] == s2.clients[0].tasks;
    }
    assert Do(s1, PullPage(0, 0, 1, true)) == s2;
    ReachStep(s2, ApplyDeltas(0, 0));
    var k3 := k0.(caughtUp := true, pending := [{7}], tasks := map[0 := Persisting(0, 1)]);
    var s3 := With(s0, 0, k3);
    assert k0.doc.value + {7} == {7} && k0.pending + [{7}] == [{7}];
    assert s2.clients[0].tasks[0 := Persisting(0, 1)] == k3.tasks;
    assert Applied(s2.clients[0], 0) == k3;
    assert Do(s2, ApplyDeltas(0, 0)) == s3;
    Story2End(s0, s3, k3);
  }

  lemma Story2End(s0: State, s3: State, k3: Client)
    requires s0 == State([Row(1, FIRST)], 2, None, {}, map[0 := Idle(None, 0, [], {7}, false, 0, None)], {FIRST}, {})
    requires k3 == s0.clients[0].(caughtUp := true, pending := [{7}], tasks := map[0 := Persisting(0, 1)])
    requires s3 == With(s0, 0, k3) && Reachable(s3)
    ensures Reachable(State([Row(1, FIRST)], 2, Some(ONE), {ONE}, map[0 := Idle(Some({7}), 1, [], {7}, true, 1, None)],
      {FIRST}, {}))
  {
    ReachStep(s3, CommitWrite(0));
    var s4 := With(s0, 0, k3.(snap := Some({7}), pending := [], committed := 1));
    assert k3.pending[1..] == [];
    assert Do(s3, CommitWrite(0)).clients[0] == s4.clients[0];
    assert Do(s3, CommitWrite(0)) == s4;
    ReachStep(s4, WriteCursor(0, 0));
    var s5 := With(s0, 0,
      k3.(snap := Some({7}), pending := [], committed := 1, cursor := 1, tasks := map[0 := Uploading(1)]));
    assert s4.clients[0].tasks[0 := Uploading(1)] == s5.clients[0].tasks;
    assert Do(s4, WriteCursor(0, 0)).clients[0] == s5.clients[0];
    assert Do(s4, WriteCursor(0, 0)) == s5;
    Story2Upload(s0, s5);
  }

  lemma Story2Upload(s0: State, s5: State)
    requires s0 == State([Row(1, FIRST)], 2, None, {}, map[0 := Idle(None, 0, [], {7}, false, 0, None)], {FIRST}, {})
    requires s5 == With(s0, 0, Idle(Some({7}), 1, [], {7}, true, 1, None).(tasks := map[0 := Uploading(1)]))
    requires Reachable(s5)
    ensures Reachable(State([Row(1, FIRST)], 2, Some(ONE), {ONE}, map[0 := Idle(Some({7}), 1, [], {7}, true, 1, None)],
      {FIRST}, {}))
  {
    ReachStep(s5, Upload(0, 0));
    var s6 := With(s0, 0, Idle(Some({7}), 1, [], {7}, true, 1, None)).(uploads := {ONE});
    assert Do(s5, Upload(0, 0)) == s6;
    ReachStep(s6, PutSnapshot(ONE));
    assert Do(s6, PutSnapshot(ONE)) == s6.(snap := Some(ONE));
    assert s6.(snap := Some(ONE)) ==
      State([Row(1, FIRST)], 2, Some(ONE), {ONE}, map[0 := Idle(Some({7}), 1, [], {7}, true, 1, None)], {FIRST}, {});
  }

  /** Client 1 loads the server's snapshot and dies right after the early cursor write. */
  lemma Story3(s: State)
    requires Reachable(s) && s.snap == Some(ONE) && 1 !in s.clients
    ensures Reachable(With(s, 1, Client(None, 1, [], Booting, None, {}, false, [], 0, map[], None)))
  {
    ReachStep(s, Join(1));
    var s1 := With(s, 1, NEW_CLIENT);
    ReachStep(s1, Boot(1));
    var s2 := With(s, 1, NEW_CLIENT.(origin := Booting));
    assert Do(s1, Boot(1)) == s2;
    ReachStep(s2, FetchSnapshot(1));
    var s3 := With(s, 1, NEW_CLIENT.(origin := Fetched(ONE)));
    assert Do(s2, FetchSnapshot(1)) == s3;
    ReachStep(s3, HydrateServer(1));
    var k := Hydrated(NEW_CLIENT, FromServer(ONE), {7}, {7});
    var s4 := With(s, 1, k);
    assert Do(s3, HydrateServer(1)) == s4;
    Story3End(s, s4, k);
  }

  lemma Story3End(s: State, s4: State, k: Client)
    requires k == Hydrated(NEW_CLIENT, FromServer(ONE), {7}, {7}) && s4 == With(s, 1, k) && Reachable(s4)
    ensures Reachable(With(s, 1, Client(None, 1, [], Booting, None, {}, false, [], 0, map[], None)))
  {
    ReachStep(s4, EarlyCursor(1));
    var s5 := With(s, 1, k.(cursor := 1));
    assert Do(s4, EarlyCursor(1)) == s5;
    ReachStep(s5, Crash(1));
    var s6 := With(s, 1, NEW_CLIENT.(cursor := 1));
    assert Do(s5, Crash(1)) == s6;
    ReachStep(s6, Boot(1));
    assert Do(s6, Boot(1)) == With(s, 1, Client(None, 1, [], Booting, None, {}, false, [], 0, map[], None));
  }

  /** After a crash between the early cursor write and the first snapshot write, a start whose snapshot fetch
      fails reaches a state in which a manual sync would lose the delta with sequence id 1. Nothing else is
      wrong there: everything is drained and nothing was rejected. */
  lemma ExposedReachable() returns (s: State)
    ensures Reachable(s) && Exposed(s, 1, 0, 0) && LogOk(s) && Drained(s) && SnapSeq(s.snap) < LastSeq(s.log)
    ensures 7 in s.log[0].item.ops && s.log[0].item in s.enqueued && s.clients[1].doc == Some({})
    ensures s.log[0].seqId <= s.clients[1].cursor
  {
    Story2();
    var s0 := State([Row(1, FIRST)], 2, Some(ONE), {ONE}, map[0 := Idle(Some({7}), 1, [], {7}, true, 1, None)], {FIRST},
      {});
    Story3(s0);
    var s1 := With(s0, 1, Client(None, 1, [], Booting, None, {}, false, [], 0, map[], None));
    ReachStep(s1, HydrateEmpty(1));
    var k := Client(None, 1, [], Fallback, Some({}), {}, false, [], 0, map[], None);
    var s2 := With(s0, 1, k);
    assert Do(s1, HydrateEmpty(1)) == s2;
    SecondEdit(s2);
    s := State([Row(1, FIRST), Row(2, SECOND)], 3, s2.snap, s2.uploads,
      s2.clients[0 := Idle(Some({7}), 1, [], {7, 8}, true, 1, None)], {FIRST, SECOND}, {});
    assert s.clients[1] == k;
    assert 7 in s.log[0].item.ops && 7 !in OpsBetween(s.log, 1, 2) + {} by {
      assert forall i :: 0 <= i < |s.log| && 1 < s.log[i].seqId <= 2 ==> s.log[i].item.ops == {8};
    }
  }

  /** Client 0 makes a second edit and pushes it. */
  lemma SecondEdit(s: State)
    requires Reachable(s) && 0 in s.clients && s.clients[0] == Idle(Some({7}), 1, [], {7}, true, 1, None)
    requires s.log == [Row(1, FIRST)] && s.next == 2 && s.enqueued == {FIRST} && s.rejected == {}
    ensures Reachable(State([Row(1, FIRST), Row(2, SECOND)], 3, s.snap, s.uploads,
      s.clients[0 := Idle(Some({7}), 1, [], {7, 8}, true, 1, None)], {FIRST, SECOND}, {}))
  {
    ReachStep(s, Edit(0, {8}, 2));
    var t := With(s, 0, Idle(Some({7}), 1, [SECOND], {7, 8}, true, 1, None)).(enqueued := {FIRST, SECOND});
    assert s.clients[0].doc.value + {8} == {7, 8} && {7, 8} - {7} == {8};
    assert s.clients[0].ver == {7} && Item(2, {7, 8} - {7}) == SECOND && s.enqueued + {SECOND} == {FIRST, SECOND};
    assert s.clients[0].queue + [SECOND] == [SECOND];
    assert Do(s, Edit(0, {8}, 2)).clients[0] == t.clients[0];
    assert Do(s, Edit(0, {8}, 2)) == t;
    PushOne(t, SECOND);
    assert t.log + [Row(2, SECOND)] == [Row(1, FIRST), Row(2, SECOND)];
    assert t.clients[0 := t.clients[0].(queue := [])] == s.clients[0 := Idle(Some({7}), 1, [], {7, 8}, true, 1, None)];
  }

  lemma ReachTakes(s: State, step: Step, t: State)
    requires Reachable(s) && Takes(s, step, t)
    ensures Reachable(t)
  {
    hide Enabled, Do, Reachable;
    ReachStep(s, step);
  }

  /** Runs of the code, without the guard, that break each guaranteed property: a stored pair that misses a
      delta; a drained state in which a client at the end of the log lacks an operation somebody made; a server
      snapshot that lacks a delta below its sequence id; and, by one separate persist, the stored pair again. */
  lemma GuardNeeded() returns (stored: State, quiescent: State, compacted: State, persisted: State)
    ensures Reachable(stored) && 1 in stored.clients && !Consistent(stored, 1)
    ensures Reachable(quiescent) && Drained(quiescent) && 1 in quiescent.clients
    ensures AtEnd(quiescent, quiescent.clients[1])
    ensures quiescent.clients[1].doc.value != AllOps(quiescent.enqueued)
    ensures Reachable(compacted) && BadSnapshot(compacted)
    ensures Reachable(persisted) && 1 in persisted.clients && !Consistent(persisted, 1)
  {
    var s := ExposedReachable();
    hide Reachable, Enabled, Do, LogOk;
    var s1, s2, s3, s4, s5, s6, s7 := UnguardedSyncLoses(s, 1, 0, 0);
    hide Takes, Exposed, BadSnapshot;
    ReachTakes(s, StartSync(1, 0), s1);
    ReachTakes(s1, PullPage(1, 0, LastSeq(s.log), true), s2);
    ReachTakes(s2, ApplyDeltas(1, 0), s3);
    ReachTakes(s3, CommitWrite(1), s4);
    ReachTakes(s4, WriteCursor(1, 0), s5);
    ReachTakes(s5, Upload(1, 0), s6);
    ReachTakes(s6, PutSnapshot(Snap(LastSeq(s.log), s5.clients[1].doc.value)), s7);
    stored, quiescent, compacted := s5, s5, s7;
    persisted := PersistReached(s);
    MissingOps(s5, 1, 0);
  }

  lemma MissingOps(s: State, c: nat, i: nat)
    requires Lost(s, c, i) && s.log[i].item in s.enqueued
    ensures s.clients[c].doc.value != AllOps(s.enqueued)
  {
    var o :| o in s.log[i].item.ops && o !in s.clients[c].doc.value;
    assert o in AllOps(s.enqueued);
  }

  lemma PersistReached(s: State) returns (t: State)
    requires Reachable(s) && Exposed(s, 1, 0, 0) && 7 in s.log[0].item.ops && s.clients[1].doc == Some({})
    requires s.log[0].seqId <= s.clients[1].cursor
    ensures Reachable(t) && 1 in t.clients && !Consistent(t, 1)
  {
    hide Reachable, Enabled, Do;
    var u, v := PersistEndIff(s, 1);
    hide Takes;
    NotCovered(s.log, s.clients[1].cursor, {}, 0);
    ReachTakes(s, Persist(1), u);
    ReachTakes(u, CommitWrite(1), v);
    t := v;
  }

  /** The third clause of the guard: a sync begun before the document is there, followed by a fall-back to the
      empty document, ends the same way. */
  lemma FallbackDuringSync() returns (s: State)
    ensures Reachable(s) && 1 in s.clients && !Consistent(s, 1)
  {
    Story2();
    var s0 := State([Row(1, FIRST)], 2, Some(ONE), {ONE}, map[0 := Idle(Some({7}), 1, [], {7}, true, 1, None)], {FIRST},
      {});
    Story3(s0);
    var k := Client(None, 1, [], Booting, None, {}, false, [], 0, map[], None);
    var s1 := With(s0, 1, k);
    SecondEdit(s1);
    var s2 := State([Row(1, FIRST), Row(2, SECOND)], 3, s1.snap, s1.uploads,
      s1.clients[0 := Idle(Some({7}), 1, [], {7, 8}, true, 1, None)], {FIRST, SECOND}, {});
    assert s2.clients[1] == k;
    s := FallbackEnd(s2, k);
  }

  lemma FallbackEnd(s: State, k: Client) returns (t: State)
    requires Reachable(s) && s.log == [Row(1, FIRST), Row(2, SECOND)] && 1 in s.clients && s.clients[1] == k
    requires k == Client(None, 1, [], Booting, None, {}, false, [], 0, map[], None)
    ensures Reachable(t) && 1 in t.clients && !Consistent(t, 1)
  {
    hide Reachable;
    var s1, s2 := SyncPulls(s, 1, 0);
    ReachTakes(s, StartSync(1, 0), s1);
    ReachTakes(s1, PullPage(1, 0, LastSeq(s.log), true), s2);
    var s3 := Do(s2, HydrateEmpty(1));
    ReachStep(s2, HydrateEmpty(1));
    var got := OpsBetween(s.log, 1, 2);
    assert s3.clients[1].doc == Some({}) && s3.clients[1].tasks[0] == Pulled(1, 2, got);
    var s4, s5, s6 := SyncEndIff(s3, 1, 0);
    hide Enabled, Do;
    ReachTakes(s3, ApplyDeltas(1, 0), s4);
    ReachTakes(s4, CommitWrite(1), s5);
    ReachTakes(s5, WriteCursor(1, 0), s6);
    assert 7 !in {} + got by {
      assert forall i :: 0 <= i < |s.log| && 1 < s.log[i].seqId <= 2 ==> s.log[i].item.ops == {8};
    }
    assert 7 in s.log[0].item.ops;
    NotCovered(s.log, 2, {} + got, 0);
    t := s6;
  }
}
