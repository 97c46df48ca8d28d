/** Safety of the sync protocol over all runs, and what holds when everything has been delivered. */
module SyncProtocol {
  import opened Forests
  import opened SyncState
  import opened SyncInvariant

  ghost predicate SnapsOk(s: State) {
    && (s.snap.Some? ==> SnapOk(s.log, s.enqueued, s.snap.value))
    && (forall u :: u in s.uploads ==> SnapOk(s.log, s.enqueued, u))
  }

  ghost predicate ClientsOk(s: State) {
    forall c {:trigger s.clients[c]} :: c in s.clients ==> Ok(s, s.clients[c])
  }

  ghost predicate Logged(log: seq<Row>, item: Item) {
    exists i :: 0 <= i < |log| && log[i].item == item
  }

  ghost predicate Queued(s: State, item: Item) {
    exists c :: c in s.clients && item in s.clients[c].queue
  }

  /** At least once: every item ever queued is still queued, in the log, or was rejected. */
  ghost predicate NothingLost(s: State) {
    forall item :: item in s.enqueued ==> item in s.rejected || Logged(s.log, item) || Queued(s, item)
  }

  /** Items a drain has got an answer for are in the log or rejected. */
  ghost predicate AnsweredOk(s: State, c: Client) {
    c.drain.Some? ==> forall i :: 0 <= i < c.drain.value.pos && i < |c.queue| ==>
      c.queue[i] in s.rejected || Logged(s.log, c.queue[i])
  }

  ghost predicate Answered(s: State) {
    forall c {:trigger s.clients[c]} :: c in s.clients ==> AnsweredOk(s, s.clients[c])
  }

  ghost predicate QueueOk(enq: set<Item>, c: Client) {
    && (forall i {:trigger c.queue[i]} :: 0 <= i < |c.queue| ==> c.queue[i] in enq)
    && (c.drain.Some? ==> c.drain.value.pos <= c.drain.value.n <= |c.queue|)
  }

  ghost predicate QueuesOk(s: State) {
    forall c {:trigger s.clients[c]} :: c in s.clients ==> QueueOk(s.enqueued, s.clients[c])
  }

  /** What every run keeps about delivery, guard or no guard. */
  ghost predicate Delivery(s: State) {
    LogOk(s) && QueuesOk(s) && NothingLost(s) && Answered(s)
  }

  /** What guarded runs keep in addition. */
  ghost predicate Covering(s: State) {
    SnapsOk(s) && ClientsOk(s)
  }

  ghost predicate Inv(s: State) {
    Delivery(s) && Covering(s)
  }

  lemma InvParts(s: State)
    ensures Delivery(s) <==> LogOk(s) && QueuesOk(s) && NothingLost(s) && Answered(s)
    ensures Inv(s) <==> Delivery(s) && Covering(s)
    ensures Covering(s) <==> SnapsOk(s) && ClientsOk(s)
  {}

  // ---- Delivery: one client changes, the log and the history stay --------------------------------------------

  /** No item is lost as long as the client keeps its queue or drops only answered items. */
  lemma QueueKept(s: State, c: nat, d: Client)
    requires Delivery(s) && QueueOk(s.enqueued, d)
    requires c in s.clients ==>
      forall item :: item in s.clients[c].queue ==> item in d.queue || item in s.rejected || Logged(s.log, item)
    requires AnsweredOk(s, d)
    ensures Delivery(With(s, c, d))
  {
    hide QueueOk;
    var t := With(s, c, d);
    forall item | item in t.enqueued ensures item in t.rejected || Logged(t.log, item) || Queued(t, item) {
      if item !in s.rejected && !Logged(s.log, item) {
        assert Queued(s, item);
        var k :| k in s.clients && item in s.clients[k].queue;
        assert k in t.clients && item in t.clients[k].queue;
      }
    }
    forall k | k in t.clients ensures AnsweredOk(t, t.clients[k]) {
      if k != c { assert AnsweredOk(s, s.clients[k]); }
    }
  }

  lemma ClientFacts(s: State, c: nat)
    requires Delivery(s) && c in s.clients
    ensures QueueOk(s.enqueued, s.clients[c]) && AnsweredOk(s, s.clients[c])
  {
    hide LogOk, NothingLost;
  }

  /** Steps of one client that leave its queue alone, and its drain, unless they end or begin one. */
  lemma SameQueue(s: State, c: nat, d: Client)
    requires Delivery(s) && c in s.clients && d.queue == s.clients[c].queue
    requires d.drain == s.clients[c].drain || d.drain.None? || (d.drain.value.pos == 0 && d.drain.value.n <= |d.queue|)
    ensures Delivery(With(s, c, d))
  {
    ClientFacts(s, c);
    assert QueueOk(s.enqueued, d) && AnsweredOk(s, d);
    hide Delivery, QueueOk, AnsweredOk;
    QueueKept(s, c, d);
  }

  // ---- Delivery: the server's steps --------------------------------------------------------------------------

  lemma LoggedMore(log: seq<Row>, row: Row, item: Item)
    requires Logged(log, item)
    ensures Logged(log + [row], item)
  {
    var i :| 0 <= i < |log| && log[i].item == item;
    assert (log + [row])[i].item == item;
  }

  /** A committed push: the log grows at its end. */
  lemma AppendDelivery(s: State, item: Item)
    requires Delivery(s) && item in s.enqueued
    ensures Delivery(Appended(s, item)) && Logged(Appended(s, item).log, item)
  {
    var t := Appended(s, item);
    assert t.log[|s.log|].item == item;
    hide QueueOk;
    forall x | x in t.enqueued ensures x in t.rejected || Logged(t.log, x) || Queued(t, x) {
      if Logged(s.log, x) { LoggedMore(s.log, Row(s.next, item), x); }
      if Queued(s, x) { assert Queued(t, x); }
    }
    forall k | k in t.clients ensures AnsweredOk(t, t.clients[k]) {
      ClientFacts(s, k);
      AnsweredMore(s, t, s.clients[k], item);
    }
    LastBelow(s);
  }

  lemma AnsweredMore(s: State, t: State, c: Client, item: Item)
    requires AnsweredOk(s, c) && t.rejected == s.rejected && t.log == s.log + [Row(s.next, item)]
    ensures AnsweredOk(t, c)
  {
    if c.drain.Some? {
      forall i | 0 <= i < c.drain.value.pos && i < |c.queue|
        ensures c.queue[i] in t.rejected || Logged(t.log, c.queue[i])
      {
        if Logged(s.log, c.queue[i]) { LoggedMore(s.log, Row(s.next, item), c.queue[i]); }
      }
    }
  }

  lemma RejectDelivery(s: State, item: Item)
    requires Delivery(s)
    ensures Delivery(s.(rejected := s.rejected + {item}))
  {
    var t := s.(rejected := s.rejected + {item});
    hide Logged, QueueOk;
    forall x | x in t.enqueued ensures x in t.rejected || Logged(t.log, x) || Queued(t, x) {
      if Queued(s, x) { assert Queued(t, x); }
    }
    forall k | k in t.clients ensures AnsweredOk(t, t.clients[k]) { ClientFacts(s, k); }
  }

  /** The server's snapshot and the uploads have nothing to do with delivery. */
  lemma SnapDelivery(s: State, snap: Option<Snap>, uploads: set<Snap>)
    requires Delivery(s)
    ensures Delivery(s.(snap := snap, uploads := uploads))
  {
    var t := s.(snap := snap, uploads := uploads);
    hide Logged, QueueOk;
    forall x | x in t.enqueued ensures x in t.rejected || Logged(t.log, x) || Queued(t, x) {
      if Queued(s, x) { assert Queued(t, x); }
    }
    forall k | k in t.clients ensures AnsweredOk(t, t.clients[k]) { ClientFacts(s, k); }
  }

  lemma NextAnswered(s: State, k: Client)
    requires AnsweredOk(s, k) && Posting(k)
    requires k.queue[k.drain.value.pos] in s.rejected || Logged(s.log, k.queue[k.drain.value.pos])
    ensures AnsweredOk(s, k.(drain := Some(Drain(k.drain.value.n, k.drain.value.pos + 1))))
  {
    hide Logged;
  }

  /** A drain may advance over an item that is answered, or end. */
  lemma DrainDelivery(s: State, c: nat)
    requires Delivery(s) && c in s.clients && Posting(s.clients[c])
    requires var k := s.clients[c];
      k.queue[k.drain.value.pos] in s.rejected || Logged(s.log, k.queue[k.drain.value.pos])
    ensures var k := s.clients[c];
      Delivery(With(s, c, k.(drain := Some(Drain(k.drain.value.n, k.drain.value.pos + 1)))))
        && Delivery(With(s, c, k.(drain := None)))
  {
    var k := s.clients[c];
    ClientFacts(s, c);
    NextAnswered(s, k);
    var d := k.(drain := Some(Drain(k.drain.value.n, k.drain.value.pos + 1)));
    assert QueueOk(s.enqueued, d);
    hide Delivery, QueueOk, AnsweredOk, Logged;
    QueueKept(s, c, d);
    SameQueue(s, c, k.(drain := None));
  }

  lemma PostItem(s: State, c: nat)
    requires Delivery(s) && c in s.clients && Posting(s.clients[c])
    ensures s.clients[c].queue[s.clients[c].drain.value.pos] in s.enqueued
  {
    ClientFacts(s, c);
  }

  lemma AcknowledgeDelivery(s: State, c: nat)
    requires Delivery(s) && c in s.clients && s.clients[c].drain.Some?
    requires s.clients[c].drain.value.pos <= |s.clients[c].queue|
    ensures var k := s.clients[c]; Delivery(With(s, c, k.(queue := k.queue[k.drain.value.pos..], drain := None)))
  {
    var k := s.clients[c];
    var n := k.drain.value.pos;
    var d := k.(queue := k.queue[n..], drain := None);
    ClientFacts(s, c);
    forall item | item in k.queue ensures item in d.queue || item in s.rejected || Logged(s.log, item) {
      var i :| 0 <= i < |k.queue| && k.queue[i] == item;
      if i >= n { assert d.queue[i - n] == item; }
    }
    assert forall i :: 0 <= i < |d.queue| ==> d.queue[i] == k.queue[i + n];
    hide Delivery, Logged;
    QueueKept(s, c, d);
  }

  lemma EditDelivery(s: State, c: nat, item: Item, d: Client)
    requires Delivery(s) && c in s.clients && d.queue == s.clients[c].queue + [item] && d.drain == s.clients[c].drain
    ensures Delivery(With(s, c, d).(enqueued := s.enqueued + {item}))
  {
    var t := With(s, c, d).(enqueued := s.enqueued + {item});
    hide Logged;
    forall x | x in t.enqueued ensures x in t.rejected || Logged(t.log, x) || Queued(t, x) {
      if x == item {
        assert item in t.clients[c].queue;
      } else if Queued(s, x) {
        var k :| k in s.clients && x in s.clients[k].queue;
        assert x in t.clients[k].queue;
      }
    }
    forall k | k in t.clients ensures AnsweredOk(t, t.clients[k]) && QueueOk(t.enqueued, t.clients[k]) {
      ClientFacts(s, if k in s.clients then k else c);
    }
  }

  lemma JoinDelivery(s: State, c: nat)
    requires Delivery(s) && c !in s.clients
    ensures Delivery(With(s, c, NEW_CLIENT))
  {
    assert QueueOk(s.enqueued, NEW_CLIENT) && AnsweredOk(s, NEW_CLIENT);
    hide Delivery, QueueOk, AnsweredOk;
    QueueKept(s, c, NEW_CLIENT);
  }

  /** Steps in which a single client changes and its queue stays. */
  predicate Internal(step: Step) {
    || step.Crash? || step.Boot? || step.HydrateLocal? || step.FetchSnapshot? || step.HydrateServer?
    || step.HydrateEmpty?
    || step.EarlyCursor? || step.InitSync? || step.StartSync? || step.PullPage? || step.ApplyDeltas? || step.Persist?
    || step.CommitWrite? || step.WriteCursor? || step.ReadCursor? || step.SyncFailed? || step.StartDrain?
    || step.DrainFailed?
  }

  lemma InternalQueue(s: State, step: Step)
    requires Internal(step) && Enabled(s, step)
    ensures step.c in s.clients && step.c in Do(s, step).clients
    ensures Do(s, step).clients[step.c].queue == s.clients[step.c].queue
    ensures Do(s, step) == With(s, step.c, Do(s, step).clients[step.c])
    ensures var d := Do(s, step).clients[step.c].drain;
      d == s.clients[step.c].drain || d.None? || (d.value.pos == 0 && d.value.n <= |s.clients[step.c].queue|)
  {}

  lemma StepDelivery(s: State, step: Step)
    requires Delivery(s) && Enabled(s, step)
    ensures Delivery(Do(s, step))
  {
    hide Delivery, Logged;
    if Internal(step) {
      InternalQueue(s, step);
      hide Enabled, Do;
      SameQueue(s, step.c, Do(s, step).clients[step.c]);
    } else {
      ServerDelivery(s, step);
    }
  }

  lemma ElsewhereDelivery(s: State)
    requires Delivery(s)
    ensures Delivery(s.(next := s.next + 1))
  {
    var t := s.(next := s.next + 1);
    hide Logged, QueueOk;
    forall x | x in t.enqueued ensures x in t.rejected || Logged(t.log, x) || Queued(t, x) {
      if Queued(s, x) { assert Queued(t, x); }
    }
    forall k | k in t.clients ensures AnsweredOk(t, t.clients[k]) { ClientFacts(s, k); }
  }

  lemma ServerDelivery(s: State, step: Step)
    requires Delivery(s) && Enabled(s, step) && !Internal(step)
    ensures Delivery(Do(s, step))
  {
    hide Delivery, Logged;
    match step {
      case PushElsewhere => ElsewhereDelivery(s);
      case Join(c) => JoinDelivery(s, c);
      case Upload(c, t) =>
        SameQueue(s, c, WithoutTask(s.clients[c], t));
        SnapDelivery(With(s, c, WithoutTask(s.clients[c], t)), s.snap,
          s.uploads + {Snap(s.clients[c].tasks[t].upTo, s.clients[c].doc.value)});
      case PutSnapshot(u) => SnapDelivery(s, Upserted(s.log, s.snap, u), s.uploads);
      case Edit(c, ops, id) => EditStep(s, c, ops, id);
      case Post(c) => PostStep(s, c);
      case PostLost(c) => PostStep(s, c);
      case Reject(c) => RejectStep(s, c);
      case Acknowledge(c) => AcknowledgeDelivery(s, c);
    }
  }

  lemma EditStep(s: State, c: nat, ops: Ops, id: nat)
    requires Delivery(s) && Enabled(s, Edit(c, ops, id))
    ensures Delivery(Do(s, Edit(c, ops, id)))
  {
    hide Delivery;
    var k := s.clients[c];
    var item := Item(id, k.doc.value + ops - k.ver);
    EditDelivery(s, c, item, k.(doc := Some(k.doc.value + ops), ver := k.doc.value + ops, queue := k.queue + [item]));
  }

  lemma PostStep(s: State, c: nat)
    requires Delivery(s) && c in s.clients && Posting(s.clients[c])
    ensures var k := s.clients[c]; var t := Appended(s, k.queue[k.drain.value.pos]);
      Delivery(With(t, c, k.(drain := Some(Drain(k.drain.value.n, k.drain.value.pos + 1)))))
        && Delivery(With(t, c, k.(drain := None)))
  {
    hide Delivery, Logged;
    var item := s.clients[c].queue[s.clients[c].drain.value.pos];
    PostItem(s, c);
    AppendDelivery(s, item);
    DrainDelivery(Appended(s, item), c);
  }

  lemma RejectStep(s: State, c: nat)
    requires Delivery(s) && c in s.clients && Posting(s.clients[c])
    ensures var k := s.clients[c]; var t := s.(rejected := s.rejected + {k.queue[k.drain.value.pos]});
      Delivery(With(t, c, k.(drain := Some(Drain(k.drain.value.n, k.drain.value.pos + 1)))))
  {
    hide Delivery, Logged;
    var item := s.clients[c].queue[s.clients[c].drain.value.pos];
    RejectDelivery(s, item);
    DrainDelivery(s.(rejected := s.rejected + {item}), c);
  }

  // ---- Covering: what guarded steps keep -----------------------------------------------------------------------

  lemma OneClient(s: State, c: nat, d: Client)
    requires ClientsOk(s) && Ok(s, d)
    ensures ClientsOk(With(s, c, d))
  {
    hide ClientOk;
  }

  lemma SnapAppend(s: State, u: Snap, item: Item)
    requires LogOk(s) && SnapOk(s.log, s.enqueued, u)
    ensures SnapOk(s.log + [Row(s.next, item)], s.enqueued, u)
  {
    LastBelow(s);
    CoversAppend(s.log, Row(s.next, item), u.seqId, u.ops);
  }

  lemma AppendCovering(s: State, item: Item)
    requires LogOk(s) && Covering(s)
    ensures Covering(Appended(s, item))
  {
    var t := Appended(s, item);
    hide ClientOk, SnapOk, LogOk;
    forall u | u in s.uploads ensures SnapOk(t.log, t.enqueued, u) { SnapAppend(s, u, item); }
    if s.snap.Some? { SnapAppend(s, s.snap.value, item); }
    forall c | c in t.clients ensures Ok(t, t.clients[c]) {
      assert Ok(s, s.clients[c]);
      ClientAppend(s, s.clients[c], item);
    }
  }

  /** The stored server snapshot is replaced only by a newer one. */
  lemma PutCovering(s: State, u: Snap)
    requires Covering(s) && u in s.uploads
    ensures Covering(s.(snap := Upserted(s.log, s.snap, u)))
  {
    var t := s.(snap := Upserted(s.log, s.snap, u));
    hide ClientOk, SnapOk;
    forall c | c in t.clients ensures Ok(t, t.clients[c]) {
      assert Ok(s, s.clients[c]);
      ClientFrame(s, s.clients[c], s.enqueued, SnapSeq(t.snap));
    }
  }

  lemma SameClients(s: State, t: State)
    requires ClientsOk(s) && t.log == s.log && t.enqueued == s.enqueued && t.snap == s.snap && t.clients == s.clients
    ensures ClientsOk(t)
  {
    hide ClientOk;
    forall c | c in t.clients ensures Ok(t, t.clients[c]) { assert Ok(s, s.clients[c]); }
  }

  lemma EditCovering(s: State, c: nat, item: Item, d: Client)
    requires Covering(s) && ClientOk(s.log, s.enqueued + {item}, SnapSeq(s.snap), d)
    ensures Covering(With(s, c, d).(enqueued := s.enqueued + {item}))
  {
    var t := With(s, c, d).(enqueued := s.enqueued + {item});
    AllOpsMore(s.enqueued, t.enqueued);
    hide ClientOk, Covers, AllOps;
    forall k | k in t.clients ensures Ok(t, t.clients[k]) {
      if k != c {
        assert Ok(s, s.clients[k]);
        ClientFrame(s, s.clients[k], t.enqueued, SnapSeq(s.snap));
      }
    }
  }

  lemma InternalOk(s: State, step: Step)
    requires Inv(s) && Internal(step) && Enabled(s, step) && Guarded(s, step)
    ensures step.c in s.clients && step.c in Do(s, step).clients && Ok(s, Do(s, step).clients[step.c])
    ensures Do(s, step) == With(s, step.c, Do(s, step).clients[step.c])
  {
    hide NothingLost, Answered, QueuesOk, ClientOk, Covers, SnapOk, LogOk;
    var k := s.clients[step.c];
    assert Ok(s, k);
    match step {
      case Crash(c) => CrashOk(s, k);
      case Boot(c) => BootOk(s, k);
      case HydrateLocal(c) => HydrateLocalOk(s, k);
      case FetchSnapshot(c) => FetchOk(s, k);
      case HydrateServer(c) => HydrateServerOk(s, k);
      case HydrateEmpty(c) => HydrateEmptyOk(s, k);
      case EarlyCursor(c) => EarlyCursorOk(s, k);
      case InitSync(c, t) => InitSyncOk(s, k, t);
      case StartSync(c, t) => StartSyncOk(s, k, t);
      case PullPage(c, t, upTo, last) => PullPageOk(s, k, t, upTo, last);
      case ApplyDeltas(c, t) => AppliedOk(s, k, t);
      case Persist(c) => PersistOk(s, k);
      case CommitWrite(c) => CommitWriteOk(s, k);
      case WriteCursor(c, t) => WriteCursorOk(s, k, t);
      case ReadCursor(c, t) => ReadCursorOk(s, k, t);
      case SyncFailed(c, t) => TaskRemoved(s, k, t);
      case DrainFailed(c) => QueueChange(s, k, k.queue, None);
      case StartDrain(c) => QueueChange(s, k, k.queue, Some(Drain(Min(50, |k.queue|), 0)));
    }
  }

  lemma WithCovering(s: State, c: nat, d: Client)
    requires Covering(s) && Ok(s, d)
    ensures Covering(With(s, c, d))
  {
    hide ClientOk, SnapOk;
    OneClient(s, c, d);
  }

  /** Every guarded step keeps the invariant. */
  lemma StepInv(s: State, step: Step)
    requires Inv(s) && Enabled(s, step) && Guarded(s, step)
    ensures Inv(Do(s, step))
  {
    StepDelivery(s, step);
    if Internal(step) {
      hide Delivery, Enabled, Guarded, Do, Ok;
      InternalOk(s, step);
      hide Covering;
      WithCovering(s, step.c, Do(s, step).clients[step.c]);
    } else {
      hide Delivery;
      ServerCovering(s, step);
    }
  }

  lemma ServerCovering(s: State, step: Step)
    requires Inv(s) && Enabled(s, step) && !Internal(step)
    ensures Covering(Do(s, step))
  {
    InvParts(s);
    hide Inv, Delivery, Covering, ClientOk, Covers, AllOps, LogOk, ClientsOk, SnapsOk, NothingLost, Answered, QueuesOk;
    match step {
      case PushElsewhere => ElsewhereCovering(s);
      case Join(c) => JoinOk(s); WithCovering(s, c, NEW_CLIENT);
      case Upload(c, t) => UploadCovering(s, c, t);
      case PutSnapshot(u) => PutCovering(s, u);
      case Edit(c, ops, id) => EditOps(s, c, ops, id);
      case Post(c) => PostCovering(s, c);
      case PostLost(c) => PostCovering(s, c);
      case Reject(c) => RejectCovering(s, c);
      case Acknowledge(c) => AcknowledgeCovering(s, c);
    }
  }

  lemma ElsewhereCovering(s: State)
    requires Covering(s)
    ensures Covering(s.(next := s.next + 1))
  {
    hide SnapOk, ClientOk;
    SameClients(s, s.(next := s.next + 1));
  }

  lemma EditOps(s: State, c: nat, ops: Ops, id: nat)
    requires Covering(s) && Enabled(s, Edit(c, ops, id))
    ensures Covering(Do(s, Edit(c, ops, id)))
  {
    var k := s.clients[c];
    var item := Item(id, k.doc.value + ops - k.ver);
    assert Ok(s, k);
    EditOk(s, k, ops, item);
    hide Covering, ClientOk;
    EditCovering(s, c, item, k.(doc := Some(k.doc.value + ops), ver := k.doc.value + ops, queue := k.queue + [item]));
  }

  lemma PostCovering(s: State, c: nat)
    requires Inv(s) && c in s.clients && Posting(s.clients[c])
    ensures var k := s.clients[c]; var t := Appended(s, k.queue[k.drain.value.pos]);
      Covering(With(t, c, k.(drain := Some(Drain(k.drain.value.n, k.drain.value.pos + 1)))))
        && Covering(With(t, c, k.(drain := None)))
  {
    hide NothingLost, Answered, QueuesOk, LogOk, ClientOk, SnapsOk;
    var k := s.clients[c];
    var t := Appended(s, k.queue[k.drain.value.pos]);
    AppendCovering(s, k.queue[k.drain.value.pos]);
    assert t.clients[c] == k && Ok(t, k);
    hide Covering, Ok;
    QueueChange(t, k, k.queue, Some(Drain(k.drain.value.n, k.drain.value.pos + 1)));
    QueueChange(t, k, k.queue, None);
    WithCovering(t, c, k.(drain := Some(Drain(k.drain.value.n, k.drain.value.pos + 1))));
    WithCovering(t, c, k.(drain := None));
  }

  lemma RejectCovering(s: State, c: nat)
    requires Covering(s) && c in s.clients && Posting(s.clients[c])
    ensures var k := s.clients[c]; var t := s.(rejected := s.rejected + {k.queue[k.drain.value.pos]});
      Covering(With(t, c, k.(drain := Some(Drain(k.drain.value.n, k.drain.value.pos + 1)))))
  {
    hide ClientOk, SnapOk;
    var k := s.clients[c];
    var t := s.(rejected := s.rejected + {k.queue[k.drain.value.pos]});
    SameClients(s, t);
    assert Covering(t) && t.clients[c] == k && Ok(t, k);
    hide Covering, Ok;
    QueueChange(t, k, k.queue, Some(Drain(k.drain.value.n, k.drain.value.pos + 1)));
    WithCovering(t, c, k.(drain := Some(Drain(k.drain.value.n, k.drain.value.pos + 1))));
  }

  lemma AcknowledgeCovering(s: State, c: nat)
    requires Covering(s) && c in s.clients && s.clients[c].drain.Some?
    requires s.clients[c].drain.value.pos <= |s.clients[c].queue|
    ensures var k := s.clients[c]; Covering(With(s, c, k.(queue := k.queue[k.drain.value.pos..], drain := None)))
  {
    hide ClientOk, SnapOk;
    var k := s.clients[c];
    assert Ok(s, k);
    hide Covering, Ok;
    QueueChange(s, k, k.queue[k.drain.value.pos..], None);
    WithCovering(s, c, k.(queue := k.queue[k.drain.value.pos..], drain := None));
  }

  /** What a client uploads covers the log up to the sequence id it names, however long ago it read that. */
  lemma UploadCovering(s: State, c: nat, t: nat)
    requires Covering(s) && Enabled(s, Upload(c, t))
    ensures Covering(Do(s, Upload(c, t)))
  {
    var k := s.clients[c];
    assert Ok(s, k) && TaskOk(s.log, s.enqueued, k, k.tasks[t]);
    var u := Snap(k.tasks[t].upTo, k.doc.value);
    assert SnapOk(s.log, s.enqueued, u);
    hide ClientOk, SnapOk;
    TaskRemoved(s, k, t);
    WithCovering(s, c, WithoutTask(k, t));
    SameClients(With(s, c, WithoutTask(k, t)), With(s, c, WithoutTask(k, t)).(uploads := s.uploads + {u}));
  }
}
