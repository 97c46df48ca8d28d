/** The invariant of the sync protocol, client by client and step by step. */
module SyncInvariant {
  import opened Forests
  import opened SyncState

  // ---- The log ------------------------------------------------------------------------------------

  /** Sequence ids start at 1 and grow; only queued items are ever logged. */
  ghost predicate LogOk(s: State) {
    && (forall i, k :: 0 <= i < k < |s.log| ==> s.log[i].seqId < s.log[k].seqId)
    && (forall i :: 0 <= i < |s.log| ==> 1 <= s.log[i].seqId < s.next && s.log[i].item in s.enqueued)
    && s.next >= 1
  }

  lemma LastIsLast(s: State, i: nat)
    requires LogOk(s) && i < |s.log|
    ensures 1 <= s.log[i].seqId <= LastSeq(s.log) < s.next
  {}

  lemma LastBelow(s: State)
    requires LogOk(s)
    ensures LastSeq(s.log) < s.next
  {}

  lemma CoversMore(log: seq<Row>, n: nat, x: Ops, y: Ops)
    requires Covers(log, n, x) && x <= y
    ensures Covers(log, n, y)
  {}

  lemma CoversLess(log: seq<Row>, n: nat, m: nat, x: Ops)
    requires Covers(log, n, x) && m <= n
    ensures Covers(log, m, x)
  {}

  lemma CoversNone(s: State, x: Ops)
    requires LogOk(s)
    ensures Covers(s.log, 0, x)
  {}

  lemma CoversAppend(log: seq<Row>, row: Row, n: nat, x: Ops)
    requires Covers(log, n, x) && n < row.seqId
    ensures Covers(log + [row], n, x)
  {}

  lemma CoversPage(log: seq<Row>, at: nat, upTo: nat, x: Ops, y: Ops)
    requires Covers(log, at, x) && x <= y && OpsBetween(log, at, upTo) <= y
    ensures Covers(log, upTo, y)
  {
    forall i | 0 <= i < |log| && log[i].seqId <= upTo ensures log[i].item.ops <= y {
      if log[i].seqId > at {
        forall o | o in log[i].item.ops ensures o in y { assert o in OpsBetween(log, at, upTo); }
      }
    }
  }

  /** At the end of the log, covering what was read covers any cursor. */
  lemma CoversAll(s: State, at: nat, n: nat, x: Ops)
    requires LogOk(s) && Covers(s.log, at, x) && LastSeq(s.log) <= at
    ensures Covers(s.log, n, x)
  {
    forall i | 0 <= i < |s.log| ensures s.log[i].seqId <= at { LastIsLast(s, i); }
  }

  lemma PageKnown(s: State, at: nat, upTo: nat)
    requires LogOk(s)
    ensures OpsBetween(s.log, at, upTo) <= AllOps(s.enqueued)
  {
    forall o | o in OpsBetween(s.log, at, upTo) ensures o in AllOps(s.enqueued) {
      var i :| 0 <= i < |s.log| && at < s.log[i].seqId <= upTo && o in s.log[i].item.ops;
      assert s.log[i].item in s.enqueued;
    }
  }

  // ---- Snapshots ----------------------------------------------------------------------------------

  /** A snapshot at `seqId` holds everything up to there and nothing nobody made. */
  ghost predicate SnapOk(log: seq<Row>, enq: set<Item>, u: Snap) {
    Covers(log, u.seqId, u.ops) && u.ops <= AllOps(enq) && u.seqId <= LastSeq(log)
  }

  // ---- One client ----------------------------------------------------------------------------------

  /** The stored snapshot holds every delta up to the stored cursor. */
  ghost predicate StoredOk(log: seq<Row>, snapSeq: nat, c: Client) {
    && (c.snap.Some? ==> Covers(log, c.cursor, c.snap.value))
    && c.cursor <= LastSeq(log)
    && (c.snap.None? ==> c.cursor <= snapSeq)
  }

  /** Snapshot writes commit in order and each contains the one before. */
  ghost predicate ChainOk(log: seq<Row>, c: Client) {
    && (c.doc.None? ==> c.pending == [])
    && (c.doc.Some? && c.snap.Some? ==> c.snap.value <= c.doc.value)
    && (forall i {:trigger c.pending[i]} :: 0 <= i < |c.pending| ==>
          c.pending[i] <= c.doc.value && Covers(log, c.cursor, c.pending[i])
            && (c.snap.Some? ==> c.snap.value <= c.pending[i]))
    && (forall i, k :: 0 <= i < k < |c.pending| ==> c.pending[i] <= c.pending[k])
  }

  ghost predicate KnownOk(enq: set<Item>, c: Client) {
    && (c.snap.Some? ==> c.snap.value <= AllOps(enq)) && (c.doc.Some? ==> c.doc.value <= AllOps(enq))
    && c.ver <= AllOps(enq)
  }

  ghost predicate OriginOk(log: seq<Row>, enq: set<Item>, snapSeq: nat, c: Client) {
    && (c.doc.None? ==> !c.caughtUp)
    && match c.origin
       case Down | Booting => c.doc.None?
       case Fetched(u) => c.doc.None? && c.snap.None? && c.cursor <= u.seqId <= snapSeq && SnapOk(log, enq, u)
       case FromLocal => c.doc.Some? && c.snap.Some?
       case FromServer(u) => c.doc.Some? && u.seqId <= snapSeq && SnapOk(log, enq, u) && u.ops <= c.doc.value
         && (c.snap.Some? ==> u.ops <= c.snap.value) && forall i :: 0 <= i < |c.pending| ==> u.ops <= c.pending[i]
       case Fallback => c.doc.Some?
  }

  /** Where a sync may start from the cursor, memory holds everything up to the cursor. */
  ghost predicate MemoryOk(log: seq<Row>, c: Client) {
    CursorUsable(c) ==> Covers(log, c.cursor, Memory(c))
  }

  /** Memory holds everything up to where the sync began, or will: nothing is loaded or stored yet, and
      whatever is loaded covers the stored cursor. */
  ghost predicate Based(log: seq<Row>, c: Client, since: nat) {
    Covers(log, since, Memory(c)) || (c.doc.None? && c.snap.None? && since <= c.cursor)
  }

  /** After the last page: with what was pulled, memory holds everything up to the cursor, or will. */
  ghost predicate ReachesCursor(log: seq<Row>, c: Client, at: nat, got: Ops) {
    Covers(log, c.cursor, Memory(c) + got) || (c.doc.None? && c.snap.None? && c.cursor <= at)
  }

  ghost predicate PullOk(log: seq<Row>, enq: set<Item>, c: Client, since: nat, at: nat, got: Ops) {
    && Based(log, c, since) && OpsBetween(log, since, at) <= got
    && since <= at <= LastSeq(log) && got <= AllOps(enq) && (at == since ==> got == {})
  }

  ghost predicate TaskOk(log: seq<Row>, enq: set<Item>, c: Client, k: Task) {
    match k
    case Pulling(since, at, got) => PullOk(log, enq, c, since, at, got)
    case Pulled(since, at, got) => PullOk(log, enq, c, since, at, got) && ReachesCursor(log, c, at, got)
    case Persisting(ticket, upTo) =>
      && c.doc.Some? && upTo <= LastSeq(log)
      && if ticket < c.committed then c.snap.Some? && Covers(log, upTo, c.snap.value)
         else ticket - c.committed < |c.pending| && Covers(log, upTo, c.pending[ticket - c.committed])
    case Uploading(upTo) => c.doc.Some? && upTo <= LastSeq(log) && Covers(log, upTo, c.doc.value)
  }

  ghost predicate TasksOk(log: seq<Row>, enq: set<Item>, c: Client) {
    forall t {:trigger c.tasks[t]} :: t in c.tasks ==> TaskOk(log, enq, c, c.tasks[t])
  }

  ghost predicate ClientOk(log: seq<Row>, enq: set<Item>, snapSeq: nat, c: Client) {
    && StoredOk(log, snapSeq, c) && ChainOk(log, c) && KnownOk(enq, c) && OriginOk(log, enq, snapSeq, c)
    && MemoryOk(log, c) && TasksOk(log, enq, c)
  }

  // ---- What other parties do to a client: the log, the snapshot and the history grow -------------------

  lemma AllOpsMore(a: set<Item>, b: set<Item>)
    requires a <= b
    ensures AllOps(a) <= AllOps(b)
  {}

  lemma ClientFrame(s: State, c: Client, enq: set<Item>, snapSeq: nat)
    requires ClientOk(s.log, s.enqueued, SnapSeq(s.snap), c)
    requires s.enqueued <= enq && SnapSeq(s.snap) <= snapSeq
    ensures ClientOk(s.log, enq, snapSeq, c)
  {
    AllOpsMore(s.enqueued, enq);
    hide Covers, AllOps, Memory, CursorUsable;
    forall t | t in c.tasks ensures TaskOk(s.log, enq, c, c.tasks[t]) {
      assert TaskOk(s.log, s.enqueued, c, c.tasks[t]);
    }
  }

  lemma PageAppend(log: seq<Row>, row: Row, a: nat, b: nat)
    requires b < row.seqId
    ensures OpsBetween(log + [row], a, b) <= OpsBetween(log, a, b)
  {
    forall o | o in OpsBetween(log + [row], a, b) ensures o in OpsBetween(log, a, b) {
      var i :| 0 <= i < |log + [row]| && a < (log + [row])[i].seqId <= b && o in (log + [row])[i].item.ops;
      assert log[i] == (log + [row])[i];
    }
  }

  lemma PullAppend(s: State, c: Client, since: nat, at: nat, got: Ops, item: Item)
    requires LogOk(s) && PullOk(s.log, s.enqueued, c, since, at, got) && c.cursor <= LastSeq(s.log)
    ensures PullOk(s.log + [Row(s.next, item)], s.enqueued, c, since, at, got)
    ensures ReachesCursor(s.log, c, at, got) ==> ReachesCursor(s.log + [Row(s.next, item)], c, at, got)
  {
    LastBelow(s);
    var row := Row(s.next, item);
    assert LastSeq(s.log + [row]) == s.next;
    PageAppend(s.log, row, since, at);
    if Covers(s.log, since, Memory(c)) { CoversAppend(s.log, row, since, Memory(c)); }
    if Covers(s.log, c.cursor, Memory(c) + got) { CoversAppend(s.log, row, c.cursor, Memory(c) + got); }
    hide Covers, Memory, OpsBetween;
  }

  lemma TaskAppend(s: State, c: Client, k: Task, item: Item)
    requires LogOk(s) && TaskOk(s.log, s.enqueued, c, k) && c.cursor <= LastSeq(s.log)
    ensures TaskOk(s.log + [Row(s.next, item)], s.enqueued, c, k)
  {
    LastBelow(s);
    var row := Row(s.next, item);
    match k {
      case Pulling(since, at, got) => PullAppend(s, c, since, at, got, item);
      case Pulled(since, at, got) => PullAppend(s, c, since, at, got, item);
      case Persisting(ticket, upTo) =>
        CoversAppend(s.log, row, upTo, if ticket < c.committed then c.snap.value else c.pending[ticket - c.committed]);
      case Uploading(upTo) => CoversAppend(s.log, row, upTo, c.doc.value);
    }
  }

  lemma ClientAppend(s: State, c: Client, item: Item)
    requires LogOk(s) && ClientOk(s.log, s.enqueued, SnapSeq(s.snap), c)
    ensures ClientOk(s.log + [Row(s.next, item)], s.enqueued, SnapSeq(s.snap), c)
  {
    var row := Row(s.next, item);
    LastBelow(s);
    assert LastSeq(s.log + [row]) == s.next;
    hide Covers, Memory, CursorUsable, TaskOk, LogOk, LastSeq;
    if c.snap.Some? { CoversAppend(s.log, row, c.cursor, c.snap.value); }
    forall i | 0 <= i < |c.pending| ensures Covers(s.log + [row], c.cursor, c.pending[i]) {
      CoversAppend(s.log, row, c.cursor, c.pending[i]);
    }
    if CursorUsable(c) { CoversAppend(s.log, row, c.cursor, Memory(c)); }
    if c.origin.Fetched? || c.origin.FromServer? { CoversAppend(s.log, row, c.origin.s.seqId, c.origin.s.ops); }
    forall t | t in c.tasks
      ensures TaskOk(s.log + [row], s.enqueued, c, c.tasks[t])
    {
      TaskAppend(s, c, c.tasks[t], item);
    }
  }

  // ---- The steps of a client, one by one -----------------------------------------------------------------

  ghost predicate Ok(s: State, c: Client) {
    ClientOk(s.log, s.enqueued, SnapSeq(s.snap), c)
  }

  /** Tasks depend on the document, the stored snapshot, the cursor and the pending writes only. */
  lemma TaskSame(log: seq<Row>, enq: set<Item>, c: Client, d: Client, k: Task)
    requires TaskOk(log, enq, c, k)
    requires d.doc == c.doc && d.snap == c.snap && d.cursor == c.cursor && d.committed == c.committed
    requires c.pending <= d.pending
    ensures TaskOk(log, enq, d, k)
  {
    hide Covers, AllOps, OpsBetween;
  }

  lemma TasksSame(log: seq<Row>, enq: set<Item>, c: Client, d: Client)
    requires TasksOk(log, enq, c) && d.tasks.Keys <= c.tasks.Keys
    requires (forall t :: t in d.tasks ==> d.tasks[t] == c.tasks[t])
    requires d.doc == c.doc && d.snap == c.snap && d.cursor == c.cursor && d.committed == c.committed
    requires c.pending <= d.pending
    ensures TasksOk(log, enq, d)
  {
    hide TaskOk;
    forall t | t in d.tasks ensures TaskOk(log, enq, d, d.tasks[t]) { TaskSame(log, enq, c, d, c.tasks[t]); }
  }

  /** Pulls keep their promise when a loaded document and what is stored only grow. */
  lemma PullGrows(log: seq<Row>, enq: set<Item>, c: Client, d: Client, since: nat, at: nat, got: Ops)
    requires PullOk(log, enq, c, since, at, got) && Memory(c) <= Memory(d) && (c.doc.Some? || c.snap.Some?)
    ensures PullOk(log, enq, d, since, at, got)
    ensures ReachesCursor(log, c, at, got) && (d.cursor == c.cursor || Covers(log, d.cursor, Memory(d))) ==>
      ReachesCursor(log, d, at, got)
  {
    CoversMore(log, since, Memory(c), Memory(d));
    if Covers(log, d.cursor, Memory(d)) { CoversMore(log, d.cursor, Memory(d), Memory(d) + got); }
    if Covers(log, d.cursor, Memory(c) + got) { CoversMore(log, d.cursor, Memory(c) + got, Memory(d) + got); }
    hide Covers, Memory, OpsBetween, AllOps;
  }

  /** Tasks keep their promise when memory and what is stored only grow. */
  lemma TaskGrows(log: seq<Row>, enq: set<Item>, c: Client, d: Client, k: Task)
    requires TaskOk(log, enq, c, k) && (k.Pulling? || k.Pulled? || k.Uploading?)
    requires c.doc.Some? && d.doc.Some? && c.doc.value <= d.doc.value
    requires k.Pulled? ==> d.cursor == c.cursor || Covers(log, d.cursor, d.doc.value)
    ensures TaskOk(log, enq, d, k)
  {
    match k {
      case Pulling(since, at, got) => PullGrows(log, enq, c, d, since, at, got);
      case Pulled(since, at, got) => PullGrows(log, enq, c, d, since, at, got);
      case Uploading(upTo) => CoversMore(log, upTo, c.doc.value, d.doc.value);
    }
  }

  lemma JoinOk(s: State)
    requires LogOk(s)
    ensures Ok(s, NEW_CLIENT)
  {
    CoversNone(s, {});
  }

  lemma CrashOk(s: State, c: Client)
    requires LogOk(s) && Ok(s, c)
    ensures Ok(s, Crashed(c))
  {
    CoversNone(s, {});
  }

  lemma BootOk(s: State, c: Client)
    requires Ok(s, c) && c.origin.Down?
    ensures Ok(s, c.(origin := Booting))
  {
    TasksSame(s.log, s.enqueued, c, c.(origin := Booting));
    hide Covers, AllOps, TasksOk;
  }

  lemma HydrateLocalOk(s: State, c: Client)
    requires Ok(s, c) && c.origin.Booting? && c.snap.Some?
    ensures Ok(s, Hydrated(c, FromLocal, c.snap.value, c.snap.value))
  {
    var d := Hydrated(c, FromLocal, c.snap.value, c.snap.value);
    forall t | t in d.tasks ensures TaskOk(s.log, s.enqueued, d, d.tasks[t]) {
      assert TaskOk(s.log, s.enqueued, c, c.tasks[t]);
      LoadedTask(s, c, d, c.tasks[t]);
    }
    hide Covers, AllOps, TaskOk;
  }

  /** Loading what the cursor stands for keeps the tasks' promise. */
  lemma LoadedTask(s: State, c: Client, d: Client, k: Task)
    requires TaskOk(s.log, s.enqueued, c, k) && c.doc.None? && d.doc.Some? && d.snap == c.snap && d.cursor == c.cursor
    requires c.snap.Some? && d.doc.value == c.snap.value
    ensures TaskOk(s.log, s.enqueued, d, k)
  {
    assert Memory(d) == Memory(c);
    hide Covers, AllOps, OpsBetween, Memory;
  }

  lemma FetchOk(s: State, c: Client)
    requires Ok(s, c) && c.origin.Booting? && c.snap.None? && s.snap.Some? && SnapOk(s.log, s.enqueued, s.snap.value)
    ensures Ok(s, c.(origin := Fetched(s.snap.value)))
  {
    TasksSame(s.log, s.enqueued, c, c.(origin := Fetched(s.snap.value)));
    hide Covers, AllOps, SnapOk, TasksOk;
  }

  /** A sync that began before the document was there is served by a document that covers the cursor. */
  lemma ServedTask(log: seq<Row>, enq: set<Item>, c: Client, d: Client, k: Task, x: Ops)
    requires TaskOk(log, enq, c, k) && c.doc.None? && c.snap.None? && d.doc == Some(x) && d.snap.None?
    requires d.cursor == c.cursor
    requires Covers(log, c.cursor, x)
    ensures TaskOk(log, enq, d, k)
  {
    if k.Pulling? || k.Pulled? {
      assert Memory(c) == {} && Memory(d) == x;
      if Covers(log, k.since, {}) { CoversMore(log, k.since, {}, x); } else { CoversLess(log, c.cursor, k.since, x); }
      CoversMore(log, c.cursor, x, x + k.got);
    }
    hide Covers, AllOps, OpsBetween;
  }

  lemma HydrateServerOk(s: State, c: Client)
    requires Ok(s, c) && c.origin.Fetched?
    ensures Ok(s, Hydrated(c, FromServer(c.origin.s), c.origin.s.ops, c.origin.s.ops))
  {
    var u := c.origin.s;
    var d := Hydrated(c, FromServer(u), u.ops, u.ops);
    CoversLess(s.log, u.seqId, c.cursor, u.ops);
    forall t | t in d.tasks ensures TaskOk(s.log, s.enqueued, d, d.tasks[t]) {
      assert TaskOk(s.log, s.enqueued, c, c.tasks[t]);
      ServedTask(s.log, s.enqueued, c, d, c.tasks[t], u.ops);
    }
    hide Covers, AllOps, TaskOk;
  }

  lemma HydrateEmptyOk(s: State, c: Client)
    requires LogOk(s) && Ok(s, c) && c.origin.Booting? && c.snap.None? && (c.cursor == 0 || c.tasks == map[])
    ensures Ok(s, Hydrated(c, Fallback, {}, {}))
  {
    var d := Hydrated(c, Fallback, {}, {});
    CoversNone(s, {});
    forall t | t in d.tasks ensures TaskOk(s.log, s.enqueued, d, d.tasks[t]) {
      assert TaskOk(s.log, s.enqueued, c, c.tasks[t]);
      ServedTask(s.log, s.enqueued, c, d, c.tasks[t], {});
    }
    hide Covers, AllOps, TaskOk;
  }

  /** The early write of the cursor when a server snapshot was loaded. */
  lemma EarlyCursorOk(s: State, c: Client)
    requires Ok(s, c) && c.origin.FromServer?
    ensures Ok(s, c.(cursor := c.origin.s.seqId))
  {
    var u := c.origin.s;
    var d := c.(cursor := u.seqId);
    if c.snap.Some? { CoversMore(s.log, u.seqId, u.ops, c.snap.value); }
    CoversMore(s.log, u.seqId, u.ops, c.doc.value);
    forall i | 0 <= i < |c.pending| ensures Covers(s.log, d.cursor, c.pending[i]) {
      CoversMore(s.log, u.seqId, u.ops, c.pending[i]);
    }
    hide Covers, AllOps;
    forall t | t in d.tasks ensures TaskOk(s.log, s.enqueued, d, d.tasks[t]) {
      assert TaskOk(s.log, s.enqueued, c, c.tasks[t]);
      if !c.tasks[t].Persisting? { TaskGrows(s.log, s.enqueued, c, d, c.tasks[t]); }
    }
  }

  lemma TaskAdded(s: State, c: Client, t: nat, k: Task)
    requires Ok(s, c) && TaskOk(s.log, s.enqueued, c, k)
    ensures Ok(s, WithTask(c, t, k))
  {
    var d := WithTask(c, t, k);
    forall x | x in d.tasks ensures TaskOk(s.log, s.enqueued, d, d.tasks[x]) {
      TaskSame(s.log, s.enqueued, c, d, if x == t then k else c.tasks[x]);
    }
    hide Covers, AllOps, TaskOk;
  }

  lemma TaskRemoved(s: State, c: Client, t: nat)
    requires Ok(s, c)
    ensures Ok(s, WithoutTask(c, t))
  {
    TasksSame(s.log, s.enqueued, c, WithoutTask(c, t));
    hide Covers, AllOps, TasksOk;
  }

  lemma SyncStartOk(s: State, c: Client, t: nat, since: nat)
    requires LogOk(s) && Ok(s, c) && Based(s.log, c, since) && since <= LastSeq(s.log)
    ensures Ok(s, WithTask(c, t, Pulling(since, since, {})))
  {
    assert OpsBetween(s.log, since, since) == {};
    hide ClientOk, Based;
    TaskAdded(s, c, t, Pulling(since, since, {}));
  }

  lemma InitSyncOk(s: State, c: Client, t: nat)
    requires LogOk(s) && Ok(s, c) && c.doc.Some?
    ensures Ok(s, WithTask(c, t, Pulling(InitSince(c), InitSince(c), {})))
  {
    match c.origin {
      case FromLocal =>
      case FromServer(u) => CoversMore(s.log, u.seqId, u.ops, c.doc.value);
      case Fallback => CoversNone(s, c.doc.value);
    }
    SyncStartOk(s, c, t, InitSince(c));
  }

  lemma StartSyncOk(s: State, c: Client, t: nat)
    requires LogOk(s) && Ok(s, c) && (CursorUsable(c) || c.doc.None?)
    ensures Ok(s, WithTask(c, t, Pulling(c.cursor, c.cursor, {})))
  {
    assert Based(s.log, c, c.cursor);
    hide TasksOk, OriginOk, KnownOk, ChainOk, Covers, LogOk, Based;
    SyncStartOk(s, c, t, c.cursor);
  }

  /** An upload is due for the cursor just read. */
  lemma ReadCursorOk(s: State, c: Client, t: nat)
    requires Ok(s, c) && c.doc.Some? && c.caughtUp
    ensures Ok(s, WithTask(c, t, Uploading(c.cursor)))
  {
    assert TaskOk(s.log, s.enqueued, c, Uploading(c.cursor));
    hide ClientOk, TaskOk;
    TaskAdded(s, c, t, Uploading(c.cursor));
  }

  lemma PagesJoin(log: seq<Row>, a: nat, b: nat, c: nat)
    requires a <= b <= c
    ensures OpsBetween(log, a, c) <= OpsBetween(log, a, b) + OpsBetween(log, b, c)
  {
    forall o | o in OpsBetween(log, a, c) ensures o in OpsBetween(log, a, b) + OpsBetween(log, b, c) {
      var i :| 0 <= i < |log| && a < log[i].seqId <= c && o in log[i].item.ops;
      if log[i].seqId <= b { assert o in OpsBetween(log, a, b); } else { assert o in OpsBetween(log, b, c); }
    }
  }

  lemma PullPageOk(s: State, c: Client, t: nat, upTo: nat, last: bool)
    requires LogOk(s) && Ok(s, c) && t in c.tasks && c.tasks[t].Pulling?
    requires PageEnd(s.log, c.tasks[t].at, upTo) && (last ==> LastSeq(s.log) <= upTo)
    ensures var k := c.tasks[t];
      var got := k.got + OpsBetween(s.log, k.at, upTo);
      Ok(s, WithTask(c, t, if last then Pulled(k.since, upTo, got) else Pulling(k.since, upTo, got)))
  {
    var k := c.tasks[t];
    assert TaskOk(s.log, s.enqueued, c, k);
    var got := k.got + OpsBetween(s.log, k.at, upTo);
    PageKnown(s, k.at, upTo);
    PageBound(s, k.at, upTo);
    PagesJoin(s.log, k.since, k.at, upTo);
    if last {
      if Covers(s.log, k.since, Memory(c)) {
        CoversPage(s.log, k.since, upTo, Memory(c), Memory(c) + got);
        CoversAll(s, upTo, c.cursor, Memory(c) + got);
      }
      assert ReachesCursor(s.log, c, upTo, got);
    }
    assert PullOk(s.log, s.enqueued, c, k.since, upTo, got);
    hide ClientOk, LogOk, PageEnd, PullOk, ReachesCursor;
    TaskAdded(s, c, t, if last then Pulled(k.since, upTo, got) else Pulling(k.since, upTo, got));
  }

  lemma PageBound(s: State, at: nat, upTo: nat)
    requires LogOk(s) && PageEnd(s.log, at, upTo) && at <= LastSeq(s.log)
    ensures at <= upTo <= LastSeq(s.log) && (upTo == at ==> OpsBetween(s.log, at, upTo) == {})
  {
    if upTo != at {
      var i :| 0 <= i < |s.log| && s.log[i].seqId == upTo;
      LastIsLast(s, i);
    }
  }

  lemma AppliedOk(s: State, c: Client, t: nat)
    requires Ok(s, c) && t in c.tasks && c.tasks[t].Pulled? && c.doc.Some?
    ensures Ok(s, Applied(c, t))
  {
    var k := c.tasks[t];
    assert TaskOk(s.log, s.enqueued, c, k);
    if k.at == k.since {
      assert c.doc.value + k.got == c.doc.value;
      NothingApplied(s, c, t);
    } else {
      CoversPage(s.log, k.since, k.at, c.doc.value, c.doc.value + k.got);
      DeltasApplied(s, c, t);
    }
  }

  lemma NothingApplied(s: State, c: Client, t: nat)
    requires Ok(s, c) && t in c.tasks && c.doc.Some? && Covers(s.log, c.cursor, c.doc.value)
    ensures Ok(s, WithoutTask(c, t).(caughtUp := true))
  {
    TasksSame(s.log, s.enqueued, c, WithoutTask(c, t).(caughtUp := true));
    hide Covers, AllOps, TasksOk;
  }

  lemma DeltasApplied(s: State, c: Client, t: nat)
    requires Ok(s, c) && t in c.tasks && c.tasks[t].Pulled? && c.doc.Some? && c.tasks[t].at != c.tasks[t].since
    requires Covers(s.log, c.tasks[t].at, c.doc.value + c.tasks[t].got)
    ensures Ok(s, Applied(c, t))
  {
    var k, e := c.tasks[t], Applied(c, t);
    var d := c.doc.value + k.got;
    assert TaskOk(s.log, s.enqueued, c, k);
    assert e.pending == c.pending + [d];
    hide Covers, AllOps;
    forall x | x in e.tasks ensures TaskOk(s.log, s.enqueued, e, e.tasks[x]) {
      if x != t {
        assert TaskOk(s.log, s.enqueued, c, c.tasks[x]);
        if !c.tasks[x].Persisting? { TaskGrows(s.log, s.enqueued, c, e, c.tasks[x]); }
      }
    }
    hide TaskOk;
  }

  lemma PersistOk(s: State, c: Client)
    requires Ok(s, c) && c.doc.Some? && CursorUsable(c)
    ensures Ok(s, c.(pending := c.pending + [c.doc.value]))
  {
    TasksSame(s.log, s.enqueued, c, c.(pending := c.pending + [c.doc.value]));
    hide Covers, AllOps, TasksOk;
  }

  lemma CommitWriteOk(s: State, c: Client)
    requires Ok(s, c) && c.pending != []
    ensures Ok(s, c.(snap := Some(c.pending[0]), pending := c.pending[1..], committed := c.committed + 1))
  {
    var e := c.(snap := Some(c.pending[0]), pending := c.pending[1..], committed := c.committed + 1);
    CoversMore(s.log, c.cursor, c.pending[0], c.doc.value);
    assert forall i :: 0 <= i < |e.pending| ==> e.pending[i] == c.pending[i + 1];
    forall x | x in e.tasks ensures TaskOk(s.log, s.enqueued, e, e.tasks[x]) {
      assert TaskOk(s.log, s.enqueued, c, c.tasks[x]);
      CommittedTask(s, c, e, c.tasks[x]);
    }
    hide Covers, AllOps, TaskOk;
  }

  lemma CommittedTask(s: State, c: Client, e: Client, k: Task)
    requires TaskOk(s.log, s.enqueued, c, k) && ChainOk(s.log, c) && c.pending != []
    requires e == c.(snap := Some(c.pending[0]), pending := c.pending[1..], committed := c.committed + 1)
    ensures TaskOk(s.log, s.enqueued, e, k)
  {
    if k.Persisting? && k.ticket < c.committed { CoversMore(s.log, k.upTo, c.snap.value, c.pending[0]); }
  }

  /** The cursor is written only after the snapshot write it belongs to. */
  lemma WriteCursorOk(s: State, c: Client, t: nat)
    requires Ok(s, c) && t in c.tasks && c.tasks[t].Persisting? && c.tasks[t].ticket < c.committed
    ensures Ok(s, WithTask(c, t, Uploading(c.tasks[t].upTo)).(cursor := c.tasks[t].upTo))
  {
    var upTo := c.tasks[t].upTo;
    var e := WithTask(c, t, Uploading(upTo)).(cursor := upTo);
    assert TaskOk(s.log, s.enqueued, c, c.tasks[t]);
    CoversMore(s.log, upTo, c.snap.value, c.doc.value);
    forall i | 0 <= i < |c.pending|
      ensures Covers(s.log, upTo, c.pending[i])
    {
      CoversMore(s.log, upTo, c.snap.value, c.pending[i]);
    }
    hide Covers, AllOps;
    forall x | x in e.tasks ensures TaskOk(s.log, s.enqueued, e, e.tasks[x]) {
      if x != t {
        assert TaskOk(s.log, s.enqueued, c, c.tasks[x]);
        if !c.tasks[x].Persisting? { TaskGrows(s.log, s.enqueued, c, e, c.tasks[x]); }
      }
    }
  }

  lemma QueueChange(s: State, c: Client, q: seq<Item>, d: Option<Drain>)
    requires Ok(s, c)
    ensures Ok(s, c.(queue := q, drain := d))
  {
    TasksSame(s.log, s.enqueued, c, c.(queue := q, drain := d));
    hide Covers, AllOps, TasksOk;
  }

  /** An edit and the delta exported for it: everything since the version cursor. */
  lemma EditOk(s: State, c: Client, ops: Ops, item: Item)
    requires Ok(s, c) && c.doc.Some? && ops !! AllOps(s.enqueued) && item.ops == c.doc.value + ops - c.ver
    ensures ClientOk(s.log, s.enqueued + {item}, SnapSeq(s.snap),
      c.(doc := Some(c.doc.value + ops), ver := c.doc.value + ops, queue := c.queue + [item]))
  {
    var enq := s.enqueued + {item};
    var d := c.doc.value + ops;
    var e := c.(doc := Some(d), ver := d, queue := c.queue + [item]);
    EditKnown(s, c, ops, item);
    AllOpsMore(s.enqueued, enq);
    if CursorUsable(c) { CoversMore(s.log, c.cursor, c.doc.value, d); }
    hide Covers, AllOps;
    forall x | x in e.tasks ensures TaskOk(s.log, enq, e, e.tasks[x]) {
      assert TaskOk(s.log, s.enqueued, c, c.tasks[x]);
      EditTask(s, c, e, enq, c.tasks[x]);
    }
  }

  lemma EditTask(s: State, c: Client, e: Client, enq: set<Item>, k: Task)
    requires TaskOk(s.log, s.enqueued, c, k) && AllOps(s.enqueued) <= AllOps(enq)
    requires c.doc.Some? && e.doc.Some? && c.doc.value <= e.doc.value
    requires e.cursor == c.cursor && e.pending == c.pending && e.committed == c.committed && e.snap == c.snap
    ensures TaskOk(s.log, enq, e, k)
  {
    if !k.Persisting? { TaskGrows(s.log, s.enqueued, c, e, k); }
    hide Covers, AllOps;
  }

  /** The version cursor covers only what was exported before, so a fresh operation is in the delta, and
      with it everything in the document has been queued by somebody. */
  lemma EditKnown(s: State, c: Client, ops: Ops, item: Item)
    requires KnownOk(s.enqueued, c) && c.doc.Some? && ops !! AllOps(s.enqueued) && item.ops == c.doc.value + ops - c.ver
    ensures ops <= item.ops
    ensures c.doc.value + ops <= AllOps(s.enqueued + {item})
  {
    forall o | o in c.doc.value + ops ensures o in AllOps(s.enqueued + {item}) {
      if o !in item.ops { assert o in AllOps(s.enqueued); }
    }
  }
}
