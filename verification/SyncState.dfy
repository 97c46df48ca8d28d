/** The sync protocol of one profile as a state machine: a server with a delta log and a compacted
    snapshot, and any number of clients that edit, push, pull, persist, crash and start again. */
module SyncState {
  import opened Forests

  /** A CRDT document is the set of operations it contains; importing is union. */
  type Ops = set<nat>

  /** A queued delta. Its id is a random UUID. */
  datatype Item = Item(id: nat, ops: Ops)

  datatype Row = Row(seqId: nat, item: Item)

  datatype Snap = Snap(seqId: nat, ops: Ops)

  /** A running `syncFrom`: pulling pages, all pages pulled, snapshot write issued with a ticket,
      cursor written. */
  datatype Task =
    | Pulling(since: nat, at: nat, got: Ops)
    | Pulled(since: nat, at: nat, got: Ops)
    | Persisting(ticket: nat, upTo: nat)
    | Uploading(upTo: nat)

  /** How the document in memory came about. */
  datatype Origin = Down | Booting | Fetched(s: Snap) | FromLocal | FromServer(s: Snap) | Fallback

  /** A drain of the queue: its batch is the first `n` items, `pos` of them are answered. */
  datatype Drain = Drain(n: nat, pos: nat)

  /** `snap`, `cursor` and `queue` survive a crash; the rest is memory. `pending` are the snapshot writes
      issued and not yet committed, in order; `committed` counts those of this session already committed.
      `ver` is the version cursor: what earlier exports covered. `caughtUp`: a pull of this session was applied. */
  datatype Client = Client(
    snap: Option<Ops>, cursor: nat, queue: seq<Item>,
    origin: Origin, doc: Option<Ops>, ver: Ops, caughtUp: bool,
    pending: seq<Ops>, committed: nat, tasks: map<nat, Task>, drain: Option<Drain>)

  /** `enqueued` and `rejected` record history: all items ever queued, and those answered 400, 403 or 404. */
  datatype State = State(
    log: seq<Row>, next: nat, snap: Option<Snap>, uploads: set<Snap>,
    clients: map<nat, Client>, enqueued: set<Item>, rejected: set<Item>)

  // ---- Reading the log -------------------------------------------------------------------------------

  /** `x` contains the operations of every row up to `n`. */
  ghost predicate Covers(log: seq<Row>, n: nat, x: Ops) {
    forall i :: 0 <= i < |log| && log[i].seqId <= n ==> log[i].item.ops <= x
  }

  function LastSeq(log: seq<Row>): nat {
    if log == [] then 0 else log[|log| - 1].seqId
  }

  /** The operations of the rows above `a` and up to `b`. */
  function OpsBetween(log: seq<Row>, a: nat, b: nat): Ops {
    set i, o | 0 <= i < |log| && a < log[i].seqId <= b && o in log[i].item.ops :: o
  }

  function AllOps(items: set<Item>): Ops {
    set i, o | i in items && o in i.ops :: o
  }

  function SnapSeq(snap: Option<Snap>): nat {
    if snap.Some? then snap.value.seqId else 0
  }

  /** What a sync adds its deltas to: the document, or what it will be hydrated from. */
  function Memory(c: Client): Ops {
    if c.doc.Some? then c.doc.value else if c.snap.Some? then c.snap.value else {}
  }

  /** The stored cursor says what the document contains: it is 0, a local snapshot backs it, the document was
      loaded from the server's snapshot, or a pull of this session was applied. */
  predicate CursorUsable(c: Client) {
    c.cursor == 0 || c.snap.Some? || c.origin.FromServer? || c.caughtUp
  }

  // ---- Steps -----------------------------------------------------------------------------------------

  datatype Step =
    | PushElsewhere
    | Join(c: nat)
    | Crash(c: nat)
    | Boot(c: nat)
    | HydrateLocal(c: nat)
    | FetchSnapshot(c: nat)
    | HydrateServer(c: nat)
    | HydrateEmpty(c: nat)
    | EarlyCursor(c: nat)
    | InitSync(c: nat, t: nat)
    | StartSync(c: nat, t: nat)
    | PullPage(c: nat, t: nat, upTo: nat, last: bool)
    | ApplyDeltas(c: nat, t: nat)
    | Persist(c: nat)
    | CommitWrite(c: nat)
    | WriteCursor(c: nat, t: nat)
    | Upload(c: nat, t: nat)
    | ReadCursor(c: nat, t: nat)
    | SyncFailed(c: nat, t: nat)
    | PutSnapshot(s: Snap)
    | Edit(c: nat, ops: Ops, id: nat)
    | StartDrain(c: nat)
    | Post(c: nat)
    | PostLost(c: nat)
    | DrainFailed(c: nat)
    | Reject(c: nat)
    | Acknowledge(c: nat)

  const NEW_CLIENT := Client(None, 0, [], Down, None, {}, false, [], 0, map[], None)

  const EMPTY := State([], 1, None, {}, map[], {}, {})

  function Crashed(c: Client): Client {
    c.(origin := Down, doc := None, ver := {}, caughtUp := false, pending := [], committed := 0, tasks := map[],
      drain := None)
  }

  function Hydrated(c: Client, o: Origin, doc: Ops, ver: Ops): Client {
    c.(origin := o, doc := Some(doc), ver := ver)
  }

  function WithTask(c: Client, t: nat, task: Task): Client {
    c.(tasks := c.tasks[t := task])
  }

  function WithoutTask(c: Client, t: nat): Client {
    c.(tasks := c.tasks - {t})
  }

  /** The first sync of an initialization: from the stored cursor, from the server snapshot or from 0. */
  function InitSince(c: Client): nat {
    if c.origin.FromServer? then c.origin.s.seqId else if c.origin.Fallback? then 0 else c.cursor
  }

  /** The document grows by the pulled deltas and a snapshot write of it is issued; without deltas the sync ends. */
  function Applied(c: Client, t: nat): Client
    requires t in c.tasks && c.tasks[t].Pulled? && c.doc.Some?
  {
    var k := c.tasks[t];
    if k.at == k.since then WithoutTask(c, t).(caughtUp := true)
    else
      var d := c.doc.value + k.got;
      c.(doc := Some(d), caughtUp := true, pending := c.pending + [d],
         tasks := c.tasks[t := Persisting(c.committed + |c.pending|, k.at)])
  }

  /** The upsert only ever advances the stored snapshot, to a sequence id that is in the log. */
  function Upserted(log: seq<Row>, snap: Option<Snap>, s: Snap): Option<Snap> {
    if log == [] || s.seqId > LastSeq(log) then snap
    else if snap.Some? && snap.value.seqId >= s.seqId then snap
    else Some(s)
  }

  function Appended(s: State, item: Item): State {
    s.(log := s.log + [Row(s.next, item)], next := s.next + 1)
  }

  function With(s: State, c: nat, client: Client): State {
    s.(clients := s.clients[c := client])
  }

  predicate HasClient(s: State, c: nat) {
    c in s.clients
  }

  predicate HasTask(s: State, c: nat, t: nat) {
    c in s.clients && t in s.clients[c].tasks
  }

  /** Draining and not at the end of the batch. */
  predicate Posting(c: Client) {
    c.drain.Some? && c.drain.value.pos < c.drain.value.n <= |c.queue|
  }

  /** When the code can take a step. */
  ghost predicate Enabled(s: State, step: Step) {
    match step
    case PushElsewhere => true
    case Join(c) => c !in s.clients
    case Crash(c) => HasClient(s, c)
    case Boot(c) => HasClient(s, c) && s.clients[c].origin.Down?
    case HydrateLocal(c) => HasClient(s, c) && s.clients[c].origin.Booting? && s.clients[c].snap.Some?
    case FetchSnapshot(c) => HasClient(s, c) && s.clients[c].origin.Booting? && s.clients[c].snap.None? && s.snap.Some?
    case HydrateServer(c) => HasClient(s, c) && s.clients[c].origin.Fetched?
    // The server has no snapshot, or fetching it failed.
    case HydrateEmpty(c) => HasClient(s, c) && s.clients[c].origin.Booting? && s.clients[c].snap.None?
    case EarlyCursor(c) => HasClient(s, c) && s.clients[c].origin.FromServer?
    case InitSync(c, t) => HasClient(s, c) && s.clients[c].doc.Some? && t !in s.clients[c].tasks
    case StartSync(c, t) => HasClient(s, c) && !s.clients[c].origin.Down? && t !in s.clients[c].tasks
    case PullPage(c, t, upTo, last) => HasTask(s, c, t) && s.clients[c].tasks[t].Pulling?
      && PageEnd(s.log, s.clients[c].tasks[t].at, upTo) && (last ==> LastSeq(s.log) <= upTo)
    case ApplyDeltas(c, t) => HasTask(s, c, t) && s.clients[c].tasks[t].Pulled? && s.clients[c].doc.Some?
    case Persist(c) => HasClient(s, c) && s.clients[c].doc.Some?
    case CommitWrite(c) => HasClient(s, c) && s.clients[c].pending != []
    case WriteCursor(c, t) => HasTask(s, c, t) && s.clients[c].tasks[t].Persisting?
      && s.clients[c].tasks[t].ticket < s.clients[c].committed
    case Upload(c, t) => HasTask(s, c, t) && s.clients[c].tasks[t].Uploading? && s.clients[c].doc.Some?
    case ReadCursor(c, t) => HasClient(s, c) && s.clients[c].caughtUp && s.clients[c].doc.Some?
      && s.clients[c].cursor > 0 && t !in s.clients[c].tasks
    case SyncFailed(c, t) => HasTask(s, c, t)
    case PutSnapshot(u) => u in s.uploads
    case Edit(c, ops, id) => HasClient(s, c) && s.clients[c].doc.Some? && ops !! AllOps(s.enqueued) && FreshId(s, id)
    case StartDrain(c) => HasClient(s, c) && s.clients[c].drain.None?
    case Post(c) => HasClient(s, c) && Posting(s.clients[c])
    case PostLost(c) => HasClient(s, c) && Posting(s.clients[c])
    case DrainFailed(c) => HasClient(s, c) && s.clients[c].drain.Some?
    case Reject(c) => HasClient(s, c) && Posting(s.clients[c])
    case Acknowledge(c) =>
      HasClient(s, c) && s.clients[c].drain.Some? && s.clients[c].drain.value.pos <= |s.clients[c].queue|
  }

  /** The guard the code lacks. A sync from the stored cursor waits until the cursor is usable or the document
      is not there yet; so does storing a snapshot apart from a sync; and an initialization does not fall back
      to the empty document while a sync from a stored cursor is under way. */
  ghost predicate Guarded(s: State, step: Step)
    requires Enabled(s, step)
  {
    match step
    case StartSync(c, _) => CursorUsable(s.clients[c]) || s.clients[c].doc.None?
    case Persist(c) => CursorUsable(s.clients[c])
    case HydrateEmpty(c) => s.clients[c].cursor == 0 || s.clients[c].tasks == map[]
    case _ => true
  }

  /** A page ends where it began or at a row. */
  ghost predicate PageEnd(log: seq<Row>, at: nat, upTo: nat) {
    upTo == at || (at < upTo && exists i :: 0 <= i < |log| && log[i].seqId == upTo)
  }

  ghost predicate FreshId(s: State, id: nat) {
    forall i :: i in s.enqueued ==> i.id != id
  }

  function Min(a: nat, b: nat): nat {
    if a <= b then a else b
  }

  ghost function Do(s: State, step: Step): State
    requires Enabled(s, step)
  {
    match step
    // The sequence is shared by all profiles, so the log of one has gaps.
    case PushElsewhere => s.(next := s.next + 1)
    case Join(c) => With(s, c, NEW_CLIENT)
    case Crash(c) => With(s, c, Crashed(s.clients[c]))
    case Boot(c) => With(s, c, s.clients[c].(origin := Booting))
    // The version cursor is set to what was loaded.
    case HydrateLocal(c) =>
      With(s, c, Hydrated(s.clients[c], FromLocal, s.clients[c].snap.value, s.clients[c].snap.value))
    case FetchSnapshot(c) => With(s, c, s.clients[c].(origin := Fetched(s.snap.value)))
    case HydrateServer(c) => var u := s.clients[c].origin.s;
      With(s, c, Hydrated(s.clients[c], FromServer(u), u.ops, u.ops))
    case HydrateEmpty(c) => With(s, c, Hydrated(s.clients[c], Fallback, {}, {}))
    case EarlyCursor(c) => With(s, c, s.clients[c].(cursor := s.clients[c].origin.s.seqId))
    case InitSync(c, t) =>
      With(s, c, WithTask(s.clients[c], t, Pulling(InitSince(s.clients[c]), InitSince(s.clients[c]), {})))
    case StartSync(c, t) => With(s, c, WithTask(s.clients[c], t, Pulling(s.clients[c].cursor, s.clients[c].cursor, {})))
    case PullPage(c, t, upTo, last) => var k := s.clients[c].tasks[t];
      var got := k.got + OpsBetween(s.log, k.at, upTo);
      With(s, c, WithTask(s.clients[c], t, if last then Pulled(k.since, upTo, got) else Pulling(k.since, upTo, got)))
    case ApplyDeltas(c, t) => With(s, c, Applied(s.clients[c], t))
    case Persist(c) => With(s, c, s.clients[c].(pending := s.clients[c].pending + [s.clients[c].doc.value]))
    case CommitWrite(c) => var k := s.clients[c];
      With(s, c, k.(snap := Some(k.pending[0]), pending := k.pending[1..], committed := k.committed + 1))
    case WriteCursor(c, t) => var upTo := s.clients[c].tasks[t].upTo;
      With(s, c, WithTask(s.clients[c], t, Uploading(upTo)).(cursor := upTo))
    case Upload(c, t) => var u := Snap(s.clients[c].tasks[t].upTo, s.clients[c].doc.value);
      With(s, c, WithoutTask(s.clients[c], t)).(uploads := s.uploads + {u})
    // A first sync reads the cursor back and uploads later, with the document of that later moment.
    case ReadCursor(c, t) => With(s, c, WithTask(s.clients[c], t, Uploading(s.clients[c].cursor)))
    // A request or a write of the sync fails; what it has issued or written already stands.
    case SyncFailed(c, t) => With(s, c, WithoutTask(s.clients[c], t))
    case PutSnapshot(u) => s.(snap := Upserted(s.log, s.snap, u))
    case Edit(c, ops, id) => var k := s.clients[c];
      var item := Item(id, k.doc.value + ops - k.ver);
      With(s, c, k.(doc := Some(k.doc.value + ops), ver := k.doc.value + ops, queue := k.queue + [item]))
        .(enqueued := s.enqueued + {item})
    case StartDrain(c) => With(s, c, s.clients[c].(drain := Some(Drain(Min(50, |s.clients[c].queue|), 0))))
    case Post(c) => var k := s.clients[c];
      With(Appended(s, k.queue[k.drain.value.pos]), c, k.(drain := Some(Drain(k.drain.value.n, k.drain.value.pos + 1))))
    // Committed, but the reply is lost: the drain fails without acknowledging anything.
    case PostLost(c) => var k := s.clients[c];
      With(Appended(s, k.queue[k.drain.value.pos]), c, k.(drain := None))
    // The request is lost before the server commits, or the account is revoked.
    case DrainFailed(c) => With(s, c, s.clients[c].(drain := None))
    case Reject(c) => var k := s.clients[c];
      With(s, c, k.(drain := Some(Drain(k.drain.value.n, k.drain.value.pos + 1))))
        .(rejected := s.rejected + {k.queue[k.drain.value.pos]})
    // At the end of the batch or after a transient failure.
    case Acknowledge(c) => var k := s.clients[c];
      With(s, c, k.(queue := k.queue[k.drain.value.pos..], drain := None))
  }

  /** Runs of the code's steps from the empty state. */
  ghost predicate Run(run: seq<State>, steps: seq<Step>) {
    && |run| == |steps| + 1 && run[0] == EMPTY
    && forall i {:trigger steps[i]} :: 0 <= i < |steps| ==>
         Enabled(run[i], steps[i]) && run[i + 1] == Do(run[i], steps[i])
  }

  /** In addition every step of the run respects the guard. */
  ghost predicate GuardedRun(run: seq<State>, steps: seq<Step>) {
    && Run(run, steps)
    && forall i {:trigger steps[i]} :: 0 <= i < |steps| ==> Enabled(run[i], steps[i]) && Guarded(run[i], steps[i])
  }
}
