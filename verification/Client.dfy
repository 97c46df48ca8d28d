/** The client's side of the exchange with the server: paged pulls and the queue drain. */
module SyncClient {
  import opened Forests
  import opened SyncState
  import opened SyncServer

  /** A delta pushed by another device while this client is busy. */
  datatype Arrival = Arrival(user: nat, profile: nat, payload: Option<Item>)

  /** Other devices push. */
  method Arrive(server: Server, arrivals: seq<Arrival>)
    requires server.Valid()
    modifies server`deltas, server`next
    ensures server.Valid() && old(server.deltas) <= server.deltas
    ensures arrivals == [] ==> server.deltas == old(server.deltas)
  {
    var i := 0;
    while i < |arrivals|
      invariant 0 <= i <= |arrivals| && server.Valid() && old(server.deltas) <= server.deltas
      invariant i == 0 ==> server.deltas == old(server.deltas)
    {
      var _ := server.Push(arrivals[i].user, arrivals[i].profile, arrivals[i].payload);
      i := i + 1;
    }
  }

  lemma {:induction false} LogGrows(a: seq<Delta>, b: seq<Delta>, profile: nat) returns (more: seq<Row>)
    requires a <= b
    requires forall i, k :: 0 <= i < k < |b| ==> b[i].seqId < b[k].seqId
    ensures LogOf(b, profile) == LogOf(a, profile) + more
    ensures forall i, k :: 0 <= i < |a| && 0 <= k < |more| ==> a[i].seqId < more[k].seqId
    decreases |b|
  {
    if |a| == |b| {
      assert a == b;
      more := [];
    } else {
      var n := |b| - 1;
      assert a <= b[..n];
      more := LogGrows(a, b[..n], profile);
      assert b[..n] + [b[n]] == b;
      LogOfAppend(b[..n], b[n], profile);
      more := more + if b[n].profile == profile then [Row(b[n].seqId, b[n].item)] else [];
    }
  }

  lemma {:induction false} AboveConcat(a: seq<Row>, b: seq<Row>, n: int)
    ensures Above(a + b, n) == Above(a, n) + Above(b, n)
  {
    hide Above;
    if b == [] {
      assert a + b == a && Above(b, n) == [] by { AboveEmpty(n); }
    } else {
      var init, row := b[..|b| - 1], b[|b| - 1];
      assert b == init + [row] && a + b == (a + init) + [row];
      AboveConcat(a, init, n);
      AboveAppend(a + init, row, n);
      AboveAppend(init, row, n);
    }
  }

  lemma AboveEmpty(n: int)
    ensures Above([], n) == []
  {}

  lemma {:induction false} AboveAll(log: seq<Row>, n: int)
    requires forall i :: 0 <= i < |log| ==> log[i].seqId > n
    ensures Above(log, n) == log
  {
    if log != [] {
      AboveAll(log[1..], n);
      assert log == [log[0]] + log[1..];
    }
  }

  lemma {:induction false} RowsAreDeltas(deltas: seq<Delta>, profile: nat, i: nat) returns (k: nat)
    requires i < |LogOf(deltas, profile)|
    ensures k < |deltas| && deltas[k].seqId == LogOf(deltas, profile)[i].seqId
  {
    var n := |deltas| - 1;
    if i < |LogOf(deltas[..n], profile)| { k := RowsAreDeltas(deltas[..n], profile, i); } else { k := n; }
  }

  /** The place a pull has reached: where it began, or a delta of the log. */
  ghost predicate Reached(deltas: seq<Delta>, since: nat, cursor: nat) {
    cursor == since || (since < cursor && exists i :: 0 <= i < |deltas| && deltas[i].seqId == cursor)
  }

  lemma Assoc(a: seq<Row>, b: seq<Row>, c: seq<Row>)
    ensures (a + b) + c == a + (b + c)
  {}

  /** What was read so far stays a prefix of what is to be read when other devices push. */
  lemma StillToRead(a: seq<Delta>, b: seq<Delta>, profile: nat, since: nat, cursor: nat, result: seq<Row>)
    requires a <= b && forall i, k :: 0 <= i < k < |b| ==> b[i].seqId < b[k].seqId
    requires Above(LogOf(a, profile), since) == result + Above(LogOf(a, profile), cursor) && Reached(a, since, cursor)
    requires cursor == since ==> result == []
    ensures Above(LogOf(b, profile), since) == result + Above(LogOf(b, profile), cursor) && Reached(b, since, cursor)
  {
    hide LogOf, Above;
    var more := LogGrows(a, b, profile);
    AboveConcat(LogOf(a, profile), more, since);
    AboveConcat(LogOf(a, profile), more, cursor);
    if cursor != since {
      var i :| 0 <= i < |a| && a[i].seqId == cursor;
      assert b[i].seqId == cursor;
      AboveAll(more, cursor);
      AboveAll(more, since);
      Assoc(result, Above(LogOf(a, profile), cursor), more);
    }
  }

  lemma RowBeyond(log: seq<Row>, n: int, row: Row)
    requires Ascending(log) && row in Above(log, n)
    ensures row in log && row.seqId > n
  {
    AboveRows(log, n);
  }

  /** One page read on. */
  lemma PageRead(deltas: seq<Delta>, profile: nat, since: nat, cursor: nat, result: seq<Row>, k: nat)
    requires forall i, k :: 0 <= i < k < |deltas| ==> deltas[i].seqId < deltas[k].seqId
    requires Above(LogOf(deltas, profile), since) == result + Above(LogOf(deltas, profile), cursor)
    requires Reached(deltas, since, cursor)
    requires 0 < k <= |Above(LogOf(deltas, profile), cursor)| && Ascending(LogOf(deltas, profile))
    ensures var all := Above(LogOf(deltas, profile), cursor); var next := all[k - 1].seqId;
      && since < next && Reached(deltas, since, next)
      && Above(LogOf(deltas, profile), next) == all[k..]
      && Above(LogOf(deltas, profile), since) == (result + all[..k]) + Above(LogOf(deltas, profile), next)
  {
    hide LogOf, Above;
    var log := LogOf(deltas, profile);
    var all := Above(log, cursor);
    AboveNext(log, cursor, k);
    RowBeyond(log, cursor, all[k - 1]);
    assert all == all[..k] + all[k..];
    Assoc(result, all[..k], all[k..]);
    var i :| 0 <= i < |log| && log[i] == all[k - 1];
    var j := RowsAreDeltas(deltas, profile, i);
  }

  /** Pulls page by page until the end of the log. `arrivals[j]` are the pushes other devices make before
      page `j` is served; there are finitely many. The result is exactly the profile's deltas above `since`,
      as the log stands when the last page is served. */
  method PullSince(server: Server, user: nat, profile: nat, since: nat, arrivals: seq<seq<Arrival>>)
    returns (r: Reply<seq<Row>>)
    requires server.Valid()
    modifies server`deltas, server`next
    ensures server.Valid() && old(server.deltas) <= server.deltas
    ensures if profile in server.owner && server.owner[profile] == user
      then r == Ok(Above(server.Log(profile), since)) else r == Forbidden
  {
    hide LogOf, Above, Reached;
    var result: seq<Row> := [];
    var cursor := since;
    var page := 0;
    StartReading(server.deltas, profile, since);
    while true
      invariant server.Valid() && old(server.deltas) <= server.deltas
      invariant Above(server.Log(profile), since) == result + Above(server.Log(profile), cursor)
      invariant Reached(server.deltas, since, cursor)
      invariant cursor == since ==> result == []
      decreases if page < |arrivals| then |arrivals| - page else 0, |Above(server.Log(profile), cursor)|
    {
      ghost var before := server.deltas;
      if page < |arrivals| { Arrive(server, arrivals[page]); }
      StillToRead(before, server.deltas, profile, since, cursor, result);
      page := page + 1;
      var reply := server.Pull(user, profile, cursor);
      if !reply.Ok? { return Forbidden; }
      var (rows, hasMore) := reply.value;
      LogOfRows(server.deltas, profile, server.next);
      ghost var all := Above(server.Log(profile), cursor);
      if !hasMore || |rows| == 0 {
        assert rows == all;
        result := result + rows;
        break;
      }
      PageRead(server.deltas, profile, since, cursor, result, |rows|);
      result := result + rows;
      cursor := rows[|rows| - 1].seqId;
    }
    r := Ok(result);
  }

  lemma StartReading(deltas: seq<Delta>, profile: nat, since: nat)
    ensures Above(LogOf(deltas, profile), since) == [] + Above(LogOf(deltas, profile), since)
    ensures Reached(deltas, since, since)
  {}

  /** Hence a complete pull has no gap and no repeat, and everything that was there at the last page. */
  lemma PullComplete(server: Server, profile: nat, since: nat)
    requires server.Valid()
    ensures var got := Above(server.Log(profile), since);
      Ascending(got) && forall row :: row in got <==> row in server.Log(profile) && row.seqId > since
  {
    LogOfRows(server.deltas, profile, server.next);
    AboveRows(server.Log(profile), since);
  }
}

/** The persistent queue of deltas and its drain. */
module DeltaQueues {
  import opened Forests
  import opened Positions
  import opened SyncState
  import opened SyncServer

  /** A queued delta; the payload is absent when what was stored is not valid base64. */
  datatype Queued = Queued(profile: nat, payload: Option<Item>, timestamp: int)

  /** What happens to one request: the server answers, something on the way answers with a status, the
      request is lost, or it is served and the reply is lost. */
  datatype Net = Served | Answer(status: int) | RequestLost | ReplyLost

  datatype Outcome = Done | Failed | Revoked

  const BATCH := 50

  function TimeKey(items: map<nat, Queued>): map<Id, int> {
    map id | id in items :: items[id].timestamp
  }

  /** `batch` holds the oldest items, at most `limit`, oldest first. */
  ghost predicate Oldest(items: map<nat, Queued>, limit: nat, batch: seq<nat>) {
    && NoDup(batch) && (forall id :: id in batch ==> id in items)
    && |batch| == (if |items| < limit then |items| else limit)
    && InTime(items, batch)
    && forall a, b :: a in batch && b in items && b !in batch ==> items[a].timestamp <= items[b].timestamp
  }

  ghost predicate InLog(deltas: seq<Delta>, q: Queued) {
    && q.payload.Some?
    && exists i :: 0 <= i < |deltas| && deltas[i].profile == q.profile && deltas[i].item == q.payload.value
  }

  lemma InLogMore(a: seq<Delta>, b: seq<Delta>, q: Queued)
    requires a <= b && InLog(a, q)
    ensures InLog(b, q)
  {
    var i :| 0 <= i < |a| && a[i].profile == q.profile && a[i].item == q.payload.value;
    assert b[i] == a[i];
  }

  /** Everything in the log beyond `was` is an item of the batch. */
  ghost predicate OnlyBatch(was: seq<Delta>, now: seq<Delta>, items: map<nat, Queued>, batch: seq<nat>) {
    was <= now && forall i :: |was| <= i < |now| ==>
      exists id :: id in batch && id in items && items[id].profile == now[i].profile
        && items[id].payload == Some(now[i].item)
  }

  ghost predicate NotLater(items: map<nat, Queued>, a: nat, b: nat) {
    a in items && b in items && items[a].timestamp <= items[b].timestamp
  }

  ghost predicate InTime(items: map<nat, Queued>, batch: seq<nat>) {
    forall i, k :: 0 <= i < k < |batch| ==> NotLater(items, batch[i], batch[k])
  }

  lemma SortedInTime(items: map<nat, Queued>, batch: seq<nat>)
    requires Sorted(batch, TimeKey(items))
    ensures InTime(items, batch)
  {}

  lemma OldestPrefix(items: map<nat, Queued>, limit: nat, sorted: seq<nat>)
    requires NoDup(sorted) && SetOf(sorted) == items.Keys && Sorted(sorted, TimeKey(items))
    ensures Oldest(items, limit, sorted[..Min(limit, |sorted|)])
  {
    CardinalityOf(sorted);
    SortedInTime(items, sorted);
    hide Sorted, TimeKey;
    assert |items| == |items.Keys| == |sorted|;
    var batch := sorted[..Min(limit, |sorted|)];
    assert NoDup(batch) && InTime(items, batch);
    hide NoDup;
    forall a | a in batch ensures a in items { assert a in SetOf(sorted); }
    forall a, b | a in batch && b in items && b !in batch ensures items[a].timestamp <= items[b].timestamp {
      var i :| 0 <= i < |batch| && batch[i] == a;
      assert b in SetOf(sorted);
      var k :| 0 <= k < |sorted| && sorted[k] == b;
      assert sorted[i] == a && NotLater(items, sorted[i], sorted[k]) by {
        assert forall j :: 0 <= j < |batch| ==> batch[j] in batch;
      }
    }
  }

  class DeltaQueue {
    var items: map<nat, Queued>

    constructor ()
      ensures items == map[]
    {
      items := map[];
    }

    method Peek(limit: nat) returns (batch: seq<nat>)
      ensures Oldest(items, limit, batch)
    {
      var ids := Enumerate(items.Keys);
      assert forall id :: id in ids <==> id in SetOf(ids);
      var sorted := SortBy(ids, TimeKey(items));
      SortBySorted(ids, TimeKey(items));
      assert SetOf(sorted) == SetOf(ids);
      OldestPrefix(items, limit, sorted);
      batch := sorted[..Min(limit, |sorted|)];
    }

    method Acknowledge(ids: set<nat>)
      modifies this
      ensures items == old(items) - ids
    {
      items := items - ids;
    }
  }

  /** The status a request gets, or None when it fails without an answer. */
  function StatusOf(owner: map<nat, nat>, user: nat, q: Queued, net: Net): Option<int> {
    match net
    case Served => Some(if !(q.profile in owner && owner[q.profile] == user) then 403 else if q.payload.None? then 400
      else 200)
    case Answer(code) => Some(code)
    case RequestLost | ReplyLost => None
  }

  method Post(server: Server, user: nat, q: Queued, net: Net) returns (status: Option<int>)
    requires server.Valid()
    modifies server`deltas, server`next
    ensures server.Valid() && status == StatusOf(server.owner, user, q, net)
    ensures server.deltas == old(server.deltas) ||
      (q.payload.Some? && exists n :: server.deltas == old(server.deltas) + [Delta(n, q.profile, q.payload.value)])
    ensures net.Served? && status == Some(200) ==> InLog(server.deltas, q)
  {
    match net {
      case Answer(code) => status := Some(code);
      case RequestLost => status := None;
      case ReplyLost =>
        var _ := server.Push(user, q.profile, q.payload);
        status := None;
      case Served =>
        var r := server.Push(user, q.profile, q.payload);
        status := Some(match r case Ok(_) => 200 case Forbidden => 403 case BadRequest => 400 case NotFound => 404);
        assert r.Ok? ==> server.deltas[|server.deltas| - 1].item == q.payload.value;
    }
  }

  /** A status that makes the client give up on a delta. */
  predicate Unrecoverable(status: int) {
    status == 400 || status == 403 || status == 404
  }

  predicate IsOk(status: int) {
    200 <= status <= 299
  }

  /** Success is reported only by the server itself. */
  ghost predicate HonestNet(net: seq<Net>) {
    forall i :: 0 <= i < |net| && net[i].Answer? ==> !(200 <= net[i].status <= 299)
  }

  function NetAt(net: seq<Net>, i: nat): Net {
    if i < |net| then net[i] else Served
  }

  /** The request is answered for good: pushed, or refused with a status that means giving up. */
  ghost predicate Settled(owner: map<nat, nat>, user: nat, active: nat, q: Queued, net: Net) {
    var status := StatusOf(owner, user, q, net);
    status.Some? && (IsOk(status.value)
      || (Unrecoverable(status.value) && !(status.value == 403 && q.profile == active)))
  }

  /** An answer that makes the client give up on a delta: 400, 404, or 403 for a profile that is not the active one. */
  ghost predicate GivenUp(owner: map<nat, nat>, user: nat, active: nat, q: Queued, net: Net) {
    var status := StatusOf(owner, user, q, net);
    status == Some(400) || status == Some(404) || (status == Some(403) && q.profile != active)
  }

  /** The first `k` items of the batch are settled and delivered. */
  ghost predicate Progress(deltas: seq<Delta>, owner: map<nat, nat>, user: nat, active: nat, items: map<nat, Queued>,
                           batch: seq<nat>, net: seq<Net>, k: nat) {
    k <= |batch| && forall j :: 0 <= j < k ==>
      batch[j] in items && Settled(owner, user, active, items[batch[j]], NetAt(net, j))
        && (InLog(deltas, items[batch[j]]) || GivenUp(owner, user, active, items[batch[j]], NetAt(net, j)))
  }

  /** The item of the batch is in the log or was given up. */
  ghost predicate Delivered(deltas: seq<Delta>, owner: map<nat, nat>, user: nat, active: nat, q: Queued, net: seq<Net>,
                            batch: seq<nat>, id: nat) {
    InLog(deltas, q) || exists j :: 0 <= j < |batch| && batch[j] == id && GivenUp(owner, user, active, q, NetAt(net, j))
  }

  /** Item `j` fails in any other way: the request is lost, the account is revoked, or the answer is transient. */
  ghost predicate Stuck(owner: map<nat, nat>, user: nat, active: nat, items: map<nat, Queued>, net: seq<Net>,
                        batch: seq<nat>, j: nat)
    requires j < |batch|
  {
    && batch[j] in items && !GivenUp(owner, user, active, items[batch[j]], NetAt(net, j))
    && forall code :: 200 <= code <= 299 ==> StatusOf(owner, user, items[batch[j]], NetAt(net, j)) != Some(code)
  }

  /** How a drain ends that came to item `k`. */
  ghost function Verdict(owner: map<nat, nat>, user: nat, active: nat, items: map<nat, Queued>, net: seq<Net>,
                         batch: seq<nat>, k: nat): Outcome {
    if k >= |batch| || batch[k] !in items then Done
    else
      var status := StatusOf(owner, user, items[batch[k]], NetAt(net, k));
      if status == None then Failed
      else if status == Some(403) && items[batch[k]].profile == active then Revoked
      else Done
  }

  /** One drain of the queue: it works off the 50 oldest items. An item leaves the queue only when it is in the
      server's log or was given up; it and all later ones stay when its request fails in any other way, and none leaves
      when a request is lost or the account is revoked. Whatever happens, only items of the batch reach the log. */
  method PushPending(queue: DeltaQueue, server: Server, user: nat, active: nat, net: seq<Net>)
      returns (out: Outcome, ghost batch: seq<nat>, ghost k: nat)
    requires server.Valid() && HonestNet(net)
    modifies queue, server`deltas, server`next
    ensures server.Valid() && Oldest(old(queue.items), 50, batch)
    ensures Progress(server.deltas, server.owner, user, active, old(queue.items), batch, net, k)
    ensures k < |batch| ==> Stuck(server.owner, user, active, old(queue.items), net, batch, k)
    ensures out == Verdict(server.owner, user, active, old(queue.items), net, batch, k)
    ensures queue.items == if out.Done? then old(queue.items) - SetOf(batch[..k]) else old(queue.items)
    ensures forall id :: id in old(queue.items) && id !in queue.items ==>
      Delivered(server.deltas, server.owner, user, active, old(queue.items)[id], net, batch, id)
    ensures forall j, i ::
      0 <= j <= i < |batch| && Stuck(server.owner, user, active, old(queue.items), net, batch, j) ==>
      batch[i] in queue.items
    ensures OnlyBatch(old(server.deltas), server.deltas, old(queue.items), batch)
  {
    hide Oldest, OnlyBatch, Progress, Settled, StatusOf, InLog, HonestNet, GivenUp, Delivered, Stuck;
    ghost var items := queue.items;
    k := 0;
    var todo := queue.Peek(BATCH);
    batch := todo;
    DrainStart(items, batch, server.deltas, server.owner, user, active, net);
    if |todo| == 0 { return Done, batch, 0; }
    var succeeded: set<nat> := {};
    var i := 0;
    while i < |todo|
      invariant 0 <= i <= |todo| && server.Valid() && queue.items == items && succeeded == SetOf(todo[..i])
      invariant Progress(server.deltas, server.owner, user, active, items, todo, net, i)
      invariant OnlyBatch(old(server.deltas), server.deltas, items, todo)
    {
      assert todo[i] in items;
      var q := queue.items[todo[i]];
      ghost var before := server.deltas;
      var status := Post(server, user, q, NetAt(net, i));
      BatchMore(old(server.deltas), before, server.deltas, items, todo, todo[i]);
      ItemDone(before, server.deltas, server.owner, user, active, items, todo, net, i);
      PrefixSet(todo, i);
      if status.None? {
        StuckHere(server.owner, user, active, items, net, batch, i);
        return Failed, batch, i;
      }
      if IsOk(status.value) {
        succeeded := succeeded + {todo[i]};
      } else if status.value == 403 && q.profile == active {
        StuckHere(server.owner, user, active, items, net, batch, i);
        return Revoked, batch, i;
      } else if Unrecoverable(status.value) {
        succeeded := succeeded + {todo[i]};
      } else {
        StuckHere(server.owner, user, active, items, net, batch, i);
        break;
      }
      i := i + 1;
    }
    queue.Acknowledge(succeeded);
    k := i;
    out := Done;
    Drained(server.deltas, server.owner, user, active, items, batch, net, k);
  }

  /** What has been worked off is logged or given up, and nothing that is stuck comes before it. */
  lemma Drained(deltas: seq<Delta>, owner: map<nat, nat>, user: nat, active: nat, items: map<nat, Queued>,
                batch: seq<nat>, net: seq<Net>, k: nat)
    requires Progress(deltas, owner, user, active, items, batch, net, k) && NoDup(batch)
    requires forall i :: 0 <= i < |batch| ==> batch[i] in items
    ensures forall id :: id in items && id in SetOf(batch[..k]) ==>
      Delivered(deltas, owner, user, active, items[id], net, batch, id)
    ensures forall j, i :: 0 <= j <= i < |batch| && Stuck(owner, user, active, items, net, batch, j) ==>
      batch[i] in items - SetOf(batch[..k])
  {
    hide InLog, StatusOf, GivenUp;
    forall id | id in items && id in SetOf(batch[..k])
      ensures Delivered(deltas, owner, user, active, items[id], net, batch, id)
    {
      var j :| 0 <= j < k && batch[j] == id;
    }
    forall j | 0 <= j < k ensures !Stuck(owner, user, active, items, net, batch, j) {
      assert Settled(owner, user, active, items[batch[j]], NetAt(net, j));
      NotStuck(owner, user, active, items, net, batch, j);
    }
    forall i | k <= i < |batch| ensures batch[i] !in SetOf(batch[..k]) {}
  }

  lemma StuckHere(owner: map<nat, nat>, user: nat, active: nat, items: map<nat, Queued>, net: seq<Net>, batch: seq<nat>,
                  j: nat)
    requires j < |batch| && batch[j] in items && !Settled(owner, user, active, items[batch[j]], NetAt(net, j))
    ensures Stuck(owner, user, active, items, net, batch, j)
  {
    hide StatusOf;
  }

  lemma NotStuck(owner: map<nat, nat>, user: nat, active: nat, items: map<nat, Queued>, net: seq<Net>, batch: seq<nat>,
                 j: nat)
    requires j < |batch| && batch[j] in items && Settled(owner, user, active, items[batch[j]], NetAt(net, j))
    ensures !Stuck(owner, user, active, items, net, batch, j)
  {
    hide StatusOf;
    var status := StatusOf(owner, user, items[batch[j]], NetAt(net, j));
    assert IsOk(status.value) ==> status == Some(status.value);
  }

  lemma DrainStart(items: map<nat, Queued>, batch: seq<nat>, deltas: seq<Delta>, owner: map<nat, nat>, user: nat,
                   active: nat, net: seq<Net>)
    requires Oldest(items, BATCH, batch)
    ensures Progress(deltas, owner, user, active, items, batch, net, 0) && OnlyBatch(deltas, deltas, items, batch)
    ensures SetOf(batch[..0]) == {} && items - {} == items
    ensures forall i :: 0 <= i < |batch| ==> batch[i] in items && batch[i] in batch
  {}

  /** What the answer to item `i` says about the prefix. */
  lemma ItemDone(before: seq<Delta>, now: seq<Delta>, owner: map<nat, nat>, user: nat, active: nat, items: map<nat,
                 Queued>, batch: seq<nat>, net: seq<Net>, i: nat)
    requires i < |batch| && batch[i] in items && before <= now && HonestNet(net)
    requires Progress(before, owner, user, active, items, batch, net, i)
    requires NetAt(net, i).Served? && StatusOf(owner, user, items[batch[i]], NetAt(net, i)) == Some(200) ==>
      InLog(now, items[batch[i]])
    ensures Progress(now, owner, user, active, items, batch, net, i)
    ensures var status := StatusOf(owner, user, items[batch[i]], NetAt(net, i));
      if status.Some? && (IsOk(status.value)
        || (Unrecoverable(status.value) && !(status.value == 403 && items[batch[i]].profile == active)))
      then Progress(now, owner, user, active, items, batch, net, i + 1)
      else !Settled(owner, user, active, items[batch[i]], NetAt(net, i))
  {
    forall j | 0 <= j < i
      ensures InLog(now, items[batch[j]]) || GivenUp(owner, user, active, items[batch[j]], NetAt(net, j))
    {
      if InLog(before, items[batch[j]]) { InLogMore(before, now, items[batch[j]]); }
    }
  }

  lemma BatchMore(was: seq<Delta>, before: seq<Delta>, now: seq<Delta>, items: map<nat, Queued>, batch: seq<nat>,
                  id: nat)
    requires OnlyBatch(was, before, items, batch) && id in batch && id in items
    requires now == before
      || (items[id].payload.Some? && exists n :: now == before + [Delta(n, items[id].profile, items[id].payload.value)])
    ensures OnlyBatch(was, now, items, batch) && before <= now
  {}
}
