/** One device's sync, write by write: what is stored stays consistent wherever the worker is killed. */
module Devices {
  import opened Forests
  import opened SyncState
  import opened SyncServer
  import opened SyncClient

  const UPLOAD_INTERVAL := 50

  /** `x` contains every row of the log. */
  ghost predicate CoversLog(log: seq<Row>, x: Ops) {
    forall i :: 0 <= i < |log| ==> log[i].item.ops <= x
  }

  ghost predicate Logged(log: seq<Row>, o: nat) {
    exists i :: 0 <= i < |log| && o in log[i].item.ops
  }

  lemma PulledLogged(log: seq<Row>, since: nat)
    requires Ascending(log)
    ensures forall o :: o in OpsOf(Above(log, since)) ==> Logged(log, o)
  {
    AboveRows(log, since);
    var got := Above(log, since);
    forall o | o in OpsOf(got) ensures Logged(log, o) {
      var k :| 0 <= k < |got| && o in got[k].item.ops;
      assert got[k] in got;
      var i :| 0 <= i < |log| && log[i] == got[k];
    }
  }

  function OpsOf(rows: seq<Row>): Ops {
    set i, o | 0 <= i < |rows| && o in rows[i].item.ops :: o
  }

  /** A complete pull, imported, covers the whole log. */
  lemma PulledCovers(log: seq<Row>, since: nat, x: Ops)
    requires Ascending(log) && Covers(log, since, x)
    ensures CoversLog(log, x + OpsOf(Above(log, since)))
  {
    AboveRows(log, since);
    var got := Above(log, since);
    forall i | 0 <= i < |log| ensures log[i].item.ops <= x + OpsOf(got) {
      if log[i].seqId > since {
        assert log[i] in got;
        var k :| 0 <= k < |got| && got[k] == log[i];
        forall o | o in log[i].item.ops ensures o in OpsOf(got) { assert o in got[k].item.ops; }
      }
    }
  }

  lemma LogCovered(log: seq<Row>, n: nat, x: Ops)
    requires CoversLog(log, x)
    ensures Covers(log, n, x)
  {}

  ghost predicate DeltasOk(deltas: seq<Delta>) {
    && (forall i, k :: 0 <= i < k < |deltas| ==> deltas[i].seqId < deltas[k].seqId)
    && forall i :: 0 <= i < |deltas| ==> 1 <= deltas[i].seqId
  }

  /** New rows come above everything that was covered. */
  lemma CoversLater(a: seq<Delta>, b: seq<Delta>, profile: nat, n: nat, x: Ops)
    requires a <= b && DeltasOk(b) && n <= LastSeq(LogOf(a, profile)) && Covers(LogOf(a, profile), n, x)
    ensures n <= LastSeq(LogOf(b, profile)) && Covers(LogOf(b, profile), n, x)
  {
    var more := LogGrows(a, b, profile);
    var log, all := LogOf(a, profile), LogOf(b, profile);
    LogOfRows(b, profile, if b == [] then 1 else b[|b| - 1].seqId + 1);
    hide LogOf;
    if log != [] { assert log[|log| - 1] == all[|log| - 1]; }
    forall i | 0 <= i < |all| && all[i].seqId <= n ensures all[i].item.ops <= x {
      assert i < |log| ==> all[i] == log[i];
    }
  }

  class Device {
    const server: Server
    const user: nat
    const profile: nat
    // Stored in IndexedDB.
    var stored: Option<Ops>
    var cursor: nat
    var lastUpload: nat
    // In memory.
    var doc: Ops

    constructor (s: Server, u: nat, p: nat)
      requires s.Valid() && SnapshotOk(s.snapshots, s.Log(p), p)
      ensures server == s && user == u && profile == p && Consistent() && stored.None? && cursor == 0 && doc == {}
    {
      server, user, profile := s, u, p;
      stored, cursor, lastUpload, doc := None, 0, 0, {};
    }

    /** A stored snapshot contains every delta up to the stored cursor; the server's snapshot every delta up
        to its sequence id. */
    ghost predicate Consistent()
      reads this, server
    {
      && server.Valid() && cursor <= LastSeq(server.Log(profile))
      && (stored.Some? ==> Covers(server.Log(profile), cursor, stored.value))
      && SnapshotOk(server.snapshots, server.Log(profile), profile)
    }

    /** Pulls and imports everything since `since`; stores the snapshot, then the cursor. The worker is killed
        after `writes` writes. Whenever that happens the stored state is consistent. */
    method SyncFromInner(since: nat, arrivals: seq<seq<Arrival>>, writes: nat) returns (done: bool)
      requires Consistent() && since <= LastSeq(server.Log(profile)) && Covers(server.Log(profile), since, doc)
      requires stored.Some? ==> stored.value <= doc
      modifies this`stored, this`cursor, this`lastUpload, this`doc, server`deltas, server`next, server`snapshots
      ensures Consistent() && old(doc) <= doc && old(server.deltas) <= server.deltas
      ensures (old(stored).Some? ==> stored.Some?)
      ensures done ==> CoversLog(server.Log(profile), doc)
      ensures done && server.Log(profile) != [] && LastSeq(server.Log(profile)) > since ==>
        stored == Some(doc) && cursor == LastSeq(server.Log(profile))
      ensures !(profile in server.owner && server.owner[profile] == user) ==>
        !done && stored == old(stored) && cursor == old(cursor)
      ensures forall o :: o in doc ==> o in old(doc) || Logged(server.Log(profile), o)
      ensures stored == old(stored) || stored == Some(doc)
      ensures done && server.Log(profile) != [] && LastSeq(server.Log(profile)) > since ==> cursor - lastUpload < 50
      ensures profile in server.owner && server.owner[profile] == user && writes >= 2 ==> done
    {
      hide LogOf, Above, LastSeq, Covers, CoversLog, Logged, OpsOf;
      ghost var before := server.deltas;
      var reply := PullSince(server, user, profile, since, arrivals);
      LogMoved(before, server.deltas, profile, server.snapshots, cursor, stored, since, doc);
      if !reply.Ok? { return false; }
      var deltas := reply.value;
      LogOfRows(server.deltas, profile, server.next);
      PulledCovers(server.Log(profile), since, doc);
      PulledLogged(server.Log(profile), since);
      if |deltas| == 0 {
        assert OpsOf(deltas) == {} && doc + {} == doc by { NothingPulled(); }
        NothingAbove(server.Log(profile), since);
        return true;
      }
      Import(deltas);
      if writes == 0 { return false; }
      stored := Some(doc);
      LogCovered(server.Log(profile), cursor, doc);
      if writes == 1 { return false; }
      cursor := deltas[|deltas| - 1].seqId;
      LastAbove(server.Log(profile), since);
      LogCovered(server.Log(profile), cursor, doc);
      MaybeUpload(cursor);
      done := true;
    }

    method Import(deltas: seq<Row>)
      modifies this`doc
      ensures doc == old(doc) + OpsOf(deltas)
    {
      var i := 0;
      assert OpsOf(deltas[..0]) == {};
      while i < |deltas|
        invariant 0 <= i <= |deltas| && doc == old(doc) + OpsOf(deltas[..i])
      {
        OpsOfNext(deltas, i);
        doc := doc + deltas[i].item.ops;
        i := i + 1;
      }
      assert deltas[..i] == deltas;
    }

    /** Refreshes the server's snapshot once 50 sequence ids have passed since this device last did. */
    method MaybeUpload(current: nat)
      requires Consistent() && current <= LastSeq(server.Log(profile)) && CoversLog(server.Log(profile), doc)
      modifies this`lastUpload, server`snapshots
      ensures Consistent()
      ensures current - old(lastUpload) < 50 ==>
        lastUpload == old(lastUpload) && server.snapshots == old(server.snapshots)
      ensures profile in server.owner && server.owner[profile] == user && server.Log(profile) != [] ==>
        current - old(lastUpload) >= 50 ==>
          lastUpload == current && profile in server.snapshots && current <= server.snapshots[profile].seqId
    {
      hide LogOf, LastSeq;
      if current - lastUpload < UPLOAD_INTERVAL { return; }
      LogCovered(server.Log(profile), current, doc);
      var r := server.PutSnapshot(user, profile, current, Some(doc));
      if r.Ok? { lastUpload := current; }
    }

    /** Start of a session: from the local snapshot, else from the server's, else from nothing. The early
        write of the cursor comes before any snapshot is stored. */
    method Initialize(fetchFails: bool, arrivals: seq<seq<Arrival>>, writes: nat) returns (done: bool)
      requires Consistent()
      modifies this`stored, this`cursor, this`lastUpload, this`doc, server`deltas, server`next, server`snapshots
      ensures Consistent()
      ensures done ==> CoversLog(server.Log(profile), doc) && stored.Some?
      ensures forall o :: o in doc ==>
        || Logged(server.Log(profile), o) || (old(stored).Some? && o in old(stored).value)
        || (profile in old(server.snapshots) && o in old(server.snapshots)[profile].ops)
      ensures profile in server.owner && server.owner[profile] == user && writes >= 4 ==> done
    {
      hide LogOf, Above, LastSeq, Covers;
      var left := writes;
      if stored.Some? {
        doc := stored.value;
        done := SyncFromInner(cursor, arrivals, left);
        return;
      }
      var snapshot: Reply<Compacted> := NotFound;
      if !fetchFails { snapshot := server.GetSnapshot(user, profile); }
      if snapshot.Ok? {
        doc := snapshot.value.ops;
        if left == 0 { return false; }
        cursor := snapshot.value.seqId;
        left := left - 1;
        done := SyncFromInner(cursor, arrivals, left);
      } else {
        doc := {};
        ZeroCovered(server, profile, doc);
        done := SyncFromInner(0, arrivals, left);
      }
      left := if left >= 2 then left - 2 else 0;
      if !done || left == 0 { return false; }
      stored := Some(doc);
      LogCovered(server.Log(profile), cursor, doc);
    }
  }

  ghost predicate SnapshotOk(snapshots: map<nat, Compacted>, log: seq<Row>, p: nat) {
    p in snapshots ==> 0 <= snapshots[p].seqId <= LastSeq(log) && Covers(log, snapshots[p].seqId, snapshots[p].ops)
  }

  lemma LogMoved(a: seq<Delta>, b: seq<Delta>, profile: nat, snapshots: map<nat, Compacted>, cursor: nat,
                 stored: Option<Ops>, since: nat, doc: Ops)
    requires a <= b && DeltasOk(b) && SnapshotOk(snapshots, LogOf(a, profile), profile)
    requires cursor <= LastSeq(LogOf(a, profile)) && (stored.Some? ==> Covers(LogOf(a, profile), cursor, stored.value))
    requires since <= LastSeq(LogOf(a, profile)) && Covers(LogOf(a, profile), since, doc)
    ensures SnapshotOk(snapshots, LogOf(b, profile), profile)
    ensures cursor <= LastSeq(LogOf(b, profile)) && (stored.Some? ==> Covers(LogOf(b, profile), cursor, stored.value))
    ensures since <= LastSeq(LogOf(b, profile)) && Covers(LogOf(b, profile), since, doc)
  {
    hide LogOf, LastSeq, Covers;
    assert Covers(LogOf(a, profile), 0, {}) by { NothingAtZero(a, b, profile); }
    CoversLater(a, b, profile, since, doc);
    if stored.Some? { CoversLater(a, b, profile, cursor, stored.value); }
    if profile in snapshots { CoversLater(a, b, profile, snapshots[profile].seqId, snapshots[profile].ops); }
    LastGrows(a, b, profile);
  }

  lemma NothingAtZero(a: seq<Delta>, b: seq<Delta>, profile: nat)
    requires a <= b && DeltasOk(b)
    ensures Covers(LogOf(a, profile), 0, {})
  {
    assert DeltasOk(a) by {
      forall i | 0 <= i < |a| ensures 1 <= a[i].seqId { assert a[i] == b[i]; }
      forall i, k | 0 <= i < k < |a| ensures a[i].seqId < a[k].seqId { assert a[i] == b[i] && a[k] == b[k]; }
    }
    LogOfRows(a, profile, if a == [] then 1 else a[|a| - 1].seqId + 1);
  }

  lemma LastGrows(a: seq<Delta>, b: seq<Delta>, profile: nat)
    requires a <= b && DeltasOk(b)
    ensures LastSeq(LogOf(a, profile)) <= LastSeq(LogOf(b, profile))
  {
    var log, all := LogOf(a, profile), LogOf(b, profile);
    var more := LogGrows(a, b, profile);
    LogOfRows(b, profile, if b == [] then 1 else b[|b| - 1].seqId + 1);
    hide LogOf;
    if log != [] { assert log[|log| - 1] == all[|log| - 1]; }
  }

  lemma ZeroCovered(server: Server, profile: nat, x: Ops)
    requires server.Valid()
    ensures Covers(server.Log(profile), 0, x)
  {
    LogOfRows(server.deltas, profile, server.next);
  }

  lemma OpsOfNext(rows: seq<Row>, i: nat)
    requires i < |rows|
    ensures OpsOf(rows[..i + 1]) == OpsOf(rows[..i]) + rows[i].item.ops
  {
    forall o | o in rows[i].item.ops ensures o in OpsOf(rows[..i + 1]) { assert o in rows[..i + 1][i].item.ops; }
    forall o | o in OpsOf(rows[..i]) ensures o in OpsOf(rows[..i + 1]) {
      var k :| 0 <= k < i && o in rows[..i][k].item.ops;
      assert rows[..i + 1][k] == rows[k];
    }
  }

  lemma NothingPulled()
    ensures OpsOf([]) == {}
  {}

  lemma NothingAbove(log: seq<Row>, since: nat)
    requires Ascending(log) && Above(log, since) == []
    ensures log != [] ==> LastSeq(log) <= since
  {
    AboveRows(log, since);
    if log != [] {
      var last := log[|log| - 1];
      assert last in log;
      assert last in Above(log, since) <==> last.seqId > since;
    }
  }

  /** The last pulled row is the last of the log. */
  lemma LastAbove(log: seq<Row>, since: nat)
    requires Ascending(log) && Above(log, since) != []
    ensures log != [] && Above(log, since)[|Above(log, since)| - 1].seqId == LastSeq(log)
  {
    var k := AboveSuffix(log, since);
  }
}
