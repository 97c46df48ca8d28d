/** The sync server's rows: the delta log, paged reads and the snapshot upsert. */
module SyncServer {
  import opened Forests
  import opened SyncState

  datatype Reply<T> = Ok(value: T) | Forbidden | BadRequest | NotFound

  datatype Delta = Delta(seqId: nat, profile: nat, item: Item)

  /** A stored snapshot row. The sequence id is whatever the uploader named. */
  datatype Compacted = Compacted(seqId: int, ops: Ops)

  const PAGE := 500

  /** The rows of one profile. */
  function LogOf(deltas: seq<Delta>, profile: nat): (log: seq<Row>) {
    if deltas == [] then []
    else
      var d := deltas[|deltas| - 1];
      LogOf(deltas[..|deltas| - 1], profile) + if d.profile == profile then [Row(d.seqId, d.item)] else []
  }

  /** The rows above `n`, in order. */
  function Above(log: seq<Row>, n: int): seq<Row> {
    if log == [] then []
    else if log[0].seqId > n then [log[0]] + Above(log[1..], n)
    else Above(log[1..], n)
  }

  ghost predicate Ascending(log: seq<Row>) {
    forall i, k :: 0 <= i < k < |log| ==> log[i].seqId < log[k].seqId
  }

  lemma {:induction false} LogOfRows(deltas: seq<Delta>, profile: nat, next: nat)
    requires forall i, k :: 0 <= i < k < |deltas| ==> deltas[i].seqId < deltas[k].seqId
    requires forall i :: 0 <= i < |deltas| ==> 1 <= deltas[i].seqId < next
    ensures Ascending(LogOf(deltas, profile))
    ensures forall i :: 0 <= i < |LogOf(deltas, profile)| ==> 1 <= LogOf(deltas, profile)[i].seqId < next
  {
    if deltas != [] {
      var d := deltas[|deltas| - 1];
      LogOfRows(deltas[..|deltas| - 1], profile, d.seqId);
    }
  }

  lemma LogOfAppend(deltas: seq<Delta>, d: Delta, profile: nat)
    ensures LogOf(deltas + [d], profile) == LogOf(deltas, profile) + if d.profile == profile then [Row(d.seqId, d.item)]
      else []
  {
    assert (deltas + [d])[..|deltas|] == deltas;
  }

  lemma {:induction false} AboveAppend(log: seq<Row>, row: Row, n: int)
    ensures Above(log + [row], n) == Above(log, n) + if row.seqId > n then [row] else []
  {
    if log != [] {
      AboveAppend(log[1..], row, n);
      assert (log + [row])[1..] == log[1..] + [row];
    }
  }

  /** On an ascending log the rows above `n` are a suffix. */
  lemma {:induction false} AboveSuffix(log: seq<Row>, n: int) returns (k: nat)
    requires Ascending(log)
    ensures k <= |log| && Above(log, n) == log[k..]
    ensures forall i :: 0 <= i < |log| ==> (log[i].seqId > n <==> k <= i)
  {
    if log == [] {
      k := 0;
    } else {
      var rest := log[1..];
      assert forall i :: 0 <= i < |rest| ==> rest[i] == log[i + 1];
      k := AboveSuffix(rest, n);
      if log[0].seqId > n {
        assert rest != [] ==> rest[0].seqId > n;
        k := 0;
        assert rest[0..] == rest && log == [log[0]] + rest;
      } else {
        assert rest[k..] == log[k + 1..];
        assert forall i :: 1 <= i < |log| ==> log[i] == rest[i - 1];
        k := k + 1;
      }
    }
  }

  /** Exactly the rows above `n`, ascending: no gap, no repeat. */
  lemma AboveRows(log: seq<Row>, n: int)
    requires Ascending(log)
    ensures Ascending(Above(log, n))
    ensures forall row :: row in Above(log, n) <==> row in log && row.seqId > n
  {
    var k := AboveSuffix(log, n);
    hide Above;
    forall row ensures row in Above(log, n) <==> row in log && row.seqId > n {
      if row in log && row.seqId > n {
        var i :| 0 <= i < |log| && log[i] == row;
        assert log[k..][i - k] == row;
      }
    }
  }

  /** Continuing after the last row of a page. */
  lemma AboveNext(log: seq<Row>, n: int, k: nat)
    requires Ascending(log) && 0 < k <= |Above(log, n)|
    ensures Above(log, Above(log, n)[k - 1].seqId) == Above(log, n)[k..]
  {
    var c := AboveSuffix(log, n);
    var d := AboveSuffix(log, Above(log, n)[k - 1].seqId);
    hide Above;
    assert Above(log, n)[k - 1] == log[c + k - 1];
    assert log[c + k - 1].seqId <= Above(log, n)[k - 1].seqId;
    if c + k < |log| { assert log[c + k - 1].seqId < log[c + k].seqId; }
    assert d == c + k;
    assert log[c..][k..] == log[d..];
  }

  /** No snapshot claims a sequence id beyond its profile's log. */
  ghost predicate SnapshotsInLog(deltas: seq<Delta>, snapshots: map<nat, Compacted>) {
    forall p :: p in snapshots ==> snapshots[p].seqId <= LastSeq(LogOf(deltas, p))
  }

  /** A stored row as the protocol sees it. */
  function AsSnap(snapshots: map<nat, Compacted>, profile: nat): Option<Snap> {
    if profile in snapshots && snapshots[profile].seqId >= 0
    then Some(Snap(snapshots[profile].seqId, snapshots[profile].ops)) else None
  }

  class Server {
    /** Profile to user. */
    var owner: map<nat, nat>
    var deltas: seq<Delta>
    /** The next value of the sequence shared by all profiles. */
    var next: nat
    var snapshots: map<nat, Compacted>

    function Log(profile: nat): seq<Row>
      reads this
    {
      LogOf(deltas, profile)
    }

    predicate Owns(user: nat, profile: nat)
      reads this
    {
      profile in owner && owner[profile] == user
    }

    ghost predicate Valid()
      reads this
    {
      && next >= 1
      && (forall i, k :: 0 <= i < k < |deltas| ==> deltas[i].seqId < deltas[k].seqId)
      && (forall i :: 0 <= i < |deltas| ==> 1 <= deltas[i].seqId < next)
      && SnapshotsInLog(deltas, snapshots)
    }

    constructor (profiles: map<nat, nat>)
      ensures Valid() && owner == profiles && deltas == [] && next == 1 && snapshots == map[]
      ensures forall p :: Log(p) == []
    {
      owner, deltas, next, snapshots := profiles, [], 1, map[];
    }

    /** `payload` is absent when it is not valid base64. Insert and notification are one transaction. */
    method Push(user: nat, profile: nat, payload: Option<Item>) returns (r: Reply<nat>)
      requires Valid()
      modifies this`deltas, this`next
      ensures Valid()
      ensures !(profile in owner && owner[profile] == user) ==> r == Forbidden
      ensures (profile in owner && owner[profile] == user) && payload.None? ==> r == BadRequest
      ensures (profile in owner && owner[profile] == user) && payload.Some? ==> r == Ok(old(next))
      ensures r.Ok? ==> next == old(next) + 1 && deltas == old(deltas) + [Delta(old(next), profile, payload.value)]
      ensures r.Ok? ==> Log(profile) == old(Log(profile)) + [Row(old(next), payload.value)]
      ensures r.Ok? ==> forall p :: p != profile ==> Log(p) == old(Log(p))
      ensures !r.Ok? ==> deltas == old(deltas) && next == old(next)
    {
      if !Owns(user, profile) { return Forbidden; }
      if payload.None? { return BadRequest; }
      var d := Delta(next, profile, payload.value);
      hide LogOf, LastSeq, SnapshotsInLog;
      PushedSnapshots(deltas, d, snapshots);
      forall p
        ensures LogOf(deltas + [d], p) == if p == d.profile then LogOf(deltas, p) + [Row(d.seqId, d.item)]
          else LogOf(deltas, p)
      {
        Pushed(deltas, d, p);
      }
      deltas := deltas + [d];
      next := next + 1;
      r := Ok(d.seqId);
    }

    /** One page: a fetch of one row more than a page tells whether more are there. */
    method FetchDeltasSince(profile: nat, since: int) returns (rows: seq<Row>, hasMore: bool)
      requires Valid()
      ensures var all := Above(Log(profile), since);
        hasMore == (|all| > 500) && rows == if |all| > 500 then all[..500] else all
    {
      var all := Above(Log(profile), since);
      rows := all[..Min(PAGE + 1, |all|)];
      hasMore := |rows| > PAGE;
      rows := rows[..Min(PAGE, |rows|)];
    }

    method Pull(user: nat, profile: nat, since: int) returns (r: Reply<(seq<Row>, bool)>)
      requires Valid()
      ensures since < 0 ==> r == BadRequest
      ensures since >= 0 && !(profile in owner && owner[profile] == user) ==> r == Forbidden
      ensures since >= 0 && (profile in owner && owner[profile] == user) ==>
        var all := Above(Log(profile), since); r == Ok((if |all| > 500 then all[..500] else all, |all| > 500))
    {
      if since < 0 { return BadRequest; }
      if !Owns(user, profile) { return Forbidden; }
      var rows, hasMore := FetchDeltasSince(profile, since);
      r := Ok((rows, hasMore));
    }

    method MaxSequenceId(profile: nat) returns (max: Option<nat>)
      requires Valid()
      ensures max.None? <==> Log(profile) == []
      ensures max.Some? ==>
        && max.value == LastSeq(Log(profile)) && (exists row :: row in Log(profile) && row.seqId == max.value)
        && forall row :: row in Log(profile) ==> row.seqId <= max.value
    {
      max := None;
      var i := 0;
      assert deltas[..0] == [];
      while i < |deltas|
        invariant 0 <= i <= |deltas|
        invariant max.None? <==> LogOf(deltas[..i], profile) == []
        invariant max.Some? ==> max.value == LastSeq(LogOf(deltas[..i], profile))
      {
        assert deltas[..i + 1] == deltas[..i] + [deltas[i]];
        LogOfAppend(deltas[..i], deltas[i], profile);
        LogOfRows(deltas[..i], profile, deltas[i].seqId);
        if deltas[i].profile == profile && (max.None? || deltas[i].seqId > max.value) { max := Some(deltas[i].seqId); }
        i := i + 1;
      }
      assert deltas[..i] == deltas;
      LastIsMax(deltas, profile, next);
    }

    /** What it returns is within the log, so a pull from its sequence id continues it: the two give every row. */
    method GetSnapshot(user: nat, profile: nat) returns (r: Reply<Compacted>)
      requires Valid()
      ensures r.Ok? <==> (profile in owner && owner[profile] == user) && profile in snapshots
      ensures !r.Ok? ==> r == if (profile in owner && owner[profile] == user) then NotFound else Forbidden
      ensures r.Ok? ==> r.value == snapshots[profile] && r.value.seqId <= LastSeq(Log(profile))
      ensures r.Ok? ==>
        forall row :: row in Log(profile) ==> row.seqId <= r.value.seqId || row in Above(Log(profile), r.value.seqId)
    {
      if !Owns(user, profile) { return Forbidden; }
      LogOfRows(deltas, profile, next);
      if profile in snapshots { AboveRows(Log(profile), snapshots[profile].seqId); }
      r := if profile in snapshots then Ok(snapshots[profile]) else NotFound;
    }

    /** Stores a compacted snapshot unless a newer or equally new one is there. A sequence id that is in range
        is accepted whether or not a delta has it. */
    method PutSnapshot(user: nat, profile: nat, seqId: int, payload: Option<Ops>) returns (r: Reply<()>)
      requires Valid()
      modifies this`snapshots
      ensures Valid()
      ensures r.Forbidden? <==> !(profile in owner && owner[profile] == user)
      ensures r.Ok? <==>
        && profile in owner && owner[profile] == user && payload.Some?
        && Log(profile) != [] && seqId <= LastSeq(Log(profile))
      ensures !r.Ok? ==> !r.NotFound? && snapshots == old(snapshots)
      ensures r.Ok? ==> profile in snapshots && seqId <= snapshots[profile].seqId
      ensures r.Ok? ==> snapshots == old(snapshots)[profile := snapshots[profile]]
      ensures r.Ok? && profile in old(snapshots) && seqId <= old(snapshots)[profile].seqId ==>
        snapshots == old(snapshots)
      ensures r.Ok? && !(profile in old(snapshots) && seqId <= old(snapshots)[profile].seqId) ==>
        snapshots[profile] == Compacted(seqId, payload.value)
      ensures r.Ok? && 0 <= seqId && (profile in old(snapshots) ==> 0 <= old(snapshots)[profile].seqId) ==>
        AsSnap(snapshots, profile) ==
          Upserted(Log(profile), AsSnap(old(snapshots), profile), Snap(seqId, payload.value))
    {
      hide LogOf, LastSeq;
      if !Owns(user, profile) { return Forbidden; }
      var max := MaxSequenceId(profile);
      if max.None? { return BadRequest; }
      if seqId > max.value { return BadRequest; }
      if payload.None? { return BadRequest; }
      if profile !in snapshots || snapshots[profile].seqId < seqId {
        snapshots := snapshots[profile := Compacted(seqId, payload.value)];
      }
      r := Ok(());
    }
  }

  lemma LastIsMax(deltas: seq<Delta>, profile: nat, next: nat)
    requires forall i, k :: 0 <= i < k < |deltas| ==> deltas[i].seqId < deltas[k].seqId
    requires forall i :: 0 <= i < |deltas| ==> 1 <= deltas[i].seqId < next
    ensures var log := LogOf(deltas, profile);
      log != [] ==>
        (exists row :: row in log && row.seqId == LastSeq(log)) && forall row :: row in log ==>
          row.seqId <= LastSeq(log)
  {
    LogOfRows(deltas, profile, next);
    hide LogOf;
    var log := LogOf(deltas, profile);
    if log != [] { assert log[|log| - 1] in log; }
  }

  /** An appended delta shows up at the end of its profile's log and nowhere else. */
  lemma Pushed(deltas: seq<Delta>, d: Delta, p: nat)
    requires forall i, k :: 0 <= i < k < |deltas| ==> deltas[i].seqId < deltas[k].seqId
    requires forall i :: 0 <= i < |deltas| ==> 1 <= deltas[i].seqId < d.seqId
    ensures LogOf(deltas + [d], p) == if p == d.profile then LogOf(deltas, p) + [Row(d.seqId, d.item)]
      else LogOf(deltas, p)
    ensures LastSeq(LogOf(deltas, p)) <= LastSeq(LogOf(deltas + [d], p))
  {
    LogOfAppend(deltas, d, p);
    LogOfRows(deltas, p, d.seqId);
  }

  lemma PushedSnapshots(deltas: seq<Delta>, d: Delta, snapshots: map<nat, Compacted>)
    requires forall i, k :: 0 <= i < k < |deltas| ==> deltas[i].seqId < deltas[k].seqId
    requires forall i :: 0 <= i < |deltas| ==> 1 <= deltas[i].seqId < d.seqId
    requires SnapshotsInLog(deltas, snapshots)
    ensures SnapshotsInLog(deltas + [d], snapshots)
  {
    hide LogOf, LastSeq;
    forall p | p in snapshots ensures snapshots[p].seqId <= LastSeq(LogOf(deltas + [d], p)) { Pushed(deltas, d, p); }
  }
}
