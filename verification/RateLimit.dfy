/** The per-address sliding-window limiter of the login routes. */
module RateLimit {

  /** Ticks of the monotonic clock since it began; the window is 60 seconds. */
  type Time = nat
  const TICKS := 1_000_000_000
  const WINDOW: int := 60 * TICKS
  const MAX: nat := 10

  type Ip = nat

  // ---- Reference: what the full history of admitted requests allows -----------------------------------

  ghost predicate Ordered(h: seq<Time>) {
    forall i, k :: 0 <= i < k < |h| ==> h[i] <= h[k]
  }

  /** The admitted requests in the closed window [a, b]. */
  function Within(h: seq<Time>, a: int, b: int): (w: seq<Time>)
    ensures |w| <= |h|
  {
    if h == [] then []
    else
      var w := Within(h[..|h| - 1], a, b);
      var t := h[|h| - 1];
      if a <= t <= b then w + [t] else w
  }

  /** Fewer than ten were admitted in the 60 seconds up to `now`, in nanoseconds. */
  ghost predicate Allowed(h: seq<Time>, now: Time) {
    |Within(h, now - 60_000_000_000, now)| < 10
  }

  // ---- The pruned deque ----------------------------------------------------------------------------------

  /** The source subtracts the window from the clock, and falls back to the clock itself when there is no such
      instant, as before the origin of a clock that starts at 0. */
  function Cutoff(now: Time): Time {
    if now >= WINDOW then now - WINDOW else now
  }

  function Pruned(d: seq<Time>, cutoff: Time): (p: seq<Time>) {
    if d != [] && d[0] < cutoff then Pruned(d[1..], cutoff) else d
  }

  /** `p` is the part of `d` from the first entry on that is not before `cutoff`. */
  ghost predicate Trimmed(d: seq<Time>, p: seq<Time>, cutoff: int) {
    && |p| <= |d| && p == d[|d| - |p|..] && (p != [] ==> p[0] >= cutoff)
    && forall i :: 0 <= i < |d| - |p| ==> d[i] < cutoff
  }

  lemma {:induction false} PrunedTrims(d: seq<Time>, cutoff: Time)
    ensures Trimmed(d, Pruned(d, cutoff), cutoff)
  {
    if d != [] && d[0] < cutoff {
      PrunedTrims(d[1..], cutoff);
      var p := Pruned(d[1..], cutoff);
      assert d[1..][|d| - 1 - |p|..] == d[|d| - |p|..];
      forall i | 0 <= i < |d| - |p| ensures d[i] < cutoff { if i > 0 { assert d[1..][i - 1] == d[i]; } }
    }
  }

  method Prune(d: seq<Time>, cutoff: Time) returns (p: seq<Time>)
    ensures p == Pruned(d, cutoff)
  {
    p := d;
    while p != [] && p[0] < cutoff
      invariant Pruned(p, cutoff) == Pruned(d, cutoff)
    {
      p := p[1..];
    }
  }

  function DequeOf(m: map<Ip, seq<Time>>, ip: Ip): seq<Time> {
    if ip in m then m[ip] else []
  }

  class RateLimiter {
    var deques: map<Ip, seq<Time>>

    constructor ()
      ensures deques == map[]
    {
      deques := map[];
    }

    /** One request: prune, then admit and remember it or reject it. */
    method Request(ip: Ip, now: Time) returns (admitted: bool)
      modifies this
      ensures (admitted, deques) == OnAttempt(old(deques), ip, now)
      ensures exists p ::
        && Trimmed(DequeOf(old(deques), ip), p, if now >= 60_000_000_000 then now - 60_000_000_000 else now)
        && admitted == (|p| < 10) && deques == old(deques)[ip := if admitted then p + [now] else p]
      ensures forall h, before :: Remembers(h, DequeOf(old(deques), ip), before, now) ==>
        admitted == Allowed(h, now) && Faithful(if admitted then h + [now] else h, DequeOf(deques, ip), now)
    {
      forall h, before | Remembers(h, DequeOf(deques, ip), before, now)
        ensures OnAttempt(deques, ip, now).0 == Allowed(h, now)
        ensures Faithful(if Allowed(h, now) then h + [now] else h, DequeOf(OnAttempt(deques, ip, now).1, ip), now)
      {
        StepFaithful(deques, h, ip, before, Attempt(ip, now));
      }
      hide Faithful, Allowed, Remembers, Trimmed;
      PrunedTrims(DequeOf(deques, ip), Cutoff(now));
      var entry := Prune(DequeOf(deques, ip), Cutoff(now));
      admitted := |entry| < MAX;
      deques := deques[ip := if admitted then entry + [now] else entry];
    }

    /** Drops what has left the window and forgets addresses without requests. */
    method Cleanup(now: Time)
      modifies this
      ensures deques == OnSweep(old(deques), now)
      ensures now < 60_000_000_000 ==> deques == old(deques)
      ensures now >= 60_000_000_000 ==> forall ip ::
        Trimmed(DequeOf(old(deques), ip), DequeOf(deques, ip), now - 60_000_000_000)
        && (ip in deques ==> deques[ip] != [])
    {
      hide Trimmed;
      if now < WINDOW { return; }
      SweepTrims(deques, now);
      var todo := deques.Keys;
      var kept: map<Ip, seq<Time>> := map[];
      while todo != {}
        invariant todo <= deques.Keys && deques == old(deques) && kept.Keys <= deques.Keys - todo
        invariant forall ip :: ip in kept ==> kept[ip] == Pruned(deques[ip], now - WINDOW) && kept[ip] != []
        invariant forall ip :: ip in deques && ip !in todo && ip !in kept ==> Pruned(deques[ip], now - WINDOW) == []
      {
        var ip :| ip in todo;
        todo := todo - {ip};
        var d := Prune(deques[ip], now - WINDOW);
        if d != [] { kept := kept[ip := d]; }
      }
      deques := kept;
    }
  }

  // ---- The deque refines the history ------------------------------------------------------------------------

  /** The deque is the history without entries that are out of every later window. */
  ghost predicate Faithful(h: seq<Time>, d: seq<Time>, now: Time) {
    && Ordered(h) && (forall i :: 0 <= i < |h| ==> h[i] <= now)
    && |d| <= |h| && d == h[|h| - |d|..]
    && forall i :: 0 <= i < |h| - |d| ==> h[i] + WINDOW < now
  }

  /** A faithful deque of an address at a clock reading from which on pruning is sound. */
  ghost predicate Remembers(h: seq<Time>, d: seq<Time>, before: Time, now: Time) {
    Faithful(h, d, before) && before <= now && now >= WINDOW - 1 && forall i :: 0 <= i < |h| ==> h[i] >= WINDOW - 1
  }

  lemma {:induction false} WithinNone(h: seq<Time>, a: int, b: int)
    requires forall i :: 0 <= i < |h| ==> h[i] < a
    ensures Within(h, a, b) == []
  {
    if h != [] { WithinNone(h[..|h| - 1], a, b); }
  }

  lemma {:induction false} WithinAll(h: seq<Time>, a: int, b: int)
    requires forall i :: 0 <= i < |h| ==> a <= h[i] <= b
    ensures Within(h, a, b) == h
  {
    if h != [] {
      WithinAll(h[..|h| - 1], a, b);
      assert h == h[..|h| - 1] + [h[|h| - 1]];
    }
  }

  lemma {:induction false} WithinConcat(x: seq<Time>, y: seq<Time>, a: int, b: int)
    ensures Within(x + y, a, b) == Within(x, a, b) + Within(y, a, b)
  {
    if y == [] {
      assert x + y == x;
    } else {
      assert (x + y)[..|x + y| - 1] == x + y[..|y| - 1];
      WithinConcat(x, y[..|y| - 1], a, b);
    }
  }

  /** Pruning drops exactly a prefix of old entries. */
  lemma {:induction false} PrunedSuffix(d: seq<Time>, cutoff: Time)
    ensures |Pruned(d, cutoff)| <= |d| && Pruned(d, cutoff) == d[|d| - |Pruned(d, cutoff)|..]
    ensures forall i :: 0 <= i < |d| - |Pruned(d, cutoff)| ==> d[i] < cutoff
    ensures Pruned(d, cutoff) == [] || Pruned(d, cutoff)[0] >= cutoff
  {
    if d != [] && d[0] < cutoff {
      PrunedSuffix(d[1..], cutoff);
      assert forall i :: 1 <= i < |d| ==> d[i] == d[1..][i - 1];
    }
  }

  lemma WindowIsSuffix(h: seq<Time>, n: nat, a: int, b: int)
    requires n <= |h| && (forall i :: 0 <= i < n ==> h[i] < a) && forall i :: n <= i < |h| ==> a <= h[i] <= b
    ensures Within(h, a, b) == h[n..]
  {
    WithinNone(h[..n], a, b);
    WithinAll(h[n..], a, b);
    WithinConcat(h[..n], h[n..], a, b);
    assert h == h[..n] + h[n..];
  }

  /** Pruning at any moment from 60 seconds on keeps the deque faithful, and leaves just the window. */
  lemma PrunedFaithful(h: seq<Time>, d: seq<Time>, before: Time, now: Time)
    requires Faithful(h, d, before) && before <= now && now >= WINDOW
    ensures Faithful(h, Pruned(d, now - WINDOW), now)
    ensures Pruned(d, now - WINDOW) == Within(h, now - WINDOW, now)
  {
    hide Within, Pruned;
    var cutoff := now - WINDOW;
    var p := Pruned(d, cutoff);
    PrunedSuffix(d, cutoff);
    var n := |h| - |p|;
    SuffixOfSuffix(h, d, p);
    forall i | 0 <= i < n ensures h[i] < cutoff {
      if i >= |h| - |d| { assert h[i] == d[i - (|h| - |d|)]; }
    }
    if p != [] { assert p[0] == h[n]; }
    WindowIsSuffix(h, n, cutoff, now);
  }

  /** One tick earlier the cutoff is the clock itself; with no entry from before that tick nothing is dropped,
      and the window holds everything. */
  lemma LastTickFaithful(h: seq<Time>, d: seq<Time>, before: Time, now: Time)
    requires Faithful(h, d, before) && before <= now && now == WINDOW - 1
    requires forall i :: 0 <= i < |h| ==> h[i] >= WINDOW - 1
    ensures Faithful(h, d, now) && Pruned(d, now) == d == h && Within(h, now - WINDOW, now) == h
  {
    if |h| > 0 { assert h[0] + WINDOW >= before; }
    WithinAll(h, now - WINDOW, now);
  }

  /** At any reading from there on: what pruning leaves is the window, and it stays faithful. */
  lemma CutFaithful(h: seq<Time>, d: seq<Time>, before: Time, now: Time)
    requires Faithful(h, d, before) && before <= now && now >= WINDOW - 1
    requires forall i :: 0 <= i < |h| ==> h[i] >= WINDOW - 1
    ensures Faithful(h, Pruned(d, Cutoff(now)), now)
    ensures Pruned(d, Cutoff(now)) == Within(h, now - WINDOW, now)
  {
    if now >= WINDOW { PrunedFaithful(h, d, before, now); } else { LastTickFaithful(h, d, before, now); }
  }

  lemma SuffixOfSuffix(h: seq<Time>, d: seq<Time>, p: seq<Time>)
    requires |d| <= |h| && d == h[|h| - |d|..] && |p| <= |d| && p == d[|d| - |p|..]
    ensures p == h[|h| - |p|..]
  {}

  lemma AdmittedFaithful(h: seq<Time>, d: seq<Time>, now: Time)
    requires Faithful(h, d, now)
    ensures Faithful(h + [now], d + [now], now)
  {}

  // ---- Runs ---------------------------------------------------------------------------------------------

  datatype Event = Attempt(ip: Ip, now: Time) | Sweep(now: Time)

  function OnAttempt(m: map<Ip, seq<Time>>, ip: Ip, now: Time): (bool, map<Ip, seq<Time>>) {
    var d := Pruned(DequeOf(m, ip), Cutoff(now));
    (|d| < MAX, m[ip := if |d| < MAX then d + [now] else d])
  }

  function OnSweep(m: map<Ip, seq<Time>>, now: Time): map<Ip, seq<Time>> {
    if now < WINDOW then m
    else map ip | ip in m && Pruned(m[ip], now - WINDOW) != [] :: Pruned(m[ip], now - WINDOW)
  }

  lemma SweepTrims(m: map<Ip, seq<Time>>, now: Time)
    requires now >= WINDOW
    ensures forall ip ::
      Trimmed(DequeOf(m, ip), DequeOf(OnSweep(m, now), ip), now - 60_000_000_000)
      && (ip in OnSweep(m, now) ==> OnSweep(m, now)[ip] != [])
  {
    hide Trimmed;
    forall ip ensures Trimmed(DequeOf(m, ip), DequeOf(OnSweep(m, now), ip), now - 60_000_000_000) {
      PrunedTrims(DequeOf(m, ip), now - WINDOW);
    }
  }

  /** The deques after the events, and the decisions on their attempts. */
  function Deques(events: seq<Event>): map<Ip, seq<Time>> {
    if events == [] then map[]
    else
      var m := Deques(events[..|events| - 1]);
      match events[|events| - 1]
      case Attempt(ip, now) => OnAttempt(m, ip, now).1
      case Sweep(now) => OnSweep(m, now)
  }

  function Decisions(events: seq<Event>): seq<bool> {
    if events == [] then []
    else
      var before := events[..|events| - 1];
      match events[|events| - 1]
      case Attempt(ip, now) => Decisions(before) + [OnAttempt(Deques(before), ip, now).0]
      case Sweep(now) => Decisions(before)
  }

  /** All admitted requests of an address, by the rule on the full history. */
  ghost function History(events: seq<Event>, ip: Ip): seq<Time> {
    if events == [] then []
    else
      var h := History(events[..|events| - 1], ip);
      match events[|events| - 1]
      case Attempt(who, now) => if who == ip && Allowed(h, now) then h + [now] else h
      case Sweep(_) => h
  }

  ghost function Reference(events: seq<Event>): seq<bool> {
    if events == [] then []
    else
      var before := events[..|events| - 1];
      match events[|events| - 1]
      case Attempt(ip, now) => Reference(before) + [Allowed(History(before, ip), now)]
      case Sweep(_) => Reference(before)
  }

  ghost predicate InOrder(events: seq<Event>) {
    forall i, k :: 0 <= i < k < |events| ==> events[i].now <= events[k].now
  }

  /** No event happens before the clock reads `t0`. */
  ghost predicate From(events: seq<Event>, t0: Time) {
    forall i :: 0 <= i < |events| ==> events[i].now >= t0
  }

  lemma FaithfulLater(h: seq<Time>, d: seq<Time>, before: Time, now: Time)
    requires Faithful(h, d, before) && before <= now
    ensures Faithful(h, d, now)
  {}

  function LastTime(events: seq<Event>): Time {
    if events == [] then 0 else events[|events| - 1].now
  }

  lemma StepFaithful(m: map<Ip, seq<Time>>, h: seq<Time>, ip: Ip, before: Time, e: Event)
    requires Faithful(h, DequeOf(m, ip), before) && before <= e.now && e.now >= WINDOW - 1
    requires forall i :: 0 <= i < |h| ==> h[i] >= WINDOW - 1
    ensures Faithful(if e.Attempt? && e.ip == ip && Allowed(h, e.now) then h + [e.now] else h,
      DequeOf(match e case Attempt(who, now) => OnAttempt(m, who, now).1 case Sweep(now) => OnSweep(m, now), ip), e.now)
    ensures e.Attempt? ==> (e.ip == ip ==> OnAttempt(m, ip, e.now).0 == Allowed(h, e.now))
  {
    var d := DequeOf(m, ip);
    hide Faithful, Within, Pruned;
    FaithfulLater(h, d, before, e.now);
    CutFaithful(h, d, before, e.now);
    if e.Attempt? && e.ip == ip && Allowed(h, e.now) { AdmittedFaithful(h, Pruned(d, Cutoff(e.now)), e.now); }
  }

  lemma {:induction false} HistoryFrom(events: seq<Event>, ip: Ip, t0: Time)
    requires From(events, t0)
    ensures forall i :: 0 <= i < |History(events, ip)| ==> History(events, ip)[i] >= t0
  {
    if events != [] {
      var before := events[..|events| - 1];
      assert forall i :: 0 <= i < |before| ==> before[i] == events[i];
      HistoryFrom(before, ip, t0);
      hide Allowed;
    }
  }

  lemma {:induction false} DequesFaithful(events: seq<Event>, ip: Ip)
    requires InOrder(events) && From(events, WINDOW - 1)
    ensures Faithful(History(events, ip), DequeOf(Deques(events), ip), LastTime(events))
  {
    if events != [] {
      var before, last := events[..|events| - 1], events[|events| - 1];
      assert forall i :: 0 <= i < |before| ==> before[i] == events[i];
      DequesFaithful(before, ip);
      HistoryFrom(before, ip, WINDOW - 1);
      assert LastTime(before) <= last.now;
      hide Faithful, Within, Pruned, InOrder, Allowed;
      StepFaithful(Deques(before), History(before, ip), ip, LastTime(before), last);
    } else {
      assert Faithful([], [], 0);
    }
  }

  /** The next attempt is decided as the full history decides it. */
  lemma NextDecision(events: seq<Event>)
    requires events != [] && InOrder(events) && From(events, WINDOW - 1) && events[|events| - 1].Attempt?
    ensures var before, last := events[..|events| - 1], events[|events| - 1];
      OnAttempt(Deques(before), last.ip, last.now).0 == Allowed(History(before, last.ip), last.now)
  {
    var before, last := events[..|events| - 1], events[|events| - 1];
    assert forall i :: 0 <= i < |before| ==> before[i] == events[i];
    assert LastTime(before) <= last.now;
    DequesFaithful(before, last.ip);
    HistoryFrom(before, last.ip, WINDOW - 1);
    hide Faithful, OnAttempt, OnSweep, Allowed, History, Deques, DequeOf, InOrder;
    StepFaithful(Deques(before), History(before, last.ip), last.ip, LastTime(before), last);
  }

  /** From one tick before the 60th second of the clock on, the pruned deques decide every attempt as the full
      history does. */
  lemma {:induction false} Refines(events: seq<Event>)
    requires InOrder(events) && From(events, WINDOW - 1)
    ensures Decisions(events) == Reference(events)
  {
    if events != [] {
      var before, last := events[..|events| - 1], events[|events| - 1];
      assert forall i :: 0 <= i < |before| ==> before[i] == events[i];
      Refines(before);
      hide OnAttempt, Allowed, History, Deques;
      if last.Attempt? { NextDecision(events); }
    }
  }

  /** The requests of an address that the limiter itself let through. */
  function Admitted(events: seq<Event>, ip: Ip): seq<Time> {
    if events == [] then []
    else
      var before := events[..|events| - 1];
      match events[|events| - 1]
      case Attempt(who, now) => if who == ip && OnAttempt(Deques(before), ip, now).0 then Admitted(before, ip) + [now]
        else Admitted(before, ip)
      case Sweep(_) => Admitted(before, ip)
  }

  lemma {:induction false} AdmittedHistory(events: seq<Event>, ip: Ip)
    requires InOrder(events) && From(events, WINDOW - 1)
    ensures Admitted(events, ip) == History(events, ip)
  {
    if events != [] {
      var before, last := events[..|events| - 1], events[|events| - 1];
      assert forall i :: 0 <= i < |before| ==> before[i] == events[i];
      AdmittedHistory(before, ip);
      hide OnAttempt, Allowed, Deques;
      if last.Attempt? { NextDecision(events); }
    }
  }

  function Attempts(events: seq<Event>): seq<Event> {
    if events == [] then []
    else Attempts(events[..|events| - 1]) + if events[|events| - 1].Attempt? then [events[|events| - 1]] else []
  }

  lemma {:induction false} PrunedTwice(d: seq<Time>, a: Time, b: Time)
    requires a <= b
    ensures Pruned(Pruned(d, a), b) == Pruned(d, b)
  {
    if d != [] && d[0] < a { PrunedTwice(d[1..], a, b); }
  }

  /** The latest cutoff a cleanup has used; every later request prunes at least as far. */
  function SweptTo(events: seq<Event>): Time {
    if events == [] then 0
    else
      var last := events[|events| - 1];
      if last.Sweep? && last.now >= WINDOW then last.now - WINDOW else SweptTo(events[..|events| - 1])
  }

  lemma {:induction false} SweptBefore(events: seq<Event>)
    requires InOrder(events)
    ensures SweptTo(events) == 0 || SweptTo(events) + WINDOW <= LastTime(events)
  {
    if events != [] {
      var before := events[..|events| - 1];
      assert forall i :: 0 <= i < |before| ==> before[i] == events[i];
      SweptBefore(before);
      assert LastTime(before) <= LastTime(events);
    }
  }

  /** One more event, with and without the cleanups before it. */
  lemma SweptAttempt(m: map<Ip, seq<Time>>, n: map<Ip, seq<Time>>, c: Time, who: Ip, now: Time, ip: Ip)
    requires DequeOf(m, who) == Pruned(DequeOf(n, who), c) && DequeOf(m, ip) == Pruned(DequeOf(n, ip), c)
    requires c == 0 || c + WINDOW <= now
    ensures OnAttempt(m, who, now).0 == OnAttempt(n, who, now).0
    ensures DequeOf(OnAttempt(m, who, now).1, ip) == Pruned(DequeOf(OnAttempt(n, who, now).1, ip), c)
  {
    hide Pruned;
    PrunedTwice(DequeOf(n, who), c, Cutoff(now));
    var d := Pruned(DequeOf(n, who), Cutoff(now));
    PrunedSuffix(DequeOf(n, who), Cutoff(now));
    NothingToPrune(d, c);
    NothingToPrune(d + [now], c);
  }

  lemma SweptSweep(m: map<Ip, seq<Time>>, n: map<Ip, seq<Time>>, c: Time, now: Time, ip: Ip)
    requires DequeOf(m, ip) == Pruned(DequeOf(n, ip), c) && (c == 0 || c + WINDOW <= now)
    ensures DequeOf(OnSweep(m, now), ip) == Pruned(DequeOf(n, ip), if now >= WINDOW then now - WINDOW else c)
  {
    hide Pruned;
    if now >= WINDOW {
      PrunedTwice(DequeOf(n, ip), c, now - WINDOW);
      SweptDeque(m, now, ip);
    }
  }

  lemma NothingToPrune(d: seq<Time>, c: Time)
    requires d == [] || d[0] >= c
    ensures Pruned(d, c) == d
  {}

  lemma SweptDeque(m: map<Ip, seq<Time>>, now: Time, ip: Ip)
    requires now >= WINDOW
    ensures DequeOf(OnSweep(m, now), ip) == Pruned(DequeOf(m, ip), now - WINDOW)
  {}

  lemma {:induction false} SweptDeques(events: seq<Event>, ip: Ip)
    requires InOrder(events)
    ensures DequeOf(Deques(events), ip) == Pruned(DequeOf(Deques(Attempts(events)), ip), SweptTo(events))
  {
    if events != [] {
      var before, last := events[..|events| - 1], events[|events| - 1];
      assert forall i :: 0 <= i < |before| ==> before[i] == events[i];
      SweptDeques(before, ip);
      SweptBefore(before);
      assert LastTime(before) <= last.now;
      if last.Attempt? { SweptDeques(before, last.ip); }
      AttemptsNext(events);
      hide Pruned, OnAttempt, OnSweep, DequeOf, InOrder, Attempts;
      if last.Attempt? {
        SweptAttempt(Deques(before), Deques(Attempts(before)), SweptTo(before), last.ip, last.now, ip);
      } else {
        SweptSweep(Deques(before), Deques(Attempts(before)), SweptTo(before), last.now, ip);
      }
    }
  }

  lemma AttemptsNext(events: seq<Event>)
    requires events != []
    ensures var before, last := events[..|events| - 1], events[|events| - 1];
      if last.Attempt? then Attempts(events) == Attempts(before) + [last]
        && Attempts(events)[..|Attempts(events)| - 1] == Attempts(before)
      else Attempts(events) == Attempts(before)
  {}

  /** Cleanup steps, inserted anywhere, change no decision, whatever the clock reads. */
  lemma {:induction false} CleanupChangesNothing(events: seq<Event>)
    requires InOrder(events)
    ensures Decisions(events) == Decisions(Attempts(events))
  {
    if events != [] {
      var before, last := events[..|events| - 1], events[|events| - 1];
      assert forall i :: 0 <= i < |before| ==> before[i] == events[i];
      CleanupChangesNothing(before);
      if last.Attempt? { SweptDeques(before, last.ip); }
      SweptBefore(before);
      assert LastTime(before) <= last.now;
      AttemptsNext(events);
      hide Pruned, OnAttempt, OnSweep, DequeOf, InOrder, Deques, Attempts;
      if last.Attempt? {
        SweptAttempt(Deques(before), Deques(Attempts(before)), SweptTo(before), last.ip, last.now, last.ip);
      }
    }
  }

  lemma {:induction false} HistoryOrdered(events: seq<Event>, ip: Ip)
    requires InOrder(events)
    ensures Ordered(History(events, ip))
    ensures forall i :: 0 <= i < |History(events, ip)| ==> History(events, ip)[i] <= LastTime(events)
  {
    if events != [] {
      var before, last := events[..|events| - 1], events[|events| - 1];
      assert forall i :: 0 <= i < |before| ==> before[i] == events[i];
      HistoryOrdered(before, ip);
      assert LastTime(before) <= last.now;
      hide Within, Allowed, InOrder;
      var h := History(before, ip);
      assert forall i, k :: 0 <= i < k < |h + [last.now]| ==> (h + [last.now])[i] <= (h + [last.now])[k];
    }
  }

  lemma OneMore(h: seq<Time>, now: Time, a: int)
    requires (forall i :: 0 <= i < |h| ==> h[i] <= now) && Allowed(h, now) && |Within(h, a, a + WINDOW)| <= MAX
    ensures |Within(h + [now], a, a + WINDOW)| <= MAX
  {
    assert (h + [now])[..|h|] == h;
    if a <= now <= a + WINDOW { WindowShrinks(h, a, a + WINDOW, now - WINDOW, now); }
  }

  lemma {:induction false} HistoryAtMostTen(events: seq<Event>, ip: Ip, a: int)
    requires InOrder(events)
    ensures |Within(History(events, ip), a, a + WINDOW)| <= MAX
  {
    if events != [] {
      var before, last := events[..|events| - 1], events[|events| - 1];
      assert forall i :: 0 <= i < |before| ==> before[i] == events[i];
      hide Within;
      HistoryAtMostTen(before, ip, a);
      HistoryOrdered(before, ip);
      assert LastTime(before) <= last.now;
      if last.Attempt? && last.ip == ip && Allowed(History(before, ip), last.now) {
        OneMore(History(before, ip), last.now, a);
      }
    } else {
      assert Within([], a, a + WINDOW) == [];
    }
  }

  /** No closed window of 60 seconds contains more than ten requests of an address that the limiter let through. */
  lemma AtMostTen(events: seq<Event>, ip: Ip, a: int)
    requires InOrder(events) && From(events, WINDOW - 1)
    ensures |Within(Admitted(events, ip), a, a + 60_000_000_000)| <= 10
  {
    hide Within;
    AdmittedHistory(events, ip);
    HistoryAtMostTen(events, ip, a);
  }

  lemma {:induction false} WindowShrinks(h: seq<Time>, a: int, b: int, c: int, d: int)
    requires c <= a && forall i :: 0 <= i < |h| ==> h[i] <= d
    ensures |Within(h, a, b)| <= |Within(h, c, d)|
  {
    if h != [] {
      WindowShrinks(h[..|h| - 1], a, b, c, d);
    }
  }

  // ---- The first minute of the clock ---------------------------------------------------------------------

  /** Ten requests of one address in one tick. */
  function Burst(n: nat, t: Time): seq<Event> {
    if n == 0 then [] else Burst(n - 1, t) + [Attempt(0, t)]
  }

  function Ticks(n: nat, t: Time): (s: seq<Time>)
    ensures |s| == n && forall i :: 0 <= i < n ==> s[i] == t
  {
    if n == 0 then [] else Ticks(n - 1, t) + [t]
  }

  /** What an attempt of address 0 adds to a run. */
  lemma OneMoreAttempt(before: seq<Event>, now: Time)
    ensures var run := before + [Attempt(0, now)];
      var d, h := Pruned(DequeOf(Deques(before), 0), Cutoff(now)), History(before, 0);
      && DequeOf(Deques(run), 0) == (if |d| < MAX then d + [now] else d)
      && Admitted(run, 0) == (if |d| < MAX then Admitted(before, 0) + [now] else Admitted(before, 0))
      && Decisions(run) == Decisions(before) + [|d| < MAX]
      && History(run, 0) == (if Allowed(h, now) then h + [now] else h)
      && Reference(run) == Reference(before) + [Allowed(h, now)]
  {
    var run := before + [Attempt(0, now)];
    assert run[..|run| - 1] == before;
    hide Pruned, Allowed;
  }

  lemma InOrderMore(before: seq<Event>, e: Event, t: Time)
    requires InOrder(before) && From(before, t) && (forall i :: 0 <= i < |before| ==> before[i].now <= e.now)
    requires t <= e.now
    ensures InOrder(before + [e]) && From(before + [e], t)
  {}

  lemma BurstUnfold(n: nat, t: Time)
    ensures n == 0 ==> Burst(n, t) == [] && Ticks(n, t) == []
    ensures n > 0 ==> Burst(n, t) == Burst(n - 1, t) + [Attempt(0, t)] && Ticks(n, t) == Ticks(n - 1, t) + [t]
  {}

  lemma NothingYet()
    ensures DequeOf(Deques([]), 0) == [] && Admitted([], 0) == [] && History([], 0) == [] && Decisions([]) == []
    ensures Reference([]) == []
    ensures InOrder([])
  {}

  lemma {:induction false} BurstAdmitted(n: nat, t: Time)
    requires n <= MAX && t < WINDOW
    ensures DequeOf(Deques(Burst(n, t)), 0) == Admitted(Burst(n, t), 0) == History(Burst(n, t), 0) == Ticks(n, t)
    ensures Decisions(Burst(n, t)) == Reference(Burst(n, t)) && InOrder(Burst(n, t)) && From(Burst(n, t), t)
    ensures forall i :: 0 <= i < |Burst(n, t)| ==> Burst(n, t)[i].now == t
  {
    hide Pruned, Within, Deques, Admitted, History, Decisions, Reference, InOrder, DequeOf, Burst, Ticks;
    BurstUnfold(n, t);
    if n == 0 {
      NothingYet();
    } else {
      var before := Burst(n - 1, t);
      BurstAdmitted(n - 1, t);
      OneMoreAttempt(before, t);
      InOrderMore(before, Attempt(0, t), t);
      NothingToPrune(Ticks(n - 1, t), t);
      WithinAll(Ticks(n - 1, t), t - WINDOW, t);
    }
  }

  /** Ten requests at some tick of the first minute and one more a tick later: the later one is let through,
      although the history forbids it, and makes eleven within two ticks. */
  lemma EleventhAdmitted(t: Time) returns (run: seq<Event>)
    requires t < WINDOW - 1
    ensures InOrder(run) && From(run, t) && Decisions(run) != Reference(run)
    ensures Admitted(run, 0) == Ticks(MAX, t) + [t + 1] && History(run, 0) == Ticks(MAX, t)
    ensures DequeOf(Deques(run), 0) == [t + 1]
    ensures forall i :: 0 <= i < |run| ==> run[i].now <= t + 1
  {
    hide Pruned, Within, Deques, Admitted, History, Decisions, Reference, InOrder, DequeOf, Burst, Ticks;
    var burst := Burst(MAX, t);
    run := burst + [Attempt(0, t + 1)];
    BurstAdmitted(MAX, t);
    OneMoreAttempt(burst, t + 1);
    InOrderMore(burst, Attempt(0, t + 1), t);
    PrunedAll(Ticks(MAX, t), t + 1);
    WithinAll(Ticks(MAX, t), t + 1 - WINDOW, t + 1);
    assert Decisions(run)[|Decisions(burst)|] != Reference(run)[|Decisions(burst)|];
  }

  lemma ElevenWithin(t: Time)
    ensures |Within(Ticks(MAX, t) + [t + 1], t, t + WINDOW)| == MAX + 1
  {
    WithinAll(Ticks(MAX, t) + [t + 1], t, t + WINDOW);
  }

  /** Every run from `t0` on is decided as the full history decides it. */
  ghost predicate RightFrom(t0: Time) {
    forall events :: InOrder(events) && From(events, t0) ==> Decisions(events) == Reference(events)
  }

  ghost predicate Capped(admitted: seq<Time>, a: int) {
    |Within(admitted, a, a + 60_000_000_000)| <= 10
  }

  /** No run from `t0` on lets more than ten requests of an address through in any closed window. */
  ghost predicate CappedFrom(t0: Time) {
    forall events, ip, a :: InOrder(events) && From(events, t0) ==> Capped(Admitted(events, ip), a)
  }

  /** The limiter decides right, and keeps its cap, in every run from `t0` on exactly when `t0` is at most one
      tick short of 60 seconds. Before that the cutoff falls back to the clock itself, and every request
      forgets all that came in earlier ticks, for good. */
  lemma ClockConditionExact(t0: Time)
    ensures RightFrom(t0) <==> t0 >= 59_999_999_999
    ensures CappedFrom(t0) <==> t0 >= 59_999_999_999
  {
    hide Within, Decisions, Reference, Admitted, InOrder;
    if t0 >= WINDOW - 1 {
      forall events | InOrder(events) && From(events, t0)
        ensures Decisions(events) == Reference(events)
      {
        Refines(events);
      }
      forall events, ip, a | InOrder(events) && From(events, t0)
        ensures Capped(Admitted(events, ip), a)
      {
        AtMostTen(events, ip, a);
      }
    } else {
      var run := EleventhAdmitted(t0);
      ElevenWithin(t0);
      assert InOrder(run) && From(run, t0) && !Capped(Admitted(run, 0), t0);
    }
  }

  /** The damage outlasts the minute: after requests in the first two ticks of the clock, the limiter lets a
      request through at exactly 60 seconds that the history forbids. */
  lemma WrongAtSixtySeconds() returns (run: seq<Event>)
    ensures InOrder(run) && run != [] && run[|run| - 1] == Attempt(0, 60_000_000_000)
    ensures Decisions(run) != [] && Reference(run) != [] && Decisions(run)[|Decisions(run)| - 1]
    ensures !Reference(run)[|Reference(run)| - 1]
  {
    hide Pruned, Within, Deques, Admitted, History, Decisions, Reference, InOrder, DequeOf, Ticks;
    var early := EleventhAdmitted(1);
    run := early + [Attempt(0, WINDOW)];
    OneMoreAttempt(early, WINDOW);
    InOrderMore(early, Attempt(0, WINDOW), 1);
    NothingToPrune([2], 0);
    WithinAll(Ticks(MAX, 1), 0, WINDOW);
  }

  lemma {:induction false} PrunedAll(d: seq<Time>, cutoff: Time)
    requires forall i :: 0 <= i < |d| ==> d[i] < cutoff
    ensures Pruned(d, cutoff) == []
  {
    if d != [] { PrunedAll(d[1..], cutoff); }
  }
}
