/** Sorting by a key, relative order inside child lists, and the loop that moves a list of
    entries to the positions 0, 1, 2, ... of one folder. */
module Positions {
  import opened Forests
  import opened ForestOps
  import opened Browsers

  // ---- Stable sort by key ------------------------------------------------------------

  ghost predicate Sorted(s: seq<Id>, key: map<Id, int>) {
    forall i, k :: 0 <= i < k < |s| ==> s[i] in key && s[k] in key && key[s[i]] <= key[s[k]]
  }

  function SortInto(s: seq<Id>, x: Id, key: map<Id, int>): seq<Id>
    requires x in key && forall c :: c in s ==> c in key
  {
    if s != [] && key[x] < key[s[|s| - 1]] then SortInto(s[..|s| - 1], x, key) + [s[|s| - 1]] else s + [x]
  }

  /** Stable: entries with equal keys keep their order. */
  function SortBy(s: seq<Id>, key: map<Id, int>): (r: seq<Id>)
    requires forall c :: c in s ==> c in key
    ensures forall c :: c in r <==> c in s
  {
    if s == [] then [] else
      assert s == s[..|s| - 1] + [s[|s| - 1]];
      var r := SortBy(s[..|s| - 1], key);
      SortIntoMembers(r, s[|s| - 1], key);
      SortInto(r, s[|s| - 1], key)
  }

  lemma {:induction false} SortIntoMembers(s: seq<Id>, x: Id, key: map<Id, int>)
    requires x in key && forall c :: c in s ==> c in key
    ensures forall c :: c in SortInto(s, x, key) <==> c in s || c == x
  {
    if s != [] && key[x] < key[s[|s| - 1]] {
      assert s == s[..|s| - 1] + [s[|s| - 1]];
      SortIntoMembers(s[..|s| - 1], x, key);
    }
  }

  lemma {:induction false} SortIntoSorted(s: seq<Id>, x: Id, key: map<Id, int>)
    requires x in key && forall c :: c in s ==> c in key
    requires Sorted(s, key) && NoDup(s) && x !in s
    ensures Sorted(SortInto(s, x, key), key) && NoDup(SortInto(s, x, key))
  {
    if s != [] && key[x] < key[s[|s| - 1]] {
      var init, last := s[..|s| - 1], s[|s| - 1];
      SortIntoSorted(init, x, key);
      SortIntoMembers(init, x, key);
      var r := SortInto(init, x, key);
      forall i | 0 <= i < |r| ensures r[i] != last && key[r[i]] <= key[last] {
        assert r[i] in r;
      }
    }
  }

  lemma {:induction false} SortBySorted(s: seq<Id>, key: map<Id, int>)
    requires NoDup(s) && forall c :: c in s ==> c in key
    ensures Sorted(SortBy(s, key), key) && NoDup(SortBy(s, key))
  {
    if s != [] {
      SortBySorted(s[..|s| - 1], key);
      SortIntoSorted(SortBy(s[..|s| - 1], key), s[|s| - 1], key);
    }
  }

  lemma SameHead(a: seq<Id>, b: seq<Id>, key: map<Id, int>)
    requires a != [] && b != [] && a[0] in b && b[0] in a
    requires Sorted(a, key) && Sorted(b, key)
    requires forall c, d :: c in a && d in a && c != d ==> c in key && d in key && key[c] != key[d]
    ensures a[0] == b[0]
  {
    var i :| 0 <= i < |b| && b[i] == a[0];
    var k :| 0 <= k < |a| && a[k] == b[0];
  }

  /** Distinct keys leave only one sorted order. */
  lemma {:induction false} SortedUnique(a: seq<Id>, b: seq<Id>, key: map<Id, int>)
    requires NoDup(a) && NoDup(b) && forall c :: c in a <==> c in b
    requires Sorted(a, key) && Sorted(b, key)
    requires forall c, d :: c in a && d in a && c != d ==> c in key && d in key && key[c] != key[d]
    ensures a == b
  {
    assert |b| > 0 ==> b[0] in b;
    if a != [] {
      assert a[0] in a;
      SameHead(a, b, key);
      var x, ta, tb := a[0], a[1..], b[1..];
      assert a == [x] + ta && b == [x] + tb;
      TailNoDup(a);
      TailNoDup(b);
      assert x !in ta && x !in tb;
      forall c ensures c in ta <==> c in tb {
        assert c in [x] + ta <==> c in [x] + tb;
      }
      SortedUnique(ta, tb, key);
    }
  }

  // ---- Relative order --------------------------------------------------------------

  /** The members of `d` stand in `s` in the order of their keys. */
  ghost predicate OrderedOn(s: seq<Id>, d: set<Id>, key: map<Id, int>) {
    forall i, k :: 0 <= i < k < |s| && s[i] in d && s[k] in d ==>
      s[i] in key && s[k] in key && key[s[i]] <= key[s[k]]
  }

  lemma {:induction false} WithoutOrdered(s: seq<Id>, gone: set<Id>, d: set<Id>, key: map<Id, int>)
    requires OrderedOn(s, d, key)
    ensures OrderedOn(Without(s, gone), d, key)
  {
    if s != [] {
      var t := s[1..];
      assert forall i :: 0 <= i < |t| ==> t[i] == s[i + 1];
      assert OrderedOn(t, d, key);
      WithoutOrdered(t, gone, d, key);
      WithoutMembers(t, gone);
      var w := Without(t, gone);
      if s[0] !in gone && s[0] in d {
        forall k | 0 <= k < |w| && w[k] in d ensures s[0] in key && w[k] in key && key[s[0]] <= key[w[k]] {
          assert w[k] in w && w[k] in t;
          var m :| 0 <= m < |t| && t[m] == w[k];
          assert s[m + 1] == w[k];
        }
      }
    }
  }

  // ---- Moving a list of entries to the front of a folder --------------------------------

  lemma PlaceStep(pre: seq<Id>, rest: seq<Id>, e: Id)
    requires NoDup(pre + rest) && e !in pre
    ensures var s := pre + rest;
      if e in s then Pos(s, e) >= |pre| && Insert(Drop(s, e), |pre|, e) == pre + [e] + Without(rest, {e})
      else Insert(s, |pre|, e) == pre + [e] + Without(rest, {e})
  {
    var s := pre + rest;
    if e in s {
      DropIsWithout(s, e);
      WithoutConcat(pre, rest, {e});
      WithoutNone(pre, {e});
    } else {
      WithoutNone(rest, {e});
    }
  }

  /** `g` is `f` after some of the nodes in `s` moved to folder `p`. */
  ghost predicate Rearranged(f: Forest, g: Forest, s: set<Id>, p: Id) {
    Regrouped(f, g, s, p) && RestKept(f, g, Arrived(g, s, p), p)
  }

  ghost predicate Regrouped(f: Forest, g: Forest, s: set<Id>, p: Id) {
    && g.top == f.top && g.info == f.info && g.par.Keys == f.par.Keys && g.kids.Keys == f.kids.Keys
    && (forall c {:trigger g.par[c]} :: c in f.par && c !in s ==> g.par[c] == f.par[c])
    && (forall c {:trigger g.par[c]} :: c in f.par && c in s ==> g.par[c] == f.par[c] || g.par[c] == p)
  }

  /** Folders other than `p` lost exactly the nodes in `gone`. */
  ghost predicate RestKept(f: Forest, g: Forest, gone: set<Id>, p: Id) {
    forall q {:trigger g.kids[q]} :: q in f.kids && q in g.kids && q != p ==> g.kids[q] == Without(f.kids[q], gone)
  }

  ghost function Arrived(g: Forest, s: set<Id>, p: Id): set<Id> {
    set c | c in s && c in g.par && g.par[c] == p
  }

  /** No entry is `p` or one of its ancestors, and every move can be carried out. */
  ghost predicate Placeable(f: Forest, p: Id, entries: seq<Id>) {
    && CanHold(f, p)
    && forall e :: e in entries ==> Ordinary(f, e) && !Under(f.par, p, e)
  }

  ghost function SetOf(s: seq<Id>): set<Id> {
    set c | c in s
  }

  lemma AncestorSet(f: Forest, p: Id) returns (a: set<Id>)
    requires WF(f) && p in f.kids
    ensures p in a && forall y :: y in a && y in f.par ==> f.par[y] in a
    ensures forall y :: y in a ==> Under(f.par, p, y)
  {
    a := set y | y in f.kids && Under(f.par, p, y);
    UnderUnfold(f.par, p, p);
    forall y | y in a && y in f.par ensures f.par[y] in a {
      UnderStep(f.par, p, y);
    }
  }

  lemma UnderStep(par: map<Id, Id>, c: Id, x: Id)
    requires Under(par, c, x) && x in par
    ensures Under(par, c, par[x])
  {
    var n: nat :| Up(par, c, n) == x;
    UpNext(par, c, n);
    assert Up(par, c, n + 1) == par[x];
  }

  lemma {:induction false} UpNext(par: map<Id, Id>, c: Id, n: nat)
    ensures var x := Up(par, c, n); Up(par, c, n + 1) == if x in par then par[x] else x
    decreases n
  {
    if n > 0 { UpNext(par, if c in par then par[c] else c, n - 1); }
  }

  lemma ListStep(l: seq<Id>, cur: seq<Id>, arrived: set<Id>, e: Id)
    requires cur == Without(l, arrived) && NoDup(cur)
    ensures Without(l, arrived + {e}) == if e in cur then Drop(cur, e) else cur
  {
    WithoutTwice(l, arrived, {e});
    if e in cur { DropIsWithout(cur, e); } else { WithoutNone(cur, {e}); }
  }

  lemma RestKeptStep(f: Forest, g: Forest, gone: set<Id>, p: Id, e: Id, i: nat)
    requires WF(g) && g.kids.Keys == f.kids.Keys && RestKept(f, g, gone, p) && MoveAllowed(g, e, p, i)
    ensures RestKept(f, Moved(g, e, p, i), gone + {e}, p)
  {
    hide Without, Pos, Drop, Insert, Landing, Acyclic, Under;
    forall q | q in f.kids && q != p
      ensures Moved(g, e, p, i).kids[q] == Without(f.kids[q], gone + {e})
    {
      ListStep(f.kids[q], g.kids[q], gone, e);
    }
  }

  lemma RegroupedStep(f: Forest, g: Forest, h: Forest, s: set<Id>, p: Id, e: Id)
    requires Regrouped(f, g, s, p) && e in g.par
    requires h.top == g.top && h.info == g.info && h.kids.Keys == g.kids.Keys && h.par == g.par[e := p]
    ensures Regrouped(f, h, s + {e}, p)
    ensures Arrived(h, s + {e}, p) == Arrived(g, s, p) + {e}
  {}

  lemma RearrangedStep(f: Forest, g: Forest, s: set<Id>, p: Id, e: Id, i: nat)
    requires WF(g) && Rearranged(f, g, s, p) && MoveAllowed(g, e, p, i)
    ensures Rearranged(f, Moved(g, e, p, i), s + {e}, p)
  {
    hide Without, Pos, Drop, Insert, Landing, Acyclic, Under, Regrouped, RestKept, Arrived;
    assert g.kids.Keys == f.kids.Keys by { RegroupedKeys(f, g, s, p); }
    RegroupedStep(f, g, Moved(g, e, p, i), s, p, e);
    RestKeptStep(f, g, Arrived(g, s, p), p, e, i);
  }

  lemma RegroupedKeys(f: Forest, g: Forest, s: set<Id>, p: Id)
    requires Regrouped(f, g, s, p)
    ensures g.kids.Keys == f.kids.Keys && g.par.Keys == f.par.Keys && g.top == f.top && g.info == f.info
  {}

  lemma RearrangedSkip(f: Forest, g: Forest, s: set<Id>, p: Id, e: Id)
    requires WF(g) && Rearranged(f, g, s, p) && e in f.par
    ensures Rearranged(f, g, s + {e}, p)
  {
    hide Without, Acyclic;
    if g.par[e] == p {
      assert Arrived(g, s + {e}, p) == Arrived(g, s, p) + {e};
      forall q | q in f.kids && q != p
        ensures g.kids[q] == Without(f.kids[q], Arrived(g, s, p) + {e})
      {
        ListStep(f.kids[q], g.kids[q], Arrived(g, s, p), e);
      }
    } else {
      assert Arrived(g, s + {e}, p) == Arrived(g, s, p);
    }
  }

  lemma RearrangedRefl(f: Forest, p: Id)
    ensures Rearranged(f, f, {}, p)
  {
    assert Arrived(f, {}, p) == {};
    forall q | q in f.kids { WithoutNone(f.kids[q], {}); }
  }

  /** The entries of `pre` stand at the front of folder `p`. */
  ghost predicate Placed(f: Forest, g: Forest, p: Id, pre: seq<Id>) {
    && p in f.kids && p in g.kids
    && g.kids[p] == pre + Without(f.kids[p], SetOf(pre))
    && forall e :: e in pre ==> e in g.par && g.par[e] == p
  }

  ghost predicate BackwardMoves(log0: seq<Call>, log: seq<Call>, p: Id, n: nat) {
    && |log| == |log0| + n
    && forall k :: |log0| <= k < |log| ==>
         log[k].Shift? && log[k].parent == p && (log[k].from == -1 || log[k].index <= log[k].from)
  }

  lemma PrefixSet(entries: seq<Id>, i: nat)
    requires i < |entries|
    ensures entries[..i + 1] == entries[..i] + [entries[i]]
    ensures SetOf(entries[..i + 1]) == SetOf(entries[..i]) + {entries[i]}
  {
    assert entries[..i + 1] == entries[..i] + [entries[i]];
  }

  lemma PrefixFresh(entries: seq<Id>, i: nat)
    requires i < |entries| && NoDup(entries)
    ensures entries[i] !in entries[..i] && entries[i] in entries
    ensures forall c :: c in entries[..i] ==> c in entries
  {}

  lemma StaysOutside(f: Forest, g: Forest, p: Id, s: set<Id>, e: Id, above: set<Id>)
    requires Rearranged(f, g, s, p) && p in above
    requires forall y :: y in above && y in f.par ==> f.par[y] in above
    requires above !! s && e !in above
    ensures !Under(g.par, p, e)
  {
    if Under(g.par, p, e) {
      UnderStaysIn(g.par, p, e, above);
    }
  }

  /** One accepted move puts `e` right after `pre` and keeps the rest in order. */
  lemma PlaceList(g: Forest, p: Id, pre: seq<Id>, rest: seq<Id>, e: Id)
    requires p in g.kids && g.kids[p] == pre + rest && NoDup(pre + rest) && e !in pre
    requires e in g.par && g.par[e] in g.kids && e in g.kids[g.par[e]]
    requires e in g.kids[p] ==> g.par[e] == p
    ensures Moved(g, e, p, |pre|).kids[p] == pre + [e] + Without(rest, {e})
    ensures Place(g, e, p) == -1 || |pre| <= Place(g, e, p)
  {
    PlaceStep(pre, rest, e);
  }

  lemma PlaceAccepted(f: Forest, g: Forest, p: Id, entries: seq<Id>, i: nat, above: set<Id>)
    requires WF(g) && NoDup(entries) && i < |entries|
    requires Rearranged(f, g, SetOf(entries[..i]), p)
    requires Placeable(f, p, entries) && Placed(f, g, p, entries[..i])
    requires p in above && forall y :: y in above && y in f.par ==> f.par[y] in above
    requires forall y :: y in above ==> Under(f.par, p, y)
    ensures MoveAllowed(g, entries[i], p, i)
  {
    PrefixFresh(entries, i);
    StaysOutside(f, g, p, SetOf(entries[..i]), entries[i], above);
  }

  lemma PlaceOne(f: Forest, g: Forest, p: Id, entries: seq<Id>, i: nat)
    requires WF(g) && NoDup(entries) && i < |entries|
    requires MoveAllowed(g, entries[i], p, i) && Placed(f, g, p, entries[..i])
    ensures Placed(f, Moved(g, entries[i], p, i), p, entries[..i + 1])
    ensures Place(g, entries[i], p) == -1 || i <= Place(g, entries[i], p)
  {
    var e, pre := entries[i], entries[..i];
    PrefixFresh(entries, i);
    PrefixSet(entries, i);
    WithoutTwice(f.kids[p], SetOf(pre), {e});
    PlaceList(g, p, pre, Without(f.kids[p], SetOf(pre)), e);
  }

  /** What the move loop knows after `i` entries. */
  ghost predicate PlaceInv(f: Forest, log0: seq<Call>, g: Forest, log: seq<Call>, p: Id, entries: seq<Id>, i: nat)
    requires i <= |entries|
  {
    && Rearranged(f, g, SetOf(entries[..i]), p)
    && (!CanHold(f, p) ==> g == f && log == log0)
    && (Placeable(f, p, entries) ==> Placed(f, g, p, entries[..i]) && BackwardMoves(log0, log, p, i))
  }

  lemma PlaceInvInit(f: Forest, log: seq<Call>, p: Id, entries: seq<Id>)
    ensures PlaceInv(f, log, f, log, p, entries, 0)
  {
    assert SetOf(entries[..0]) == {};
    RearrangedRefl(f, p);
    if p in f.kids { WithoutNone(f.kids[p], {}); }
  }

  lemma PlaceInvMoved(f: Forest, log0: seq<Call>, g: Forest, log: seq<Call>, p: Id, entries: seq<Id>, i: nat)
    requires WF(g) && NoDup(entries) && i < |entries|
    requires PlaceInv(f, log0, g, log, p, entries, i) && MoveAllowed(g, entries[i], p, i)
    ensures PlaceInv(f, log0, Moved(g, entries[i], p, i),
                     log + [Shift(entries[i], p, i, Place(g, entries[i], p))], p, entries, i + 1)
  {
    hide Rearranged, Placed, Moved, Place, WF;
    PrefixFresh(entries, i);
    PrefixSet(entries, i);
    RearrangedStep(f, g, SetOf(entries[..i]), p, entries[i], i);
    if Placeable(f, p, entries) {
      PlaceOne(f, g, p, entries, i);
    }
  }

  lemma PlaceInvRefused(f: Forest, log0: seq<Call>, g: Forest, log: seq<Call>, p: Id, entries: seq<Id>, i: nat,
                        above: set<Id>)
    requires WF(g) && NoDup(entries) && i < |entries| && entries[i] in f.par
    requires PlaceInv(f, log0, g, log, p, entries, i) && !MoveAllowed(g, entries[i], p, i)
    requires p in f.kids ==> p in above && forall y :: y in above && y in f.par ==> f.par[y] in above
    requires forall y :: y in above ==> Under(f.par, p, y)
    ensures PlaceInv(f, log0, g, log, p, entries, i + 1)
  {
    PrefixFresh(entries, i);
    PrefixSet(entries, i);
    RearrangedSkip(f, g, SetOf(entries[..i]), p, entries[i]);
    if Placeable(f, p, entries) {
      PlaceAccepted(f, g, p, entries, i, above);
    }
  }

  lemma PlaceInvDone(f: Forest, log0: seq<Call>, g: Forest, log: seq<Call>, p: Id, entries: seq<Id>)
    requires PlaceInv(f, log0, g, log, p, entries, |entries|)
    ensures Rearranged(f, g, SetOf(entries), p)
    ensures !CanHold(f, p) ==> g == f && log == log0
    ensures Placeable(f, p, entries) ==> Placed(f, g, p, entries) && BackwardMoves(log0, log, p, |entries|)
  {
    assert entries[..|entries|] == entries;
  }

  /** Moves `entries[i]` to index `i` of folder `p`, for i = 0, 1, 2, ... A refused move changes
      nothing. If no entry is `p` or an ancestor of `p`, every move is accepted and is backward or
      null inside the folder, and the folder ends with the entries as its prefix in the given order,
      all other children keeping their relative order. */
  method PlaceEntries(b: Browser, p: Id, entries: seq<Id>)
    requires b.Valid() && NoDup(entries)
    requires forall e :: e in entries ==> e in b.f.par
    modifies b`f, b`log
    ensures b.Valid()
    ensures Rearranged(old(b.f), b.f, SetOf(entries), p)
    ensures !CanHold(old(b.f), p) ==> b.f == old(b.f) && b.log == old(b.log)
    ensures Placeable(old(b.f), p, entries) ==>
      Placed(old(b.f), b.f, p, entries) && BackwardMoves(old(b.log), b.log, p, |entries|)
  {
    hide WF, PlaceInv, Moved, MoveAllowed, Place, Rearranged, Placed, BackwardMoves, Placeable;
    ghost var f0, log0 := b.f, b.log;
    ghost var above := {};
    if p in f0.kids {
      above := AncestorSet(f0, p);
    }
    PlaceInvInit(f0, log0, p, entries);
    var i := 0;
    while i < |entries|
      invariant 0 <= i <= |entries|
      invariant b.Valid()
      invariant PlaceInv(f0, log0, b.f, b.log, p, entries, i)
    {
      ghost var g, log := b.f, b.log;
      var ok := b.Move(entries[i], p, i);
      if ok {
        PlaceInvMoved(f0, log0, g, log, p, entries, i);
      } else {
        PlaceInvRefused(f0, log0, g, log, p, entries, i, above);
      }
      i := i + 1;
    }
    PlaceInvDone(f0, log0, b.f, b.log, p, entries);
  }

  /** Lists a set in some order, as iterating over a JavaScript object does. */
  method Enumerate(s: set<Id>) returns (q: seq<Id>)
    ensures NoDup(q) && SetOf(q) == s
  {
    q := [];
    var todo := s;
    while todo != {}
      invariant NoDup(q) && SetOf(q) == s - todo && todo <= s
    {
      var x :| x in todo;
      todo := todo - {x};
      Appended(q, x);
      assert SetOf(q + [x]) == SetOf(q) + {x};
      q := q + [x];
    }
  }

  lemma {:induction false} CardinalityOf(s: seq<Id>)
    requires NoDup(s)
    ensures |SetOf(s)| == |s|
  {
    if s != [] {
      var n := |s| - 1;
      CardinalityOf(s[..n]);
      assert SetOf(s) == SetOf(s[..n]) + {s[n]};
    }
  }
}
