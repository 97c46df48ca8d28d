/** The last step of a reconcile pass: folder by folder, entries found in the wrong place or
    order are moved to the front of their folder. */
module Placement {
  import opened Forests
  import opened ForestOps
  import opened Browsers
  import opened Positions

  /** `target` says to which folder each collected entry belongs. */
  ghost predicate PlanOk(f: Forest, byFolder: map<Id, seq<Id>>, key: map<Id, int>, target: map<Id, Id>) {
    && (forall p {:trigger byFolder[p]} :: p in byFolder ==> NoDup(byFolder[p]) && byFolder[p] != [])
    && (forall p, e {:trigger e in byFolder[p]} :: p in byFolder && e in byFolder[p] ==> e in target && target[e] == p)
    && (forall e :: e in target ==> target[e] in byFolder && e in byFolder[target[e]] && e in f.par && e in key)
  }

  function SnapPos(snap: Forest): map<Id, int>
    requires WF(snap)
  {
    map c | c in snap.par :: Pos(snap.kids[snap.par[c]], c)
  }

  // ---- What a run over some folders changes -------------------------------------------

  ghost predicate Reached(f: Forest, g: Forest, target: map<Id, Id>, pending: set<Id>, c: Id)
    requires c in f.par && c in g.par
  {
    g.par[c] == f.par[c] || (c in target && target[c] !in pending && g.par[c] == target[c] && CanHold(f, target[c]))
  }

  ghost predicate Shuffled(f: Forest, g: Forest, target: map<Id, Id>, pending: set<Id>) {
    && g.top == f.top && g.info == f.info && g.par.Keys == f.par.Keys && g.kids.Keys == f.kids.Keys
    && forall c {:trigger g.par[c]} :: c in f.par ==> Reached(f, g, target, pending, c)
  }

  lemma ShuffledStep(f: Forest, g: Forest, h: Forest, target: map<Id, Id>, pending: set<Id>, p: Id, s: set<Id>)
    requires Shuffled(f, g, target, pending) && p in pending
    requires Regrouped(g, h, s, p) && (!CanHold(g, p) ==> h == g)
    requires forall e :: e in s ==> e in target && target[e] == p
    ensures Shuffled(f, h, target, pending - {p})
  {
    forall c | c in f.par ensures Reached(f, h, target, pending - {p}, c) {
      assert Reached(f, g, target, pending, c);
    }
  }

  /** The managed set does not change when entries only move into managed folders or containers. */
  lemma ShuffledManaged(f: Forest, g: Forest, target: map<Id, Id>, pending: set<Id>, cs: set<Id>, m: set<Id>)
    requires Shuffled(f, g, target, pending) && IsManaged(f, cs, m)
    requires forall e :: e in target ==> e in m && (CanHold(f, target[e]) ==> target[e] in cs || target[e] in m)
    ensures IsManaged(g, cs, m)
  {
    forall c | c in g.par ensures c in m <==> g.par[c] in cs || g.par[c] in m {
      assert Reached(f, g, target, pending, c);
    }
  }

  // ---- One folder -----------------------------------------------------------------------

  ghost predicate DistinctKeys(entries: seq<Id>, key: map<Id, int>) {
    forall c, d :: c in entries && d in entries && c != d ==> c in key && d in key && key[c] != key[d]
  }

  /** In the snapshot the entries are children of `p` in key order, with no two keys the same. */
  ghost predicate InPlace(snap: Forest, p: Id, entries: seq<Id>, key: map<Id, int>) {
    && p in snap.kids && DistinctKeys(entries, key)
    && (forall e :: e in entries ==> e in snap.par && snap.par[e] == p)
    && OrderedOn(snap.kids[p], SetOf(entries), key)
  }

  /** Positions inside one folder are distinct. */
  lemma SnapPosDistinct(snap: Forest, p: Id, entries: seq<Id>)
    requires WF(snap) && p in snap.kids
    requires forall e :: e in entries ==> e in snap.par && snap.par[e] == p
    ensures DistinctKeys(entries, SnapPos(snap))
  {
    forall c, d | c in entries && d in entries && c != d
      ensures SnapPos(snap)[c] != SnapPos(snap)[d]
    {
      assert snap.kids[p][Pos(snap.kids[p], c)] == c;
      assert snap.kids[p][Pos(snap.kids[p], d)] == d;
    }
  }

  /** A list sorted by key is also sorted by position when the folder shows it in key order. */
  lemma InPlaceSorted(snap: Forest, p: Id, entries: seq<Id>, sorted: seq<Id>, key: map<Id, int>)
    requires WF(snap) && InPlace(snap, p, entries, key)
    requires NoDup(sorted) && Sorted(sorted, key) && forall c :: c in sorted <==> c in entries
    ensures Sorted(sorted, SnapPos(snap))
  {
    var s, pos := snap.kids[p], SnapPos(snap);
    forall i, k | 0 <= i < k < |sorted|
      ensures sorted[i] in pos && sorted[k] in pos && pos[sorted[i]] <= pos[sorted[k]]
    {
      var a, b := sorted[i], sorted[k];
      assert a in sorted && b in sorted;
      assert s[Pos(s, a)] == a && s[Pos(s, b)] == b;
    }
  }

  lemma InPlaceSkips(snap: Forest, p: Id, entries: seq<Id>, sorted: seq<Id>, key: map<Id, int>)
    requires WF(snap) && InPlace(snap, p, entries, key)
    requires NoDup(sorted) && Sorted(sorted, key) && forall c :: c in sorted <==> c in entries
    requires forall c :: c in sorted ==> c in SnapPos(snap)
    ensures SortBy(sorted, SnapPos(snap)) == sorted
  {
    InPlaceSorted(snap, p, entries, sorted, key);
    SortBySorted(sorted, SnapPos(snap));
    SnapPosDistinct(snap, p, sorted);
    SortedUnique(SortBy(sorted, SnapPos(snap)), sorted, SnapPos(snap));
  }

  /** If sorting by position and by key give the same list, position order is key order. */
  lemma SkippedOrdered(s: seq<Id>, sorted: seq<Id>, key: map<Id, int>, pos: map<Id, int>)
    requires NoDup(sorted) && Sorted(sorted, key) && Sorted(sorted, pos) && NoDup(s)
    requires DistinctKeys(sorted, pos) && OrderedOn(s, SetOf(sorted), pos)
    ensures OrderedOn(s, SetOf(sorted), key)
  {
    forall i, k | 0 <= i < k < |s| && s[i] in SetOf(sorted) && s[k] in SetOf(sorted)
      ensures s[i] in key && s[k] in key && key[s[i]] <= key[s[k]]
    {
      var a :| 0 <= a < |sorted| && sorted[a] == s[i];
      var b :| 0 <= b < |sorted| && sorted[b] == s[k];
      assert s[i] != s[k] && s[i] in sorted && s[k] in sorted;
    }
  }

  lemma PrefixOrdered(sorted: seq<Id>, rest: seq<Id>, key: map<Id, int>)
    requires NoDup(sorted) && Sorted(sorted, key)
    requires forall c :: c in rest ==> c !in sorted
    ensures OrderedOn(sorted + rest, SetOf(sorted), key)
  {
    var s := sorted + rest;
    assert forall m :: |sorted| <= m < |s| ==> s[m] in rest;
    forall i, k | 0 <= i < k < |s| && s[i] in SetOf(sorted) && s[k] in SetOf(sorted)
      ensures s[i] in key && s[k] in key && key[s[i]] <= key[s[k]]
    {
      assert sorted[i] in sorted && sorted[k] in sorted;
    }
  }

  ghost predicate FolderDone(f: Forest, p: Id, entries: seq<Id>) {
    forall e :: e in entries ==> e in f.par && f.par[e] == p
  }

  /** What fixing folder `p` achieves when every move into it can be carried out. */
  ghost predicate FolderFixed(f: Forest, g: Forest, snap: Forest, p: Id, entries: seq<Id>, key: map<Id, int>)
    requires WF(snap)
  {
    Placeable(f, p, entries) ==>
      && ((FolderDone(snap, p, entries) ==> FolderDone(f, p, entries)) ==> FolderDone(g, p, entries))
      && (OrderedOn(f.kids[p], SetOf(entries), SnapPos(snap)) ==>
            p in g.kids && OrderedOn(g.kids[p], SetOf(entries), key))
  }

  /** The snapshot shows the entries below `p` in key order, so position order there is key order. */
  lemma SkippedKept(f: Forest, snap: Forest, p: Id, sorted: seq<Id>, key: map<Id, int>)
    requires WF(snap) && WF(f) && p in f.kids && FolderDone(snap, p, sorted)
    requires NoDup(sorted) && Sorted(sorted, key) && Sorted(sorted, SnapPos(snap))
    requires OrderedOn(f.kids[p], SetOf(sorted), SnapPos(snap))
    ensures OrderedOn(f.kids[p], SetOf(sorted), key)
  {
    if sorted == [] {
      assert SetOf(sorted) == {};
    } else {
      FolderKids(snap, p, sorted[0]) by { assert sorted[0] in sorted; }
      SnapPosDistinct(snap, p, sorted);
      FolderNoDup(f, p);
      hide WF;
      SkippedOrdered(f.kids[p], sorted, key, SnapPos(snap));
    }
  }

  lemma SkippedFixed(f: Forest, snap: Forest, p: Id, entries: seq<Id>, sorted: seq<Id>, key: map<Id, int>)
    requires WF(snap) && WF(f) && FolderDone(snap, p, entries)
    requires NoDup(sorted) && Sorted(sorted, key) && Sorted(sorted, SnapPos(snap))
    requires forall c :: c in sorted <==> c in entries
    ensures FolderFixed(f, f, snap, p, entries, key)
  {
    hide WF, Sorted, OrderedOn;
    assert SetOf(sorted) == SetOf(entries);
    if Placeable(f, p, entries) && OrderedOn(f.kids[p], SetOf(entries), SnapPos(snap)) {
      SkippedKept(f, snap, p, sorted, key);
    }
  }

  lemma FolderKids(f: Forest, p: Id, c: Id)
    requires WF(f) && c in f.par && f.par[c] == p
    ensures p in f.kids
  {}

  lemma FolderNoDup(f: Forest, p: Id)
    requires WF(f) && p in f.kids
    ensures NoDup(f.kids[p])
  {}

  lemma PlacedFixed(f: Forest, g: Forest, snap: Forest, p: Id, entries: seq<Id>, sorted: seq<Id>, key: map<Id, int>)
    requires WF(snap) && (Placeable(f, p, sorted) ==> Placed(f, g, p, sorted))
    requires NoDup(sorted) && Sorted(sorted, key) && forall c :: c in sorted <==> c in entries
    ensures FolderFixed(f, g, snap, p, entries, key)
  {
    assert SetOf(sorted) == SetOf(entries);
    if Placeable(f, p, entries) {
      WithoutMembers(f.kids[p], SetOf(sorted));
      PrefixOrdered(sorted, Without(f.kids[p], SetOf(sorted)), key);
    }
  }

  /** Brings the entries of one folder to its front in key order, unless the snapshot already
      shows them there in that order. */
  method FixFolder(b: Browser, snap: Forest, p: Id, entries: seq<Id>, key: map<Id, int>)
    requires b.Valid() && WF(snap) && NoDup(entries)
    requires forall e :: e in entries ==> e in b.f.par && e in snap.par && e in key
    modifies b`f, b`log
    ensures b.Valid()
    ensures Rearranged(old(b.f), b.f, SetOf(entries), p)
    ensures !CanHold(old(b.f), p) ==> b.f == old(b.f)
    ensures InPlace(snap, p, entries, key) ==> b.f == old(b.f) && b.log == old(b.log)
    ensures FolderFixed(old(b.f), b.f, snap, p, entries, key)
  {
    hide Rearranged, OrderedOn, Placeable, FolderFixed, Placed, BackwardMoves, CanHold, SortBy, InPlace;
    var sorted := SortBy(entries, key);
    SortBySorted(entries, key);
    assert SetOf(sorted) == SetOf(entries);
    var needsMove := exists e :: e in entries && snap.par[e] != p;
    var skip := false;
    if !needsMove {
      var byPosition := SortBy(sorted, SnapPos(snap));
      SortBySorted(sorted, SnapPos(snap));
      skip := byPosition == sorted;
    }
    ghost var f0 := b.f;
    if InPlace(snap, p, entries, key) {
      InPlaceSkips(snap, p, entries, sorted, key);
      assert skip by { InPlaceParents(snap, p, entries, key); }
    }
    if skip {
      RearrangedNothing(f0, SetOf(entries), p);
      SkippedFixed(f0, snap, p, entries, sorted, key);
    } else {
      PlaceEntries(b, p, sorted);
      PlacedFixed(f0, b.f, snap, p, entries, sorted, key);
    }
  }

  lemma InPlaceParents(snap: Forest, p: Id, entries: seq<Id>, key: map<Id, int>)
    requires InPlace(snap, p, entries, key)
    ensures forall e :: e in entries ==> e in snap.par && snap.par[e] == p
  {}

  lemma RearrangedNothing(f: Forest, s: set<Id>, p: Id)
    requires WF(f)
    ensures Rearranged(f, f, s, p)
  {
    forall q | q in f.kids && q != p ensures f.kids[q] == Without(f.kids[q], Arrived(f, s, p)) {
      WithoutNone(f.kids[q], Arrived(f, s, p));
    }
  }

  // ---- All folders ------------------------------------------------------------------------

  /** Every node from `p` upward stays: it is no target, or already where it is aimed. */
  ghost predicate Firm(f: Forest, target: map<Id, Id>, p: Id) {
    forall a :: a in target && a in f.par && Under(f.par, p, a) ==> f.par[a] == target[a]
  }

  ghost predicate OrderedFolder(g: Forest, p: Id, entries: seq<Id>, key: map<Id, int>) {
    p in g.kids && OrderedOn(g.kids[p], SetOf(entries), key)
  }

  /** What processing does for folder `p` with a firm place: all its entries get there, and entries that stood there
      in snapshot order end in key order. */
  ghost predicate Served(f: Forest, g: Forest, snap: Forest, p: Id, entries: seq<Id>, key: map<Id, int>, done: bool)
    requires WF(snap)
  {
    && (done ==> FolderDone(g, p, entries))
    && (p in f.kids && OrderedOn(f.kids[p], SetOf(entries), SnapPos(snap)) ==>
          OrderedFolder(g, p, entries, if done then key else SnapPos(snap)))
  }

  ghost predicate Servable(f: Forest, target: map<Id, Id>, p: Id, entries: seq<Id>) {
    Firm(f, target, p) && CanHold(f, p) && forall e :: e in entries ==> Ordinary(f, e)
  }

  /** All folders with a firm place but the pending ones have been served. */
  ghost predicate AllServed(f: Forest, g: Forest, snap: Forest, byFolder: map<Id, seq<Id>>, key: map<Id, int>,
                            target: map<Id, Id>, pending: set<Id>)
    requires WF(snap)
  {
    forall p {:trigger byFolder[p]} :: p in byFolder && Servable(f, target, p, byFolder[p]) ==>
      Served(f, g, snap, p, byFolder[p], key, p !in pending)
  }

  ghost predicate SameParents(snap: Forest, f: Forest, target: map<Id, Id>) {
    forall e :: e in target ==> e in snap.par && e in f.par && snap.par[e] == f.par[e]
  }

  /** What lies above a firm folder stays there. */
  lemma {:induction false} FirmUp(f: Forest, g: Forest, target: map<Id, Id>, pending: set<Id>, p: Id, a: Id,
                                  rank: map<Id, nat>)
    requires Shape(f) && Firm(f, target, p) && Shuffled(f, g, target, pending) && Ranked(f.par, rank) && p in rank
    ensures Under(g.par, p, a) <==> Under(f.par, p, a)
    decreases rank[p]
  {
    UnderUnfold(f.par, p, a);
    UnderUnfold(g.par, p, a);
    UnderUnfold(f.par, p, p);
    if p in f.par {
      assert Reached(f, g, target, pending, p);
      FirmParent(f, target, p);
      FirmUp(f, g, target, pending, f.par[p], a, rank);
    }
  }

  lemma FirmParent(f: Forest, target: map<Id, Id>, p: Id)
    requires Firm(f, target, p) && p in f.par
    ensures Firm(f, target, f.par[p])
  {
    forall a | a in target && a in f.par && Under(f.par, f.par[p], a) ensures f.par[a] == target[a] {
      UnderUnfold(f.par, p, a);
    }
  }

  lemma {:induction false} UnderRank(f: Forest, p: Id, a: Id, rank: map<Id, nat>)
    requires Shape(f) && Ranked(f.par, rank) && Under(f.par, p, a) && p in rank
    ensures a in rank && rank[a] <= rank[p]
    decreases rank[p]
  {
    UnderUnfold(f.par, p, a);
    if p != a { UnderRank(f, f.par[p], a, rank); }
  }

  /** Moves into a firm folder are never refused. */
  lemma FirmPlaceable(f: Forest, g: Forest, target: map<Id, Id>, pending: set<Id>, p: Id, entries: seq<Id>)
    requires WF(f) && Shuffled(f, g, target, pending) && Servable(f, target, p, entries)
    requires forall e :: e in entries ==> e in target && target[e] == p && e in f.par
    ensures Placeable(g, p, entries)
  {
    var rank :| Ranked(f.par, rank);
    hide Acyclic, Listed;
    forall e | e in entries ensures Ordinary(g, e) && !Under(g.par, p, e) {
      assert Reached(f, g, target, pending, e);
      FirmUp(f, g, target, pending, p, e, rank);
      if Under(f.par, p, e) { UnderRank(f, p, e, rank); }
    }
  }

  lemma PendingParents(snap: Forest, f: Forest, g: Forest, target: map<Id, Id>, pending: set<Id>, p: Id,
                       entries: seq<Id>)
    requires SameParents(snap, f, target) && Shuffled(f, g, target, pending) && p in pending
    requires forall e :: e in entries ==> e in target && target[e] == p
    requires FolderDone(snap, p, entries)
    ensures FolderDone(g, p, entries)
  {
    forall e | e in entries ensures e in g.par && g.par[e] == p { assert Reached(f, g, target, pending, e); }
  }

  lemma OthersStayDone(g: Forest, h: Forest, p: Id, s: set<Id>, q: Id, entries: seq<Id>)
    requires Regrouped(g, h, s, p) && FolderDone(g, q, entries) && forall e :: e in entries ==> e !in s
    ensures FolderDone(h, q, entries)
  {}

  lemma OthersStayOrdered(g: Forest, h: Forest, p: Id, s: set<Id>, q: Id, entries: seq<Id>, key: map<Id, int>)
    requires Rearranged(g, h, s, p) && OrderedFolder(g, q, entries, key) && q != p
    ensures OrderedFolder(h, q, entries, key)
  {
    WithoutOrdered(g.kids[q], Arrived(h, s, p), SetOf(entries), key);
  }

  /** The part of the plan that one folder contributes. */
  lemma PlanFolder(f: Forest, byFolder: map<Id, seq<Id>>, key: map<Id, int>, target: map<Id, Id>, p: Id)
    requires PlanOk(f, byFolder, key, target) && p in byFolder
    ensures NoDup(byFolder[p])
    ensures forall e :: e in byFolder[p] ==> e in target && target[e] == p && e in key && e in f.par
    ensures forall e :: e in SetOf(byFolder[p]) ==> e in target && target[e] == p
    ensures forall q, e :: q in byFolder && q != p && e in byFolder[q] ==> e !in SetOf(byFolder[p])
  {}

  lemma RearrangedParts(g: Forest, h: Forest, s: set<Id>, p: Id)
    requires Rearranged(g, h, s, p)
    ensures Regrouped(g, h, s, p)
  {}

  lemma ServedOther(f: Forest, g: Forest, h: Forest, snap: Forest, p: Id, s: set<Id>, q: Id, entries: seq<Id>,
                    key: map<Id, int>, done: bool)
    requires WF(snap) && Rearranged(g, h, s, p) && q != p && Served(f, g, snap, q, entries, key, done)
    requires forall e :: e in entries ==> e !in s
    ensures Served(f, h, snap, q, entries, key, done)
  {
    RearrangedParts(g, h, s, p);
    hide Rearranged, OrderedFolder, OrderedOn, FolderDone, WF, SnapPos;
    var k := if done then key else SnapPos(snap);
    if done { OthersStayDone(g, h, p, s, q, entries); }
    if OrderedFolder(g, q, entries, k) { OthersStayOrdered(g, h, p, s, q, entries, k); }
  }

  lemma ServedNow(f: Forest, g: Forest, h: Forest, snap: Forest, p: Id, entries: seq<Id>, key: map<Id, int>)
    requires WF(snap) && FolderFixed(g, h, snap, p, entries, key) && Placeable(g, p, entries)
    requires Served(f, g, snap, p, entries, key, false) && (FolderDone(snap, p, entries) ==> FolderDone(g, p, entries))
    ensures Served(f, h, snap, p, entries, key, true)
  {
    hide WF, SnapPos, OrderedOn, FolderDone, Placeable;
  }

  lemma ServedStep(snap: Forest, f: Forest, g: Forest, h: Forest, byFolder: map<Id, seq<Id>>, key: map<Id, int>,
                   target: map<Id, Id>, pending: set<Id>, p: Id)
    requires WF(snap) && WF(f) && PlanOk(f, byFolder, key, target) && SameParents(snap, f, target)
    requires Shuffled(f, g, target, pending) && AllServed(f, g, snap, byFolder, key, target, pending)
    requires p in pending && p in byFolder
    requires Rearranged(g, h, SetOf(byFolder[p]), p) && FolderFixed(g, h, snap, p, byFolder[p], key)
    ensures AllServed(f, h, snap, byFolder, key, target, pending - {p})
  {
    hide PlanOk, Shuffled, Placeable, Rearranged, FolderDone, FolderFixed, SameParents, WF, Servable, Served;
    PlanFolder(f, byFolder, key, target, p);
    forall q | q in byFolder && Servable(f, target, q, byFolder[q])
      ensures Served(f, h, snap, q, byFolder[q], key, q !in pending - {p})
    {
      assert Served(f, g, snap, q, byFolder[q], key, q !in pending);
      if q == p {
        FirmPlaceable(f, g, target, pending, p, byFolder[p]);
        if FolderDone(snap, p, byFolder[p]) { PendingParents(snap, f, g, target, pending, p, byFolder[p]); }
        ServedNow(f, g, h, snap, p, byFolder[p], key);
      } else {
        ServedOther(f, g, h, snap, p, SetOf(byFolder[p]), q, byFolder[q], key, q !in pending);
      }
    }
  }

  lemma NoneServed(f: Forest, snap: Forest, byFolder: map<Id, seq<Id>>, key: map<Id, int>, target: map<Id, Id>)
    requires WF(snap)
    ensures AllServed(f, f, snap, byFolder, key, target, byFolder.Keys)
  {
    hide WF, OrderedOn, FolderDone, SnapPos;
  }

  lemma ListedInOrder(snap: Forest, p: Id, d: set<Id>)
    requires WF(snap) && p in snap.kids
    ensures OrderedOn(snap.kids[p], d, SnapPos(snap))
  {
    var s := snap.kids[p];
    forall i, k | 0 <= i < k < |s|
      ensures s[i] in SnapPos(snap) && s[k] in SnapPos(snap) && SnapPos(snap)[s[i]] < SnapPos(snap)[s[k]]
    {
      assert s[i] in s && s[k] in s;
      PosOfNth(s, i);
      PosOfNth(s, k);
    }
  }

  ghost predicate AllInPlace(snap: Forest, byFolder: map<Id, seq<Id>>, key: map<Id, int>) {
    forall p {:trigger byFolder[p]} :: p in byFolder ==> InPlace(snap, p, byFolder[p], key)
  }

  lemma ShuffledRefl(f: Forest, target: map<Id, Id>, pending: set<Id>)
    ensures Shuffled(f, f, target, pending)
  {}

  /** Folder `q` neither holds nor can receive an entry. */
  ghost predicate Quiet(f: Forest, folders: set<Id>, target: map<Id, Id>, q: Id) {
    q in f.kids && (q !in folders || !CanHold(f, q)) && forall e :: e in target && e in f.par ==> f.par[e] != q
  }

  ghost predicate Untouched(f: Forest, g: Forest, folders: set<Id>, target: map<Id, Id>) {
    forall q {:trigger Quiet(f, folders, target, q)} :: Quiet(f, folders, target, q) ==>
      q in g.kids && g.kids[q] == f.kids[q]
  }

  lemma QuietFolder(f: Forest, folders: set<Id>, target: map<Id, Id>, q: Id, g: Forest, h: Forest, p: Id, s: set<Id>)
    requires WF(f) && Quiet(f, folders, target, q) && q in g.kids && g.kids[q] == f.kids[q]
    requires Rearranged(g, h, s, p) && q != p && forall e :: e in s ==> e in target
    ensures q in h.kids && h.kids[q] == f.kids[q]
  {
    hide Acyclic, Shape;
    var gone := Arrived(h, s, p);
    forall c | c in f.kids[q] ensures c !in gone { assert f.par[c] == q; }
    WithoutNone(f.kids[q], gone);
  }

  lemma UntouchedStep(f: Forest, g: Forest, h: Forest, folders: set<Id>, target: map<Id, Id>, pending: set<Id>, p: Id,
                      s: set<Id>)
    requires WF(f) && Untouched(f, g, folders, target) && Shuffled(f, g, target, pending)
    requires Rearranged(g, h, s, p) && p in folders && (!CanHold(g, p) ==> h == g)
    requires forall e :: e in s ==> e in target
    ensures Untouched(f, h, folders, target)
  {
    hide WF, Rearranged;
    forall q | Quiet(f, folders, target, q) ensures q in h.kids && h.kids[q] == f.kids[q] {
      if q != p { QuietFolder(f, folders, target, q, g, h, p, s); }
    }
  }

  /** Processes the folders in any order. A folder that stands firm ends up with all its entries, those that were there
      before in key order; a tree in which every folder shows its entries in order is not touched. */
  method FixPositions(b: Browser, snap: Forest, byFolder: map<Id, seq<Id>>, key: map<Id, int>,
                      ghost target: map<Id, Id>)
    requires b.Valid() && WF(snap) && PlanOk(b.f, byFolder, key, target) && SameParents(snap, b.f, target)
    modifies b`f, b`log
    ensures b.Valid()
    ensures Shuffled(old(b.f), b.f, target, {}) && Untouched(old(b.f), b.f, byFolder.Keys, target)
    ensures AllServed(old(b.f), b.f, snap, byFolder, key, target, {})
    ensures AllInPlace(snap, byFolder, key) ==> b.f == old(b.f) && b.log == old(b.log)
  {
    hide WF, PlanOk, SameParents, Shuffled, AllServed, InPlace, Rearranged, FolderFixed, CanHold, Untouched;
    ghost var f0, log0 := b.f, b.log;
    ShuffledRefl(f0, target, byFolder.Keys);
    UntouchedRefl(f0, byFolder.Keys, target);
    NoneServed(f0, snap, byFolder, key, target);
    var pending := byFolder.Keys;
    while pending != {}
      invariant b.Valid() && pending <= byFolder.Keys
      invariant Shuffled(f0, b.f, target, pending) && Untouched(f0, b.f, byFolder.Keys, target)
      invariant AllServed(f0, b.f, snap, byFolder, key, target, pending)
      invariant AllInPlace(snap, byFolder, key) ==> b.f == f0 && b.log == log0
    {
      var p :| p in pending;
      ghost var g := b.f;
      PlanFolder(f0, byFolder, key, target, p);
      assert forall e :: e in byFolder[p] ==> e in b.f.par && e in snap.par by {
        PlanNodes(snap, f0, g, target, pending, byFolder[p]);
      }
      FixFolder(b, snap, p, byFolder[p], key);
      RearrangedParts(g, b.f, SetOf(byFolder[p]), p);
      UntouchedStep(f0, g, b.f, byFolder.Keys, target, pending, p, SetOf(byFolder[p]));
      ShuffledStep(f0, g, b.f, target, pending, p, SetOf(byFolder[p]));
      ServedStep(snap, f0, g, b.f, byFolder, key, target, pending, p);
      pending := pending - {p};
    }
  }

  lemma UntouchedRefl(f: Forest, folders: set<Id>, target: map<Id, Id>)
    ensures Untouched(f, f, folders, target)
  {}

  lemma PlanNodes(snap: Forest, f: Forest, g: Forest, target: map<Id, Id>, pending: set<Id>, entries: seq<Id>)
    requires SameParents(snap, f, target) && Shuffled(f, g, target, pending)
    requires forall e :: e in entries ==> e in target
    ensures forall e :: e in entries ==> e in g.par && e in snap.par
  {}

  lemma FolderServed(f: Forest, g: Forest, snap: Forest, byFolder: map<Id, seq<Id>>, key: map<Id, int>,
                     target: map<Id, Id>, p: Id)
    requires WF(snap) && AllServed(f, g, snap, byFolder, key, target, {})
    requires p in byFolder && Servable(f, target, p, byFolder[p])
    ensures forall e :: e in byFolder[p] ==> e in g.par && g.par[e] == p
    ensures p in f.kids && OrderedOn(f.kids[p], SetOf(byFolder[p]), SnapPos(snap)) ==>
      OrderedFolder(g, p, byFolder[p], key)
  {
    hide WF, Servable, OrderedOn;
    assert Served(f, g, snap, p, byFolder[p], key, true);
  }
}
