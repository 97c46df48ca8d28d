/** How the position step of a pass moves the nodes that survive: every folder whose place is firm gets its entries, in
    order, whatever the rest of the document and of the mapping is like. */
module Arranging {
  import opened Forests
  import opened ForestOps
  import opened Positions
  import opened Placement
  import opened Documents
  import opened RootTables
  import opened ManagedTree
  import opened BridgeSpec
  import opened CreatePhase
  import opened ContentPhase
  import opened PassLemmas
  import opened ReconcileLemmas

  /** An anchored entry without a node is planted. */
  lemma {:induction false} AnchoredPlants(r: Roots, e: Doc, v: View, live: set<Id>, kept: set<Id>, l: Id, n: nat)
    requires Anchored(r, e, v, live, kept, l, n) && l !in kept && live <= kept
    ensures Plantable(r, e, v, kept, l, n)
    decreases n
  {
    var q := e[l].parentId;
    if !IsRoot(q) && q !in kept { AnchoredPlants(r, e, v, live, kept, q, n - 1); }
  }

  lemma LiveKept(r: Roots, keys: set<Id>, s: View, stays: set<Id>)
    ensures KeptEntries(r, keys, s) <= KeptKeys(r, keys, s, stays)
  {
    hide Survivors, Managed;
  }

  /** An anchored entry has a node when step 3 starts; if it is no survivor, a new one. */
  lemma AnchoredMapped(r: Roots, x: Stage, l: Id, n: nat)
    requires Begun(r, x) && Stocked(r, x) && Linked(x.s.l2c, x.s.c2l)
    requires var live, kept := KeptEntries(r, x.e.Keys, x.s), KeptKeys(r, x.e.Keys, x.s, x.stays);
      Anchored(r, x.e, x.s, live, kept, l, n) && (l in kept ==> l in live)
    ensures l in x.w.l2c && (l !in KeptEntries(r, x.e.Keys, x.s) ==> l !in x.v.l2c)
  {
    var live, kept := KeptEntries(r, x.e.Keys, x.s), KeptKeys(r, x.e.Keys, x.s, x.stays);
    LiveKept(r, x.e.Keys, x.s, x.stays);
    StageKept(r, x);
    StageGround(r, x);
    StockedKeys(r, x);
    SamePlants(r, x.e, x.s, x.v, kept);
    if l !in kept { AnchoredPlants(r, x.e, x.s, live, kept, l, n); }
    hide Begun, Stocked, Anchored, KeptKeys, KeptEntries, SameGround, Plantable;
    assert l !in kept ==> CanPlant(r, x.e, x.v, kept, l);
  }

  /** A live entry is mapped as before, to a node of the snapshot. */
  lemma LiveNode(r: Roots, x: Stage, l: Id)
    requires Begun(r, x) && Stocked(r, x) && Linked(x.s.l2c, x.s.c2l) && l in KeptEntries(r, x.e.Keys, x.s)
    ensures l in x.s.l2c && l in x.e && l in x.w.l2c && x.w.l2c[l] == x.s.l2c[l]
    ensures var c := x.w.l2c[l];
      && c in x.current && c in x.w.c2l && x.w.c2l[c] == l && Ordinary(x.w.f, c)
      && c in x.w.f.par && c in x.s.f.par && x.w.f.par[c] == x.s.f.par[c]
      && c in x.w.f.info && c in x.s.f.info && x.w.f.info[c] == x.s.f.info[c]
  {
    hide Begun, Stocked, Survivors, Linked;
    SurvivorMapped(r, x, l);
    SnapshotNode(r, x, x.w.l2c[l]);
  }

  /** What step 3 leaves for the position step to work on. */
  ghost predicate Planned(r: Roots, x: Stage, f: Forest, byFolder: map<Id, seq<Id>>, target: map<Id, Id>) {
    && f.par == x.w.f.par && f.kids == x.w.f.kids && f.top == x.w.f.top && WF(f)
    && TargetInv(r, x.e, x.w, x.current, target, {}) && PlanOk(f, byFolder, IndexOf(x.e, x.w.c2l), target)
  }

  /** Where the node of a firm folder hangs: below the folder of its entry's parent. */
  lemma FirmNode(r: Roots, x: Stage, q: Id, n: nat)
    requires Begun(r, x) && Stocked(r, x) && Linked(x.s.l2c, x.s.c2l)
    requires var live, kept := KeptEntries(r, x.e.Keys, x.s), KeptKeys(r, x.e.Keys, x.s, x.stays);
      StandsFirm(r, x.e, x.s, live, kept, q) && Anchored(r, x.e, x.s, live, kept, q, n)
    ensures q in x.w.l2c && x.w.l2c[q] in x.w.c2l && x.w.c2l[x.w.l2c[q]] == q && x.w.l2c[q] in x.w.f.par
    ensures x.w.f.par[x.w.l2c[q]] == Native(r, x.w.l2c, x.e[q].parentId) && CanHold(x.w.f, x.w.l2c[q])
  {
    var live := KeptEntries(r, x.e.Keys, x.s);
    BegunParts(r, x);
    SoundShape(r, x.w);
    if q in live {
      LiveNode(r, x, q);
      if !IsRoot(x.e[q].parentId) {
        LiveNode(r, x, x.e[q].parentId);
        SameFolder(r, x.s.l2c, x.w.l2c, x.e[q].parentId);
      }
      NodeHolds(x.w.f, x.w.l2c[q]);
      hide Begun, Stocked, Anchored, KeptKeys, KeptEntries, WF, RootsOk, Sound, Grown, Managed, Linked, Removed;
    } else {
      AnchoredMapped(r, x, q, n);
      StockedLinked(r, x);
      CreatedFresh(r, x.e, x.v, x.w, q);
      NodeHolds(x.w.f, x.w.l2c[q]);
      hide Begun, Stocked, Anchored, KeptKeys, KeptEntries, WF, RootsOk, Sound, Grown, Managed, Linked, Removed;
    }
  }

  lemma SameFolder(r: Roots, a: map<Id, Id>, b: map<Id, Id>, q: Id)
    requires q in a && q in b && a[q] == b[q]
    ensures Native(r, a, q) == Native(r, b, q)
  {}

  /** The root container is firm. */
  lemma RootFirm(r: Roots, x: Stage, f: Forest, byFolder: map<Id, seq<Id>>, target: map<Id, Id>, q: Id)
    requires Begun(r, x) && Planned(r, x, f, byFolder, target)
    requires IsRoot(q) && q != 0 && q in r.toNative && r.toNative[q] in x.s.f.par
    ensures Native(r, x.w.l2c, q) == r.toNative[q] && Firm(f, target, r.toNative[q]) && CanHold(f, r.toNative[q])
  {
    var p := r.toNative[q];
    BegunFacts(r, x);
    assert p in Containers(r, x.w.f) by { hide Begun, WF, Sound, Planned, Managed, Removed; }
    ContainerNode(r, x.w, p);
    hide Begun, WF, Sound, RootsOk, Managed, Containers, Removed, PlanOk;
    forall a | a in target && a in f.par ensures !Under(f.par, p, a) {
      PlannedAim(r, x.e, x.w, x.current, target, a);
      UnderUnfold(f.par, p, a);
      UnderUnfold(f.par, f.top, a);
    }
  }

  lemma ContainerNode(r: Roots, v: View, p: Id)
    requires Sound(r, v) && p in Containers(r, v.f)
    ensures p in r.ids && p in v.f.par && v.f.par[p] == v.f.top && v.f.top !in v.f.par && CanHold(v.f, p)
  {
    hide Acyclic, Listed;
  }

  /** So is every anchored folder, by induction along its chain of parents. */
  lemma {:induction false} FolderFirm(r: Roots, x: Stage, f: Forest, byFolder: map<Id, seq<Id>>, target: map<Id, Id>,
                                      l: Id, n: nat)
    requires Begun(r, x) && Stocked(r, x) && Linked(x.s.l2c, x.s.c2l) && Planned(r, x, f, byFolder, target)
    requires var live, kept := KeptEntries(r, x.e.Keys, x.s), KeptKeys(r, x.e.Keys, x.s, x.stays);
      Anchored(r, x.e, x.s, live, kept, l, n)
    ensures l in x.e && (IsRoot(x.e[l].parentId) || x.e[l].parentId in x.w.l2c)
    ensures var p := Native(r, x.w.l2c, x.e[l].parentId); Firm(f, target, p) && CanHold(f, p)
    decreases n
  {
    var q := x.e[l].parentId;
    if IsRoot(q) {
      RootFirm(r, x, f, byFolder, target, q);
    } else {
      FolderFirm(r, x, f, byFolder, target, q, n - 1);
      FirmNode(r, x, q, n - 1);
      var p := x.w.l2c[q];
      FolderNode(r, x, q);
      hide Begun, Stocked, Anchored, StandsFirm, KeptKeys, KeptEntries, Linked, PlanOk, WF, Native;
      forall a | a in target && a in f.par && Under(f.par, p, a) ensures f.par[a] == target[a] {
        PlannedAim(r, x.e, x.w, x.current, target, a);
        UnderUnfold(f.par, p, a);
      }
    }
  }

  lemma FolderNode(r: Roots, x: Stage, q: Id)
    requires Begun(r, x) && q in x.w.l2c
    ensures Native(r, x.w.l2c, q) == x.w.l2c[q]
  {
    BegunFacts(r, x);
    SoundShape(r, x.w);
    MappedNative(r, x.w, q);
  }

  /** The children of a folder that were there before stand in the order of the snapshot. */
  lemma StageKids(r: Roots, x: Stage, p: Id, d: set<Id>)
    requires Begun(r, x) && p in x.w.f.kids && d <= x.current && d <= x.w.c2l.Keys
    ensures OrderedOn(x.w.f.kids[p], d, SnapPos(x.s.f))
  {
    hide Begun, WF, RootsOk, Managed, Sound, Grown, SnapPos, Removed, Containers;
    BegunParts(r, x);
    var s := x.w.f.kids[p];
    forall i, k | 0 <= i < k < |s| && s[i] in d && s[k] in d
      ensures s[i] in SnapPos(x.s.f) && s[k] in SnapPos(x.s.f) && SnapPos(x.s.f)[s[i]] <= SnapPos(x.s.f)[s[k]]
    {
      OldChild(r, x, p, i);
      OldChild(r, x, p, k);
      KeptOrder(x.s.f, x.deleted, p, i, k);
    }
  }

  lemma OldChild(r: Roots, x: Stage, p: Id, i: nat)
    requires Begun(r, x) && p in x.w.f.kids && i < |x.w.f.kids[p]|
    requires x.w.f.kids[p][i] in x.current && x.w.f.kids[p][i] in x.w.c2l
    ensures p in x.v.f.kids && i < |x.v.f.kids[p]| && x.v.f.kids[p][i] == x.w.f.kids[p][i]
  {
    hide Begun, WF, RootsOk, Managed, Grown, Removed, Containers, Sound;
    var c := x.w.f.kids[p][i];
    BegunParts(r, x);
    SoundShape(r, x.w);
    ChildOf(x.w.f, p, i);
    OldParent(r, x, c);
    var k :| 0 <= k < |x.v.f.kids[p]| && x.v.f.kids[p][k] == c;
    KidsGrow(r, x, p);
    assert x.w.f.kids[p][k] == c;
    FolderNoDup(x.w.f, p);
  }

  lemma KidsGrow(r: Roots, x: Stage, p: Id)
    requires Begun(r, x) && p in x.v.f.kids
    ensures p in x.w.f.kids && x.v.f.kids[p] <= x.w.f.kids[p]
  {
    hide WF, RootsOk, Managed, Sound, Removed, Containers, FreshNode;
  }

  lemma OldParent(r: Roots, x: Stage, c: Id)
    requires Begun(r, x) && c in x.current && c in x.w.c2l
    ensures c in x.v.f.par && c in x.w.f.par && x.v.f.par[c] == x.w.f.par[c] && x.v.f.par[c] in x.v.f.kids
    ensures c in x.v.f.kids[x.v.f.par[c]]
  {
    BegunParts(r, x);
    SnapshotNode(r, x, c);
    hide Begun, RootsOk, Managed, Sound, Acyclic;
    assert c in x.v.f.par;
  }

  lemma ChildOf(f: Forest, p: Id, i: nat)
    requires WF(f) && p in f.kids && i < |f.kids[p]|
    ensures f.kids[p][i] in f.par && f.par[f.kids[p][i]] == p
  {
    assert f.kids[p][i] in f.kids[p];
  }

  /** Removing nodes keeps the order of the others. */
  lemma KeptOrder(f: Forest, gone: set<Id>, p: Id, i: nat, k: nat)
    requires WF(f) && p in Removed(f, gone).kids && i < k < |Removed(f, gone).kids[p]|
    ensures var s := Removed(f, gone).kids[p];
      s[i] in SnapPos(f) && s[k] in SnapPos(f) && SnapPos(f)[s[i]] <= SnapPos(f)[s[k]]
  {
    var d := SetOf(f.kids[p]);
    ListedInOrder(f, p, d);
    WithoutOrdered(f.kids[p], gone, d, SnapPos(f));
    WithoutMembers(f.kids[p], gone);
    var s := Removed(f, gone).kids[p];
    assert s[i] in s && s[k] in s;
    hide WF, SnapPos;
  }

  /** The folder of an anchored entry is served. */
  lemma AnchoredServed(r: Roots, x: Stage, f: Forest, g: Forest, byFolder: map<Id, seq<Id>>, target: map<Id, Id>,
                       l: Id, n: nat)
    requires Begun(r, x) && Stocked(r, x) && Linked(x.s.l2c, x.s.c2l) && Planned(r, x, f, byFolder, target)
    requires AllServed(f, g, x.s.f, byFolder, IndexOf(x.e, x.w.c2l), target, {})
    requires var live, kept := KeptEntries(r, x.e.Keys, x.s), KeptKeys(r, x.e.Keys, x.s, x.stays);
      l in live && Anchored(r, x.e, x.s, live, kept, l, n)
    ensures var p := Native(r, x.w.l2c, x.e[l].parentId);
      && p in byFolder && x.w.l2c[l] in byFolder[p]
      && x.w.l2c[l] in g.par && g.par[x.w.l2c[l]] == p
      && OrderedFolder(g, p, byFolder[p], IndexOf(x.e, x.w.c2l))
  {
    LiveNode(r, x, l);
    FolderFirm(r, x, f, byFolder, target, l, n);
    BegunFacts(r, x);
    var c, p := x.w.l2c[l], Native(r, x.w.l2c, x.e[l].parentId);
    hide Begun, Stocked, Anchored, KeptKeys, KeptEntries, Linked, WF, Native, Sound, RootsOk, Managed, Removed,
         Containers, AllServed, Firm, IndexOf, OrderedFolder, OrderedOn, SnapPos;
    assert Collected(x.e, x.w, x.current, {}, c);
    assert c in target && target[c] == p;
    forall e | e in byFolder[p] ensures Ordinary(f, e) && e in x.current && e in x.w.c2l {
      PlannedAim(r, x.e, x.w, x.current, target, e);
      SnapshotNode(r, x, e);
    }
    StageKids(r, x, p, SetOf(byFolder[p]));
    FolderServed(f, g, x.s.f, byFolder, IndexOf(x.e, x.w.c2l), target, p);
  }

  lemma AnchoredPlaced(r: Roots, x: Stage, f: Forest, g: Forest, byFolder: map<Id, seq<Id>>, target: map<Id, Id>, l: Id)
    requires Begun(r, x) && Stocked(r, x) && Linked(x.s.l2c, x.s.c2l) && Planned(r, x, f, byFolder, target)
    requires AllServed(f, g, x.s.f, byFolder, IndexOf(x.e, x.w.c2l), target, {})
    requires var live, kept := KeptEntries(r, x.e.Keys, x.s), KeptKeys(r, x.e.Keys, x.s, x.stays);
      l in live && HasAnchor(r, x.e, x.s, live, kept, l)
    ensures l in x.e && l in x.w.l2c
    ensures var p := Native(r, x.w.l2c, x.e[l].parentId);
      && p in byFolder && x.w.l2c[l] in byFolder[p]
      && x.w.l2c[l] in g.par && g.par[x.w.l2c[l]] == p
      && OrderedFolder(g, p, byFolder[p], IndexOf(x.e, x.w.c2l))
  {
    var live, kept := KeptEntries(r, x.e.Keys, x.s), KeptKeys(r, x.e.Keys, x.s, x.stays);
    hide Begun, Stocked, KeptEntries, KeptKeys, Planned, AllServed, Anchored, OrderedFolder, Native;
    LiveNode(r, x, l);
    var n: nat :| Anchored(r, x.e, x.s, live, kept, l, n);
    AnchoredServed(r, x, f, g, byFolder, target, l, n);
  }

  lemma LiveMoved(r: Roots, x: Stage, f: Forest, g: Forest, byFolder: map<Id, seq<Id>>, target: map<Id, Id>, l: Id)
    requires Begun(r, x) && Stocked(r, x) && Linked(x.s.l2c, x.s.c2l) && Planned(r, x, f, byFolder, target)
    requires Shuffled(f, g, target, {}) && l in KeptEntries(r, x.e.Keys, x.s) && l in x.e
    ensures StayedOrArrived(r, x.e, x.s, View(g, x.w.l2c, x.w.c2l), l)
  {
    hide Begun, Stocked, KeptEntries, Linked, WF, Native, PlanOk;
    LiveNode(r, x, l);
    var c := x.w.l2c[l];
    assert Reached(f, g, target, {}, c);
    if c in target { PlannedAim(r, x.e, x.w, x.current, target, c); }
  }

  /** What the position step does in every pass. */
  lemma ArrangesDone(r: Roots, x: Stage, f: Forest, g: Forest, byFolder: map<Id, seq<Id>>, target: map<Id, Id>)
    requires Begun(r, x) && Stocked(r, x) && Linked(x.s.l2c, x.s.c2l) && Planned(r, x, f, byFolder, target) && WF(g)
    requires AllServed(f, g, x.s.f, byFolder, IndexOf(x.e, x.w.c2l), target, {}) && Shuffled(f, g, target, {})
    ensures Arranges(r, x.e, x.s, x.stays, View(g, x.w.l2c, x.w.c2l))
  {
    hide Begun, Stocked, KeptEntries, KeptKeys, Planned, AllServed, HasAnchor, OrderedFolder, Native, WF,
         Shuffled, StayedOrArrived, RootsOk, Sound, Managed, Removed, Containers, Linked, IndexOf;
    var live, kept := KeptEntries(r, x.e.Keys, x.s), KeptKeys(r, x.e.Keys, x.s, x.stays);
    var t := View(g, x.w.l2c, x.w.c2l);
    BegunFacts(r, x);
    forall l | l in x.e && l in live ensures StayedOrArrived(r, x.e, x.s, t, l) {
      LiveMoved(r, x, f, g, byFolder, target, l);
    }
    forall l | l in x.e && l in live && HasAnchor(r, x.e, x.s, live, kept, l) ensures RightParent(r, x.e, t, l) {
      AnchoredPlaced(r, x, f, g, byFolder, target, l);
    }
    forall p, i, k | p in g.kids && 0 <= i < k < |g.kids[p]| && LivePair(x.e, t, live, g.kids[p][i], g.kids[p][k])
      && HasAnchor(r, x.e, x.s, live, kept, t.c2l[g.kids[p][i]])
      ensures x.e[t.c2l[g.kids[p][i]]].index <= x.e[t.c2l[g.kids[p][k]]].index
    {
      PairArranged(r, x, f, g, byFolder, target, p, i, k);
    }
  }

  lemma PairArranged(r: Roots, x: Stage, f: Forest, g: Forest, byFolder: map<Id, seq<Id>>, target: map<Id, Id>, p: Id,
                     i: nat, k: nat)
    requires Begun(r, x) && Stocked(r, x) && Linked(x.s.l2c, x.s.c2l) && Planned(r, x, f, byFolder, target) && WF(g)
    requires AllServed(f, g, x.s.f, byFolder, IndexOf(x.e, x.w.c2l), target, {})
    requires p in g.kids && i < k < |g.kids[p]|
    requires var live, kept := KeptEntries(r, x.e.Keys, x.s), KeptKeys(r, x.e.Keys, x.s, x.stays);
      var t := View(g, x.w.l2c, x.w.c2l);
      LivePair(x.e, t, live, g.kids[p][i], g.kids[p][k])
      && HasAnchor(r, x.e, x.s, live, kept, t.c2l[g.kids[p][i]])
    ensures x.e[x.w.c2l[g.kids[p][i]]].index <= x.e[x.w.c2l[g.kids[p][k]]].index
  {
    var a, b := g.kids[p][i], g.kids[p][k];
    ChildOf(g, p, i);
    BegunFacts(r, x);
    SoundShape(r, x.w);
    assert x.w.l2c[x.w.c2l[a]] == a && x.w.l2c[x.w.c2l[b]] == b by { hide Begun, Stocked; }
    hide Begun, Stocked, KeptEntries, KeptKeys, Planned, AllServed, HasAnchor, Native, WF, RootsOk, Sound, Managed,
         Removed, Containers, Linked;
    AnchoredPlaced(r, x, f, g, byFolder, target, x.w.c2l[a]);
    PairPlanned(r, x, f, byFolder, target, x.w.c2l[b]);
    assert a in SetOf(byFolder[p]) && b in SetOf(byFolder[p]);
  }

  /** A live entry with the same parent is in the same group. */
  lemma PairPlanned(r: Roots, x: Stage, f: Forest, byFolder: map<Id, seq<Id>>, target: map<Id, Id>, l: Id)
    requires Begun(r, x) && Stocked(r, x) && Linked(x.s.l2c, x.s.c2l) && Planned(r, x, f, byFolder, target)
    requires l in KeptEntries(r, x.e.Keys, x.s) && l in x.e
    requires IsRoot(x.e[l].parentId) || x.e[l].parentId in x.w.l2c
    ensures var p := Native(r, x.w.l2c, x.e[l].parentId); p in byFolder && x.w.l2c[l] in byFolder[p]
  {
    LiveNode(r, x, l);
    hide Begun, Stocked, KeptEntries, Linked, WF, Native;
    assert Collected(x.e, x.w, x.current, {}, x.w.l2c[l]);
  }
}
