/** Repeating reconcile passes on an unchanged document. */
module Convergence {
  import opened Forests
  import opened ForestOps
  import opened Positions
  import opened Documents
  import opened RootTables
  import opened ManagedTree
  import opened BridgeSpec
  import opened DeletePhase
  import opened CreatePhase
  import opened PassLemmas
  import opened ReconcileLemmas

  ghost function Levels(doc: Doc): (lev: map<Id, nat>)
    requires Grounded(doc)
    ensures Leveled(doc, lev)
  {
    var lev: map<Id, nat> :| Leveled(doc, lev);
    lev
  }

  /** No entry is deeper than `d`. */
  ghost predicate DepthAtMost(doc: Doc, d: nat)
    requires Grounded(doc)
  {
    forall l :: l in doc ==> Levels(doc)[l] <= d
  }

  /** Consecutive states of a browser between which one pass ran that pruned the document to `doc`. `Passes` has the
      methods that produce such runs. */
  ghost predicate Run(r: Roots, doc: Doc, run: seq<View>) {
    && (forall i :: 0 <= i < |run| ==> WF(run[i].f) && RootsOk(r, run[i].f))
    && (forall i :: 0 <= i < |run| - 1 ==> Reconciles(r, doc, run[i], run[i + 1]))
  }

  /** Entry `l` has a place in the browser, at most `n` levels deep. */
  ghost predicate HasPlace(r: Roots, e: Doc, v: View, l: Id, n: nat) {
    Rooted(r, e, v, KeptEntries(r, e.Keys, v), l, n)
  }

  /** Entry `l` is in its place: it and everything above it, up to a root container at most `n` levels away, is below
      the folder the document names. */
  ghost predicate Seated(r: Roots, e: Doc, v: View, l: Id, n: nat)
    decreases n
  {
    && n > 0 && l in e && RightParent(r, e, v, l)
    && var q := e[l].parentId;
       if IsRoot(q) then q != 0 && q in r.toNative && r.toNative[q] in v.f.par else Seated(r, e, v, q, n - 1)
  }

  ghost predicate Stands(v: View, c: Id, l: Id) {
    c in v.c2l && v.c2l[c] == l
  }

  /** Where the nodes of `a` and `b` are in one folder, they stand in the order of their indices. */
  ghost predicate InOrder(e: Doc, v: View, a: Id, b: Id)
    requires a in e && b in e
  {
    forall p, i, k ::
      p in v.f.kids && 0 <= i < k < |v.f.kids[p]| && Stands(v, v.f.kids[p][i], a) && Stands(v, v.f.kids[p][k], b) ==>
        e[a].index <= e[b].index
  }

  lemma SyncedCovering(r: Roots, doc: Doc, v: View)
    requires WF(v.f) && RootsOk(r, v.f) && Synced(r, doc, v)
    ensures Covering(r, v)
  {
    ManagedIs(r, v.f);
  }

  // ---- A pass keeps the conditions for convergence, in both directions ------------------------------

  lemma SyncedKinds(r: Roots, doc: Doc, v: View)
    requires Synced(r, doc, v)
    ensures SurvivorKinds(r, doc, v) && KindsMatch(doc, v)
  {
    hide Managed, SameInfo, KindsMatch, SurvivorKinds;
    forall l | l in doc ensures SameInfo(doc, v, l) {}
    KindsFromInfo(doc, v);
    KindsSurvive(r, doc, v);
  }

  /** A pass on a well-formed document leaves everything ready for the next one. */
  lemma ReadyAgain(r: Roots, doc: Doc, s: View, t: View)
    requires RootsOk(r, s.f) && RootsOk(r, t.f) && Reconcilable(r, doc, s) && Reconciles(r, doc, s, t)
    ensures Reconcilable(r, doc, t)
  {
    ReconcilableFillable(r, doc, s);
    hide RootsOk, Managed, Grounded, Delivers, Mirrors, SurvivorKinds, OutsideKept, Containers, RootsForNew, Synced,
         Fillable, ValidDoc;
    SyncedKinds(r, doc, t);
    SameRoots(r, doc, {}, s.f, t.f);
  }

  /** And it repairs none of the conditions: what it leaves ready was ready before. */
  lemma ReadyBefore(r: Roots, doc: Doc, s: View, t: View)
    requires RootsOk(r, s.f) && RootsOk(r, t.f) && Reconcilable(r, doc, t) && Reconciles(r, doc, s, t)
    ensures Reconcilable(r, doc, s)
  {
    hide RootsOk, Managed, Grounded, OutsideKept, Containers, RootsForNew, Synced, Fillable, SurvivorsStay, Arranges,
         ValidDoc, Mirrors, CanPlant, KeptKeys,
         SurvivorKinds, Linked;
    SameRoots(r, doc, {}, s.f, t.f);
    KindsBefore(r, doc, s, t);
  }

  lemma KindsBefore(r: Roots, doc: Doc, s: View, t: View)
    requires SurvivorsStay(r, doc, s, t) && SurvivorKinds(r, doc, t)
    requires Linked(t.l2c, t.c2l) && t.c2l.Keys == Managed(r, t.f) && t.l2c.Keys <= doc.Keys
    ensures SurvivorKinds(r, doc, s)
  {
    hide Managed, Survivors;
    AllSurvive(r, doc.Keys, t);
    forall l | l in doc && l in s.l2c && s.l2c[l] in Survivors(r, doc.Keys, s) && s.l2c[l] in s.f.info
      ensures doc[l].url.None? <==> s.f.info[s.l2c[l]].url.None?
    {
      assert l in t.l2c && t.l2c[l] == s.l2c[l];
      assert t.l2c[l] in t.c2l && t.l2c[l] in Survivors(r, doc.Keys, t);
    }
  }

  lemma {:induction false} RunReady(r: Roots, doc: Doc, run: seq<View>, i: nat)
    requires Run(r, doc, run) && i < |run|
    ensures Reconcilable(r, doc, run[i]) <==> Reconcilable(r, doc, run[0])
  {
    hide Reconcilable, Reconciles, WF, RootsOk;
    if i > 0 {
      RunReady(r, doc, run, i - 1);
      assert Reconciles(r, doc, run[i - 1], run[i - 1 + 1]);
      if Reconcilable(r, doc, run[i - 1]) { ReadyAgain(r, doc, run[i - 1], run[i]); }
      if Reconcilable(r, doc, run[i]) { ReadyBefore(r, doc, run[i - 1], run[i]); }
    }
  }

  lemma EntryShown(r: Roots, doc: Doc, v: View, l: Id)
    requires Mirrors(r, doc, v) && l in doc
    ensures Synced(r, doc, v) && RightParent(r, doc, v, l) && SameInfo(doc, v, l)
  {
    hide Managed, Linked, SameInfo;
  }

  /** What is shown has no cycles, and its parents are folders. */
  lemma MirrorsGrounded(r: Roots, doc: Doc, v: View)
    requires WF(v.f) && RootsOk(r, v.f) && Mirrors(r, doc, v) && ParentClosed(doc, {}, doc.Keys)
    ensures Grounded(doc)
  {
    hide RootsOk, Shape, Listed, Grounded, Mirrors, ReachesRoot, ParentClosed;
    var rank :| Ranked(v.f.par, rank);
    GroundedIff(doc);
    forall l | l in doc
      ensures !IsRoot(l) && ReachesRoot(doc, l)
      ensures IsParentRoot(doc[l].parentId) || (doc[l].parentId in doc && doc[doc[l].parentId].url.None?)
    {
      MirrorParent(r, doc, v, l);
      MirrorReaches(r, doc, v, rank, l);
    }
  }

  lemma MirrorParent(r: Roots, doc: Doc, v: View, l: Id)
    requires WF(v.f) && RootsOk(r, v.f) && Mirrors(r, doc, v) && l in doc && ParentClosed(doc, {}, doc.Keys)
    ensures !IsRoot(l) && l in v.l2c && v.l2c[l] in v.f.par
    ensures var q := doc[l].parentId;
      IsParentRoot(q) || (q in doc && doc[q].url.None? && q in v.l2c && v.l2c[q] == v.f.par[v.l2c[l]])
  {
    assert IsRoot(doc[l].parentId) || doc[l].parentId in doc;
    hide Mirrors, Synced, WF, RootsOk, Covering, Native, Managed, Containers, ParentClosed;
    EntryShown(r, doc, v, l);
    SyncedCovering(r, doc, v);
    MappedLink(r, v, l);
    var q := doc[l].parentId;
    if IsRoot(q) {
      NotBelowTop(r, v, v.l2c[l]);
      if q == 0 { TopNative(r, v); }
    } else {
      EntryShown(r, doc, v, q);
      MappedPlace(r, v, q);
      MappedFolder(r, v, q);
      NodeHolds(v.f, v.l2c[q]);
      ParentHolds(v.f, v.l2c[l]);
    }
  }

  lemma NotBelowTop(r: Roots, v: View, c: Id)
    requires Covering(r, v) && c in v.c2l
    ensures c in v.f.par && v.f.par[c] != v.f.top
  {
    MappedNotRoot(r, v, c);
    hide Covering;
  }

  lemma TopNative(r: Roots, v: View)
    requires Covering(r, v)
    ensures Native(r, v.l2c, 0) == v.f.top
  {
    hide WF, IsManaged;
  }

  lemma MappedPlace(r: Roots, v: View, q: Id)
    requires Covering(r, v) && q in v.l2c
    ensures v.l2c[q] in v.f.par && v.l2c[q] != v.f.top
  {
    MappedLink(r, v, q);
    CoveringShape(r, v);
    hide WF, RootsOk, Linked, Containers;
  }

  lemma ParentHolds(f: Forest, c: Id)
    requires WF(f) && c in f.par && f.par[c] != f.top
    ensures CanHold(f, f.par[c])
  {}

  lemma {:induction false} MirrorReaches(r: Roots, doc: Doc, v: View, rank: map<Id, nat>, l: Id)
    requires WF(v.f) && RootsOk(r, v.f) && Mirrors(r, doc, v) && ParentClosed(doc, {}, doc.Keys)
    requires Ranked(v.f.par, rank) && l in doc && l in v.l2c && v.l2c[l] in rank
    ensures ReachesRoot(doc, l)
    decreases rank[v.l2c[l]]
  {
    hide WF, RootsOk, Mirrors, ParentClosed;
    MirrorParent(r, doc, v, l);
    var q := doc[l].parentId;
    if IsParentRoot(q) {
      assert Up(ParentMap(doc), l, 1) == Up(ParentMap(doc), q, 0) == q;
    } else {
      MirrorReaches(r, doc, v, rank, q);
      var n: nat :| IsParentRoot(Up(ParentMap(doc), q, n));
      assert Up(ParentMap(doc), l, n + 1) == Up(ParentMap(doc), q, n);
    }
  }

  /** What shows a document has the roots the document uses and pairs like with like. */
  lemma MirrorsReconcilable(r: Roots, doc: Doc, v: View)
    requires WF(v.f) && RootsOk(r, v.f) && Mirrors(r, doc, v) && ParentClosed(doc, {}, doc.Keys)
    ensures Reconcilable(r, doc, v)
  {
    hide Mirrors, WF, Managed, Grounded, KindsMatch, SurvivorKinds, Covering, RootsOk, Native, Synced, RightParent,
         ParentClosed;
    MirrorsGrounded(r, doc, v);
    MirrorSynced(r, doc, v);
    SyncedCovering(r, doc, v);
    SyncedKinds(r, doc, v);
    forall l | l in doc && IsParentRoot(doc[l].parentId)
      ensures doc[l].parentId in r.toNative && r.toNative[doc[l].parentId] in v.f.par
    {
      EntryShown(r, doc, v, l);
      MirrorRoot(r, doc, v, l);
    }
  }

  /** Where the document is shown already, any order of the pairs will do. */
  lemma MirrorsReady(r: Roots, doc: Doc, v: View, order: seq<Id>)
    requires WF(v.f) && RootsOk(r, v.f) && ParentClosed(doc, {}, doc.Keys) && Mirrors(r, doc, v)
    ensures Reconcilable(r, doc, v) && Synced(r, doc, v) && CleanPurge(r, v, order)
  {
    hide WF, RootsOk, ParentClosed, Reconcilable, CleanPurge, Managed, SameInfo;
    MirrorsReconcilable(r, doc, v);
    CleanAlready(r, v, order);
  }

  lemma MirrorRoot(r: Roots, doc: Doc, v: View, l: Id)
    requires Covering(r, v) && l in doc && RightParent(r, doc, v, l) && IsParentRoot(doc[l].parentId)
    ensures doc[l].parentId in r.toNative && r.toNative[doc[l].parentId] in v.f.par
  {
    hide Covering;
    MappedLink(r, v, l);
    CoveringShape(r, v);
    ParentNode(r, v, v.l2c[l]);
  }

  lemma ParentNode(r: Roots, v: View, c: Id)
    requires Covering(r, v) && c in v.c2l && c in v.f.par
    ensures v.f.par[c] in v.f.par
  {
    hide RootsOk, WF, Linked;
    assert v.f.par[c] in Containers(r, v.f) || v.f.par[c] in v.c2l;
  }

  // ---- When one pass fills in a document --------------------------------------------------------------------

  /** After a pass with a clean purge maps and contents agree with the pruned document exactly when `Fills` held. */
  lemma FilledIff(r: Roots, p: Doc, s: View, t: View)
    requires WF(s.f) && RootsOk(r, s.f) && Reconciles(r, p, s, t)
    ensures Synced(r, p, t) <==> Fills(r, p, s)
  {
    var live := KeptEntries(r, p.Keys, s);
    hide WF, RootsOk, KeptEntries, SurvivorKinds, CanPlant, Reconciles, Synced;
    ReconcilesParts(r, p, s, t);
    if Synced(r, p, t) {
      SyncedKeys(r, p, t);
      SyncedKindsBefore(r, p, s, t);
    }
    if Fills(r, p, s) {
      forall l | l in p ensures SameInfo(p, t, l) {
        if l in live { LiveFilled(r, p, s, t, l); } else { NewInfo(r, p, s, t, l); }
      }
      SyncedFrom(r, p, t);
    }
  }

  lemma ReconcilesParts(r: Roots, p: Doc, s: View, t: View)
    requires Reconciles(r, p, s, t)
    ensures Linked(t.l2c, t.c2l) && t.c2l.Keys == Managed(r, t.f) && t.l2c.Keys <= p.Keys && SurvivorsStay(r, p, s, t)
    ensures var live := KeptEntries(r, p.Keys, s); forall l :: l in t.l2c <==> l in live || CanPlant(r, p, s, live, l)
  {
    OnlySurvivors(r, p.Keys, s);
    hide OutsideKept, Managed, Synced, Mirrors, Grounded, ValidDoc, Fillable, Containers, KeptEntries, KeptKeys,
         SurvivorsStay, Arranges, CanPlant, Linked, SameInfo, RightParent;
  }

  lemma SyncedFrom(r: Roots, p: Doc, t: View)
    requires Linked(t.l2c, t.c2l) && t.l2c.Keys == p.Keys && t.c2l.Keys == Managed(r, t.f)
    requires forall l :: l in p ==> SameInfo(p, t, l)
    ensures Synced(r, p, t)
  {
    hide Managed, SameInfo, Linked;
  }

  lemma LiveFilled(r: Roots, p: Doc, s: View, t: View, l: Id)
    requires WF(s.f) && RootsOk(r, s.f) && Reconciles(r, p, s, t) && SurvivorKinds(r, p, s)
    requires l in p && l in KeptEntries(r, p.Keys, s)
    ensures SameInfo(p, t, l)
  {
    LiveInfo(r, p.Keys, s, l);
    hide WF, RootsOk, Reconciles, Refreshed, Survivors;
    LiveRefreshed(r, p, s, t, l);
    RefreshedSame(s.f.info[s.l2c[l]], p[l]) by { hide Managed; }
  }

  lemma RefreshedSame(i: Info, n: BNode)
    requires n.url.None? <==> i.url.None?
    ensures Refreshed(i, n) == Info(n.title, n.url)
  {}

  // ---- Convergence, entry by entry ----------------------------------------------------------------------

  /** What a pass leaves to the next one: the entries that are mapped survive it. */
  lemma AllLive(r: Roots, e: Doc, s: View, t: View)
    requires Reconciles(r, e, s, t)
    ensures KeptEntries(r, e.Keys, t) == t.l2c.Keys == KeptKeys(r, e.Keys, t, {})
  {
    hide Delivers, OutsideKept, Managed, Synced, Mirrors, Grounded, ValidDoc, Fillable, Containers, Survivors;
    AllSurvive(r, e.Keys, t);
    forall l ensures l in KeptEntries(r, e.Keys, t) <==> l in t.l2c {}
    forall l ensures l in KeptKeys(r, e.Keys, t, {}) <==> l in t.l2c {}
  }

  lemma {:induction false} RootedPlants(r: Roots, e: Doc, v: View, live: set<Id>, l: Id, n: nat)
    requires Rooted(r, e, v, live, l, n) && l !in live
    ensures Plantable(r, e, v, live, l, n)
    decreases n
  {
    var q := e[l].parentId;
    if !IsRoot(q) && q !in live { RootedPlants(r, e, v, live, q, n - 1); }
  }

  lemma OnlySurvivors(r: Roots, keys: set<Id>, s: View)
    ensures KeptKeys(r, keys, s, {}) == KeptEntries(r, keys, s)
  {
    hide Survivors, Managed;
  }

  /** An entry that has a place is mapped after the pass. */
  lemma PlacedMapped(r: Roots, e: Doc, s: View, t: View, l: Id, n: nat)
    requires Reconciles(r, e, s, t) && HasPlace(r, e, s, l, n)
    ensures l in t.l2c
  {
    var live := KeptEntries(r, e.Keys, s);
    OnlySurvivors(r, e.Keys, s);
    hide OutsideKept, Managed, Synced, Mirrors, Grounded, ValidDoc, Fillable, Containers, KeptEntries, KeptKeys,
         SurvivorsStay, Arranges;
    if l !in live {
      RootedPlants(r, e, s, live, l, n);
      assert CanPlant(r, e, s, live, l);
    }
  }

  /** A pass makes no folder of a bookmark and no bookmark of a folder. */
  lemma FolderKept(r: Roots, e: Doc, s: View, t: View, q: Id)
    requires WF(s.f) && RootsOk(r, s.f) && Reconciles(r, e, s, t) && q in e && q in t.l2c
    ensures FolderFor(e, s, KeptEntries(r, e.Keys, s), q) <==> FolderFor(e, t, t.l2c.Keys, q)
  {
    hide WF, RootsOk, Reconciles, Refreshed, KeptEntries;
    if q in KeptEntries(r, e.Keys, s) {
      LiveInfo(r, e.Keys, s, q);
      LiveRefreshed(r, e, s, t, q);
      SameKind(s.f.info[s.l2c[q]], e[q]);
    } else {
      NewInfo(r, e, s, t, q);
    }
  }

  lemma SameKind(i: Info, n: BNode)
    ensures Refreshed(i, n).url.None? <==> i.url.None?
  {}

  lemma LiveRefreshed(r: Roots, e: Doc, s: View, t: View, q: Id)
    requires Reconciles(r, e, s, t) && q in e && q in KeptEntries(r, e.Keys, s) && s.l2c[q] in s.f.info
    ensures q in t.l2c && t.l2c[q] in t.f.info && t.f.info[t.l2c[q]] == Refreshed(s.f.info[s.l2c[q]], e[q])
  {
    hide OutsideKept, Managed, Synced, Mirrors, Grounded, ValidDoc, Fillable, Containers, KeptKeys, Arranges, CanPlant,
         Survivors, Refreshed, Linked;
  }

  lemma NewInfo(r: Roots, e: Doc, s: View, t: View, q: Id)
    requires Reconciles(r, e, s, t) && q in e && q in t.l2c && q !in KeptEntries(r, e.Keys, s)
    ensures t.l2c[q] in t.f.info && t.f.info[t.l2c[q]] == Info(e[q].title, e[q].url)
  {
    OnlySurvivors(r, e.Keys, s);
    hide OutsideKept, Managed, Synced, Mirrors, Grounded, ValidDoc, Fillable, Containers, KeptKeys, Arranges, CanPlant,
         SurvivorsStay, KeptEntries, Linked, RightParent;
    assert SameInfo(e, t, q);
  }

  lemma LiveInfo(r: Roots, keys: set<Id>, s: View, q: Id)
    requires WF(s.f) && RootsOk(r, s.f) && q in KeptEntries(r, keys, s)
    ensures q in s.l2c && s.l2c[q] in s.f.info
  {
    ManagedApart(r, s.f);
    hide Managed, RootsOk, Acyclic, Listed;
  }

  /** A pass neither gives nor takes a place. */
  lemma {:induction false} PlaceKept(r: Roots, e: Doc, s: View, t: View, l: Id, n: nat)
    requires WF(s.f) && RootsOk(r, s.f) && RootsOk(r, t.f) && Reconciles(r, e, s, t)
    ensures HasPlace(r, e, s, l, n) <==> HasPlace(r, e, t, l, n)
    decreases n
  {
    AllLive(r, e, s, t);
    hide KeptEntries, KeptKeys, WF, RootsOk, FolderFor;
    if n > 0 && l in e {
      var q := e[l].parentId;
      if IsRoot(q) {
        SamePlaceRoots(r, e, s, t);
      } else {
        PlaceKept(r, e, s, t, q, n - 1);
        if HasPlace(r, e, s, q, n - 1) {
          PlacedMapped(r, e, s, t, q, n - 1);
          FolderKept(r, e, s, t, q) by { assert q in e; }
        }
      }
    }
  }

  lemma SamePlaceRoots(r: Roots, e: Doc, s: View, t: View)
    requires RootsOk(r, s.f) && RootsOk(r, t.f) && Reconciles(r, e, s, t)
    ensures forall q {:trigger r.toNative[q]} :: q in r.toNative ==>
      (r.toNative[q] in s.f.par <==> r.toNative[q] in t.f.par)
  {
    hide OutsideKept, Managed, Synced, Mirrors, Grounded, ValidDoc, Fillable, Delivers;
    forall q | q in r.toNative ensures r.toNative[q] in s.f.par <==> r.toNative[q] in t.f.par {
      SameContainer(r, s.f, t.f, q);
    }
  }

  /** What is in its place and has one is anchored. */
  lemma {:induction false} SeatedAnchored(r: Roots, e: Doc, v: View, l: Id, n: nat)
    requires Rooted(r, e, v, v.l2c.Keys, l, n)
    requires !IsRoot(e[l].parentId) ==> Seated(r, e, v, e[l].parentId, n - 1)
    ensures Anchored(r, e, v, v.l2c.Keys, v.l2c.Keys, l, n)
    decreases n
  {
    var q := e[l].parentId;
    if !IsRoot(q) { SeatedAnchored(r, e, v, q, n - 1); }
  }

  /** One pass after another: what is above an entry is in place, so the entry gets there too. */
  lemma AnchoredArrives(r: Roots, e: Doc, s: View, t: View, l: Id, n: nat)
    requires RootsOk(r, s.f) && RootsOk(r, t.f) && Reconciles(r, e, s, t) && HasPlace(r, e, s, l, n)
    requires var live := KeptEntries(r, e.Keys, s); Anchored(r, e, s, live, live, l, n)
    ensures RightParent(r, e, t, l)
  {
    var live := KeptEntries(r, e.Keys, s);
    OnlySurvivors(r, e.Keys, s);
    PlacedMapped(r, e, s, t, l, n);
    hide OutsideKept, Managed, Synced, Mirrors, Grounded, ValidDoc, Fillable, Containers, KeptEntries, KeptKeys,
         SurvivorsStay, RootsOk, CanPlant;
    assert HasAnchor(r, e, s, live, live, l);
  }

  lemma {:induction false} SeatedNext(r: Roots, e: Doc, s: View, t: View, l: Id, n: nat)
    requires RootsOk(r, s.f) && RootsOk(r, t.f) && Reconciles(r, e, s, t) && HasPlace(r, e, s, l, n)
    requires KeptEntries(r, e.Keys, s) == s.l2c.Keys
    requires !IsRoot(e[l].parentId) ==> Seated(r, e, s, e[l].parentId, n - 1)
    ensures Seated(r, e, t, l, n)
    decreases n
  {
    hide RootsOk, KeptEntries, Reconciles, RightParent;
    SeatedAnchored(r, e, s, l, n);
    AnchoredArrives(r, e, s, t, l, n);
    SamePlaceRoots(r, e, s, t);
    if !IsRoot(e[l].parentId) { SeatedNext(r, e, s, t, e[l].parentId, n - 1); }
  }

  /** The first level is in place after any pass. */
  lemma SeatedFirst(r: Roots, e: Doc, s: View, t: View, l: Id, n: nat)
    requires RootsOk(r, s.f) && RootsOk(r, t.f) && Reconciles(r, e, s, t) && HasPlace(r, e, s, l, n)
    requires IsRoot(e[l].parentId)
    ensures Seated(r, e, t, l, n)
  {
    hide RootsOk, KeptEntries, Reconciles, RightParent;
    AnchoredArrives(r, e, s, t, l, n);
    SamePlaceRoots(r, e, s, t);
  }

  /** What is in its place after a pass had a place. */
  lemma {:induction false} SeatedRooted(r: Roots, e: Doc, t: View, l: Id, n: nat)
    requires WF(t.f) && RootsOk(r, t.f) && Seated(r, e, t, l, n)
    ensures Rooted(r, e, t, t.l2c.Keys, l, n)
    decreases n
  {
    var q := e[l].parentId;
    if !IsRoot(q) {
      SeatedRooted(r, e, t, q, n - 1);
      FolderAbove(r, e, t, l, q);
    }
  }

  lemma FolderAbove(r: Roots, e: Doc, t: View, l: Id, q: Id)
    requires WF(t.f) && RootsOk(r, t.f) && l in e && q in e && e[l].parentId == q && !IsRoot(q)
    requires RightParent(r, e, t, l) && RightParent(r, e, t, q)
    ensures FolderFor(e, t, t.l2c.Keys, q)
  {
    hide Acyclic, Listed;
    var p := t.f.par[t.l2c[l]];
    assert p == t.l2c[q];
  }

  lemma {:induction false} PlaceInRun(r: Roots, e: Doc, run: seq<View>, i: nat, l: Id, n: nat)
    requires Run(r, e, run) && i < |run|
    ensures HasPlace(r, e, run[i], l, n) <==> HasPlace(r, e, run[0], l, n)
  {
    hide HasPlace, Reconciles, WF, RootsOk;
    if i > 0 {
      PlaceInRun(r, e, run, i - 1, l, n);
      assert Reconciles(r, e, run[i - 1], run[i - 1 + 1]);
      PlaceKept(r, e, run[i - 1], run[i], l, n);
    }
  }

  lemma RunStep(r: Roots, e: Doc, run: seq<View>, i: nat)
    requires Run(r, e, run) && i + 1 < |run|
    ensures WF(run[i].f) && RootsOk(r, run[i].f) && WF(run[i + 1].f) && RootsOk(r, run[i + 1].f)
    ensures Reconciles(r, e, run[i], run[i + 1])
    ensures i > 0 ==> KeptEntries(r, e.Keys, run[i]) == run[i].l2c.Keys == KeptKeys(r, e.Keys, run[i], {})
  {
    hide Reconciles, WF, RootsOk;
    if i > 0 {
      assert Reconciles(r, e, run[i - 1], run[i - 1 + 1]);
      AllLive(r, e, run[i - 1], run[i]);
    }
  }

  /** After `i` passes every entry that has a place at most `i` levels deep is there. */
  lemma {:induction false} Progress(r: Roots, e: Doc, run: seq<View>, i: nat, l: Id, n: nat)
    requires Run(r, e, run) && 1 <= i < |run| && n <= i && HasPlace(r, e, run[0], l, n)
    ensures Seated(r, e, run[i], l, n)
  {
    hide Run, Reconciles, WF, RootsOk, Seated, KeptEntries, KeptKeys;
    RunStep(r, e, run, i - 1);
    PlaceInRun(r, e, run, i - 1, l, n);
    if IsRoot(e[l].parentId) {
      SeatedFirst(r, e, run[i - 1], run[i], l, n);
    } else {
      Progress(r, e, run, i - 1, e[l].parentId, n - 1);
      SeatedNext(r, e, run[i - 1], run[i], l, n);
    }
  }

  /** Convergence, entry by entry, whatever the rest of the document and the first mapping is like: from pass number `n`
      on an entry that is `n` levels deep is in its place if and only if it has one, that is, if its chain of parents
      leads to a root container of the browser and meets no mapped bookmark. */
  lemma EntryExact(r: Roots, e: Doc, run: seq<View>, i: nat, l: Id, n: nat)
    requires Run(r, e, run) && 1 <= i < |run| && n <= i
    ensures Seated(r, e, run[i], l, n) <==> HasPlace(r, e, run[0], l, n)
  {
    if HasPlace(r, e, run[0], l, n) { Progress(r, e, run, i, l, n); }
    hide Reconciles, WF, RootsOk, KeptEntries, KeptKeys;
    if Seated(r, e, run[i], l, n) {
      SeatedRooted(r, e, run[i], l, n);
      assert Reconciles(r, e, run[i - 1], run[i - 1 + 1]);
      AllLive(r, e, run[i - 1], run[i]);
      PlaceInRun(r, e, run, i, l, n);
    }
  }

  /** Once their folder is in place, siblings that were mapped before are in index order after the pass. */
  lemma OrderNext(r: Roots, e: Doc, s: View, t: View, a: Id, b: Id, n: nat)
    requires Reconciles(r, e, s, t) && KeptEntries(r, e.Keys, s) == s.l2c.Keys == KeptKeys(r, e.Keys, s, {})
    requires Rooted(r, e, s, s.l2c.Keys, a, n) && a in s.l2c && b in s.l2c && b in e && e[a].parentId == e[b].parentId
    requires !IsRoot(e[a].parentId) ==> Seated(r, e, s, e[a].parentId, n - 1)
    ensures InOrder(e, t, a, b)
  {
    SeatedAnchored(r, e, s, a, n);
    assert HasAnchor(r, e, s, s.l2c.Keys, s.l2c.Keys, a);
    hide OutsideKept, Managed, Synced, Mirrors, Grounded, ValidDoc, Fillable, Containers, KeptEntries, KeptKeys,
         SurvivorsStay, CanPlant, HasAnchor, Rooted, Anchored, Seated, RightParent;
    forall p, i, k | p in t.f.kids && 0 <= i < k < |t.f.kids[p]| && Stands(t, t.f.kids[p][i], a)
      && Stands(t, t.f.kids[p][k], b)
      ensures e[a].index <= e[b].index
    {
      assert LivePair(e, t, s.l2c.Keys, t.f.kids[p][i], t.f.kids[p][k]);
    }
  }

  /** And from pass max(2, n) on siblings `n` levels deep are in index order. */
  lemma SiblingsExact(r: Roots, e: Doc, run: seq<View>, i: nat, a: Id, b: Id, n: nat)
    requires Run(r, e, run) && 2 <= i < |run| && n <= i
    requires HasPlace(r, e, run[0], a, n) && HasPlace(r, e, run[0], b, n) && e[a].parentId == e[b].parentId
    ensures InOrder(e, run[i], a, b)
  {
    hide Run, Reconciles, WF, RootsOk, Seated, KeptEntries, KeptKeys, InOrder;
    RunStep(r, e, run, i - 1);
    RunStep(r, e, run, i - 2);
    PlaceInRun(r, e, run, i - 1, a, n);
    MappedInRun(r, e, run, i - 2, a, n);
    MappedInRun(r, e, run, i - 2, b, n);
    if !IsRoot(e[a].parentId) { Progress(r, e, run, i - 1, e[a].parentId, n - 1); }
    OrderNext(r, e, run[i - 1], run[i], a, b, n);
  }

  lemma MappedInRun(r: Roots, e: Doc, run: seq<View>, i: nat, l: Id, n: nat)
    requires Run(r, e, run) && i + 1 < |run| && HasPlace(r, e, run[0], l, n)
    ensures l in run[i + 1].l2c && l in e
  {
    hide HasPlace, Run, Reconciles, WF, RootsOk, KeptEntries, KeptKeys;
    PlaceInRun(r, e, run, i, l, n);
    RunStep(r, e, run, i);
    PlacedMapped(r, e, run[i], run[i + 1], l, n);
    PlacedEntry(r, e, run[i], l, n);
  }

  lemma PlacedEntry(r: Roots, e: Doc, v: View, l: Id, n: nat)
    requires HasPlace(r, e, v, l, n)
    ensures l in e
  {}

  // ---- Convergence of the whole document ------------------------------------------------------------------

  /** In a document that can be reconciled every entry has a place. */
  lemma {:induction false} AllPlaced(r: Roots, doc: Doc, v: View, l: Id, n: nat)
    requires Reconcilable(r, doc, v) && WF(v.f) && RootsOk(r, v.f) && l in doc && Levels(doc)[l] <= n
    ensures HasPlace(r, doc, v, l, n)
    decreases n
  {
    assert LevelOk(doc, Levels(doc), l);
    var q := doc[l].parentId;
    if !IsParentRoot(q) {
      assert LevelOk(doc, Levels(doc), q);
      AllPlaced(r, doc, v, q, n - 1);
      if q in KeptEntries(r, doc.Keys, v) { LiveInfo(r, doc.Keys, v, q); }
      hide WF, RootsOk, Survivors, RootsAvailable;
    }
  }

  /** A synced tree in which every entry is in its place and siblings are in order mirrors the document. */
  lemma FullyPlaced(r: Roots, doc: Doc, v: View)
    requires Grounded(doc) && WF(v.f) && RootsOk(r, v.f) && Synced(r, doc, v)
    requires forall l :: l in doc ==> RightParent(r, doc, v, l)
    requires forall a, b :: a in doc && b in doc && doc[a].parentId == doc[b].parentId ==> InOrder(doc, v, a, b)
    ensures Mirrors(r, doc, v)
  {
    hide WF, RootsOk, Synced, Grounded, RightParent;
    forall p, i, k | p in v.f.kids && 0 <= i < k < |v.f.kids[p]| && v.f.kids[p][i] in v.c2l && v.f.kids[p][k] in v.c2l
      ensures v.c2l[v.f.kids[p][i]] in doc && v.c2l[v.f.kids[p][k]] in doc
      ensures doc[v.c2l[v.f.kids[p][i]]].index <= doc[v.c2l[v.f.kids[p][k]]].index
    {
      SiblingPair(r, doc, v, p, v.f.kids[p][i], v.f.kids[p][k]) by {
        assert v.f.kids[p][i] in v.f.kids[p] && v.f.kids[p][k] in v.f.kids[p];
      }
    }
  }

  lemma SiblingPair(r: Roots, doc: Doc, v: View, p: Id, a: Id, b: Id)
    requires Grounded(doc) && WF(v.f) && RootsOk(r, v.f) && Synced(r, doc, v)
    requires forall l :: l in doc ==> RightParent(r, doc, v, l)
    requires p in v.f.kids && a in v.f.kids[p] && b in v.f.kids[p] && a in v.c2l && b in v.c2l
    ensures v.c2l[a] in doc && v.c2l[b] in doc && doc[v.c2l[a]].parentId == doc[v.c2l[b]].parentId
  {
    SyncedCovering(r, doc, v);
    CoveringLinked(r, v);
    ParentsMapped(r, doc, v);
    assert v.f.par[a] == p && v.f.par[b] == p;
    hide WF, RootsOk, Grounded;
    var x, y := v.c2l[a], v.c2l[b];
    assert x in v.l2c && y in v.l2c;
    assert RightParent(r, doc, v, x) && RightParent(r, doc, v, y);
    NativeDistinct(r, v, doc[x].parentId, doc[y].parentId);
  }

  lemma SyncedAfter(r: Roots, doc: Doc, run: seq<View>, i: nat)
    requires Run(r, doc, run) && 1 <= i < |run| && Reconcilable(r, doc, run[0])
    ensures Synced(r, doc, run[i]) && Grounded(doc)
  {
    hide Reconcilable, Grounded, WF, RootsOk, Synced, Fillable, Mirrors, ValidDoc, Delivers, OutsideKept, Managed,
         Containers, Linked;
    RunReady(r, doc, run, i - 1);
    ReconcilableFillable(r, doc, run[i - 1]);
    ReconcilableGrounded(r, doc, run[0]);
    assert Reconciles(r, doc, run[i - 1], run[i - 1 + 1]);
  }

  lemma ReconcilableGrounded(r: Roots, doc: Doc, v: View)
    requires Reconcilable(r, doc, v)
    ensures Grounded(doc)
  {}

  lemma RunShape(r: Roots, doc: Doc, run: seq<View>, i: nat)
    requires Run(r, doc, run) && i < |run|
    ensures WF(run[i].f) && RootsOk(r, run[i].f)
  {}

  lemma SeatedParent(r: Roots, e: Doc, v: View, l: Id, n: nat)
    requires Seated(r, e, v, l, n)
    ensures l in e && RightParent(r, e, v, l)
  {}

  lemma PlacedMirrors(r: Roots, doc: Doc, run: seq<View>, d: nat, i: nat)
    requires Grounded(doc) && DepthAtMost(doc, d) && Run(r, doc, run)
    requires 2 <= i < |run| && d <= i && Reconcilable(r, doc, run[0])
    ensures Mirrors(r, doc, run[i])
  {
    hide Grounded, WF, RootsOk, Synced, Run, Reconcilable, Seated, HasPlace, InOrder, RightParent, Mirrors;
    RunShape(r, doc, run, 0);
    RunShape(r, doc, run, i);
    SyncedAfter(r, doc, run, i);
    forall l | l in doc ensures HasPlace(r, doc, run[0], l, d) && RightParent(r, doc, run[i], l) {
      AllPlaced(r, doc, run[0], l, d);
      Progress(r, doc, run, i, l, d);
      SeatedParent(r, doc, run[i], l, d);
    }
    forall a, b | a in doc && b in doc && doc[a].parentId == doc[b].parentId ensures InOrder(doc, run[i], a, b) {
      SiblingsExact(r, doc, run, i, a, b, d);
    }
    FullyPlaced(r, doc, run[i]);
  }

  /** Convergence: whatever the browser showed at first, from pass number max(2, depth) on the managed tree is the
      document, in shape, contents and order, and if siblings have distinct indices no later pass changes it -- if and
      only if the document has no cycle and no bookmark as a parent, the browser has the root containers the document
      uses, and no surviving pair mixes a bookmark with a folder. */
  lemma ConvergesExactly(r: Roots, doc: Doc, run: seq<View>, d: nat, i: nat)
    requires ParentClosed(doc, {}, doc.Keys) && (Grounded(doc) ==> DepthAtMost(doc, d)) && Run(r, doc, run)
    requires 2 <= i < |run| && d <= i
    ensures Mirrors(r, doc, run[i]) <==> Reconcilable(r, doc, run[0])
    ensures DistinctSiblings(doc) && Mirrors(r, doc, run[i]) && i + 1 < |run| ==> run[i + 1] == run[i]
  {
    hide Grounded, DistinctSiblings, Mirrors, WF, RootsOk, Synced, Run, Reconcilable, Delivers, OutsideKept, Managed,
         Containers, Linked, Fillable, ParentClosed, DepthAtMost;
    RunShape(r, doc, run, i);
    if Mirrors(r, doc, run[i]) {
      MirrorsReconcilable(r, doc, run[i]);
      RunReady(r, doc, run, i);
    }
    if Reconcilable(r, doc, run[0]) {
      ReconcilableGrounded(r, doc, run[0]);
      PlacedMirrors(r, doc, run, d, i);
    }
    if i + 1 < |run| { RunStep(r, doc, run, i); }
  }

  /** A browser whose managed tree was empty needs two passes, however deep the document is, and the root
      containers the document uses. */
  lemma EmptyBrowserConverges(r: Roots, doc: Doc, run: seq<View>, i: nat)
    requires Grounded(doc) && Run(r, doc, run) && 2 <= i < |run|
    requires Managed(r, run[0].f) == {}
    ensures Mirrors(r, doc, run[i]) <==> RootsAvailable(r, doc, run[0].f)
  {
    GroundedClosed(doc, {});
    hide Grounded, WF, RootsOk, Managed, Run, Reconciles, RootsAvailable, Synced, RightParent, ParentClosed;
    assert SurvivorKinds(r, doc, run[0]);
    hide SurvivorKinds;
    RunShape(r, doc, run, i);
    if Mirrors(r, doc, run[i]) {
      MirrorsReconcilable(r, doc, run[i]);
      RunReady(r, doc, run, i);
    }
    if RootsAvailable(r, doc, run[0].f) { EmptyMirrors(r, doc, run, i); }
  }

  lemma EmptyMirrors(r: Roots, doc: Doc, run: seq<View>, i: nat)
    requires Grounded(doc) && Run(r, doc, run) && 2 <= i < |run| && Reconcilable(r, doc, run[0])
    requires Managed(r, run[0].f) == {}
    ensures Mirrors(r, doc, run[i])
  {
    hide Grounded, Synced, WF, RootsOk, Managed, Run, Reconcilable, Seated, HasPlace, InOrder, RightParent, Mirrors,
         Reconciles, KeptEntries, KeptKeys;
    RunShape(r, doc, run, 0);
    RunStep(r, doc, run, i - 1);
    SyncedAfter(r, doc, run, i - 1);
    SyncedAfter(r, doc, run, i);
    forall l | l in doc ensures RightParent(r, doc, run[i], l) {
      EmptySeated(r, doc, run, i, l, Levels(doc)[l]);
      SeatedParent(r, doc, run[i], l, Levels(doc)[l]);
    }
    forall a, b | a in doc && b in doc && doc[a].parentId == doc[b].parentId ensures InOrder(doc, run[i], a, b) {
      EmptyOrder(r, doc, run, i, a, b);
    }
    FullyPlaced(r, doc, run[i]);
  }

  lemma EmptyOrder(r: Roots, doc: Doc, run: seq<View>, i: nat, a: Id, b: Id)
    requires Grounded(doc) && Run(r, doc, run) && 2 <= i < |run| && Reconcilable(r, doc, run[0])
    requires Managed(r, run[0].f) == {} && a in doc && b in doc && doc[a].parentId == doc[b].parentId
    ensures InOrder(doc, run[i], a, b)
  {
    hide WF, RootsOk, Managed, Run, Reconcilable, Seated, RightParent, Reconciles, KeptEntries, KeptKeys, InOrder,
         Synced;
    var n := Levels(doc)[a];
    assert LevelOk(doc, Levels(doc), a);
    RunShape(r, doc, run, 0);
    RunStep(r, doc, run, i - 1);
    SyncedAfter(r, doc, run, i - 1);
    SyncedKeys(r, doc, run[i - 1]);
    AllPlaced(r, doc, run[0], a, n);
    PlaceInRun(r, doc, run, i - 1, a, n);
    if !IsRoot(doc[a].parentId) { EmptySeated(r, doc, run, i - 1, doc[a].parentId, n - 1); }
    OrderNext(r, doc, run[i - 1], run[i], a, b, n);
  }

  /** Nodes that did not exist are created in their place. */
  lemma {:induction false} EmptySeated(r: Roots, doc: Doc, run: seq<View>, i: nat, l: Id, n: nat)
    requires Grounded(doc) && Run(r, doc, run) && 1 <= i < |run| && Reconcilable(r, doc, run[0])
    requires Managed(r, run[0].f) == {} && l in doc && Levels(doc)[l] <= n
    ensures Seated(r, doc, run[i], l, n)
    decreases i, n
  {
    hide WF, RootsOk, Managed, Run, Reconcilable, Reconciles, KeptEntries, KeptKeys, RightParent;
    RunShape(r, doc, run, 0);
    RunStep(r, doc, run, i - 1);
    AllPlaced(r, doc, run[0], l, n);
    PlaceInRun(r, doc, run, i - 1, l, n);
    assert LevelOk(doc, Levels(doc), l);
    var q := doc[l].parentId;
    if IsRoot(q) {
      SeatedFirst(r, doc, run[i - 1], run[i], l, n);
    } else if i > 1 {
      EmptySeated(r, doc, run, i - 1, q, n - 1);
      SeatedNext(r, doc, run[i - 1], run[i], l, n);
    } else {
      EmptySeated(r, doc, run, i, q, n - 1);
      NewInPlace(r, doc, run[0], run[1], l, n);
    }
  }

  lemma NewInPlace(r: Roots, doc: Doc, s: View, t: View, l: Id, n: nat)
    requires Reconciles(r, doc, s, t) && HasPlace(r, doc, s, l, n) && Managed(r, s.f) == {}
    ensures l in doc && RightParent(r, doc, t, l)
  {
    PlacedMapped(r, doc, s, t, l, n);
    assert KeptKeys(r, doc.Keys, s, {}) == {};
    hide OutsideKept, Managed, Synced, Mirrors, Grounded, ValidDoc, Fillable, Containers, KeptKeys, SurvivorsStay,
         Arranges, CanPlant, RightParent, SameInfo;
  }

  // ---- Documents with orphans ---------------------------------------------------------------------------------

  /** Consecutive states between which one pass with a clean purge ran, on any document. */
  ghost predicate PassesOn(r: Roots, doc: Doc, run: seq<View>) {
    && (forall i :: 0 <= i < |run| ==> WF(run[i].f) && RootsOk(r, run[i].f))
    && (forall i :: 0 <= i < |run| - 1 ==> Reconciles(r, Effective(r, doc, run[i]), run[i], run[i + 1]))
  }

  lemma MappedAfter(r: Roots, p: Doc, s: View, t: View)
    requires Reconciles(r, p, s, t)
    ensures MappedManaged(r, t) <= p.Keys
  {
    hide Managed, OutsideKept, Delivers, Synced, Fillable, Mirrors, ValidDoc, Grounded, Linked;
  }

  /** Without orphans nothing is pruned further. */
  lemma EffectiveStays(r: Roots, doc: Doc, s: View, t: View)
    requires Reconciles(r, Effective(r, doc, s), s, t)
    requires ParentClosed(Effective(r, doc, s), {}, Effective(r, doc, s).Keys)
    ensures Effective(r, doc, t) == Effective(r, doc, s)
  {
    hide Reconciles, ParentClosed, Pruned, MappedManaged;
    MappedAfter(r, Effective(r, doc, s), s, t);
    PrunedStays(doc, MappedManaged(r, s), MappedManaged(r, t));
  }

  lemma {:induction false} SettledRun(r: Roots, doc: Doc, run: seq<View>, i: nat)
    requires PassesOn(r, doc, run) && i < |run|
    requires ParentClosed(Effective(r, doc, run[0]), {}, Effective(r, doc, run[0]).Keys)
    ensures Effective(r, doc, run[i]) == Effective(r, doc, run[0])
    ensures Run(r, Effective(r, doc, run[0]), run[..i + 1])
  {
    hide Reconciles, ParentClosed, Effective, WF, RootsOk;
    if i > 0 {
      SettledRun(r, doc, run, i - 1);
      assert Reconciles(r, Effective(r, doc, run[i - 1]), run[i - 1], run[i - 1 + 1]);
      EffectiveStays(r, doc, run[i - 1], run[i]);
      var p, part := Effective(r, doc, run[0]), run[..i + 1];
      forall k | 0 <= k < |part| - 1 ensures Reconciles(r, p, part[k], part[k + 1]) {
        if k < i - 1 { assert Reconciles(r, p, run[..i][k], run[..i][k + 1]); }
      }
    }
  }

  /** Convergence for any document: from the start on the passes bring in what is left of it without its orphans. */
  lemma PrunedConverges(r: Roots, doc: Doc, run: seq<View>, d: nat, i: nat)
    requires PassesOn(r, doc, run) && 2 <= i < |run| && d <= i
    requires ParentClosed(Effective(r, doc, run[0]), {}, Effective(r, doc, run[0]).Keys)
    requires Grounded(Effective(r, doc, run[0])) ==> DepthAtMost(Effective(r, doc, run[0]), d)
    ensures var p := Effective(r, doc, run[0]); Mirrors(r, p, run[i]) <==> Reconcilable(r, p, run[0])
  {
    hide Grounded, Effective, Mirrors, Reconcilable, Run, ParentClosed;
    SettledRun(r, doc, run, i);
    ConvergesExactly(r, Effective(r, doc, run[0]), run[..i + 1], d, i);
  }

  /** The entries that had a place at most `n` levels deep in `s` are there in `t`, and no others are so deep in place.
      */
  ghost predicate EntriesArrived(r: Roots, p: Doc, s: View, t: View, n: nat) {
    forall l :: Seated(r, p, t, l, n) <==> HasPlace(r, p, s, l, n)
  }

  /** Siblings among them are in index order. */
  ghost predicate SiblingsArrived(r: Roots, p: Doc, s: View, t: View, n: nat) {
    forall a, b :: a in p && b in p && p[a].parentId == p[b].parentId ==>
      HasPlace(r, p, s, a, n) && HasPlace(r, p, s, b, n) ==> InOrder(p, t, a, b)
  }

  /** And entry by entry for what is left of any document once no entry of it is an orphan: cycles, missing root
      containers and mixed pairs elsewhere do not keep an entry from its place. */
  lemma PrunedEntries(r: Roots, doc: Doc, run: seq<View>, i: nat, n: nat)
    requires PassesOn(r, doc, run) && 1 <= i < |run| && n <= i
    requires ParentClosed(Effective(r, doc, run[0]), {}, Effective(r, doc, run[0]).Keys)
    ensures EntriesArrived(r, Effective(r, doc, run[0]), run[0], run[i], n)
    ensures i >= 2 ==> SiblingsArrived(r, Effective(r, doc, run[0]), run[0], run[i], n)
  {
    hide ParentClosed, Effective, Run, Seated, HasPlace, InOrder, Reconciles, WF, RootsOk;
    var p := Effective(r, doc, run[0]);
    SettledRun(r, doc, run, i);
    forall l ensures Seated(r, p, run[i], l, n) <==> HasPlace(r, p, run[0], l, n) {
      EntryExact(r, p, run[..i + 1], i, l, n);
    }
    if i >= 2 {
      forall a, b | a in p && b in p && p[a].parentId == p[b].parentId
        && HasPlace(r, p, run[0], a, n) && HasPlace(r, p, run[0], b, n)
        ensures InOrder(p, run[i], a, b)
      {
        SiblingsExact(r, p, run[..i + 1], i, a, b, n);
      }
    }
  }

  lemma EffectiveShrinks(r: Roots, doc: Doc, s: View, t: View)
    requires Reconciles(r, Effective(r, doc, s), s, t)
    ensures Pruned(doc, {}).Keys <= Effective(r, doc, t).Keys <= Effective(r, doc, s).Keys
    ensures Effective(r, doc, t).Keys == Effective(r, doc, s).Keys ==> Effective(r, doc, s) == Pruned(doc, {})
  {
    hide Reconciles, Pruned, MappedManaged;
    MappedAfter(r, Effective(r, doc, s), s, t);
    PrunedShrinks(doc, MappedManaged(r, s), MappedManaged(r, t));
  }

  /** Orphans that an old mapping still shelters go one generation a pass; what stays is the part of the document in
      which every parent is a root or an entry. */
  lemma {:induction false} OrphansGo(r: Roots, doc: Doc, run: seq<View>, i: nat)
    requires PassesOn(r, doc, run) && i < |run|
    ensures Pruned(doc, {}).Keys <= Effective(r, doc, run[i]).Keys
    ensures Effective(r, doc, run[i]) == Pruned(doc, {}) || |Effective(r, doc, run[i]).Keys| + i <= |doc.Keys|
  {
    hide Reconciles, Pruned, WF, RootsOk, MappedManaged;
    PrunedClosed(doc, MappedManaged(r, run[0]));
    if i == 0 {
      PrunedShrinks(doc, doc.Keys, {});
      SubsetSize(Effective(r, doc, run[0]).Keys, doc.Keys);
      CoreLeast(doc, MappedManaged(r, run[0]));
    } else {
      OrphansGo(r, doc, run, i - 1);
      assert Reconciles(r, Effective(r, doc, run[i - 1]), run[i - 1], run[i - 1 + 1]);
      EffectiveShrinks(r, doc, run[i - 1], run[i]);
      var before, after := Effective(r, doc, run[i - 1]), Effective(r, doc, run[i]);
      if after.Keys < before.Keys { ProperSubsetSize(after.Keys, before.Keys); }
      if before == Pruned(doc, {}) {
        SameKeys(doc, MappedManaged(r, run[i]), {});
      }
    }
  }

  lemma CoreLeast(doc: Doc, mapped: set<Id>)
    ensures Pruned(doc, {}).Keys <= Pruned(doc, mapped).Keys
  {
    PrunedClosed(doc, {});
    PrunedClosed(doc, mapped);
    hide Pruned;
    assert ParentClosed(doc, mapped, Pruned(doc, {}).Keys);
  }

  lemma SameKeys(doc: Doc, a: set<Id>, b: set<Id>)
    ensures Pruned(doc, a).Keys == Pruned(doc, b).Keys ==> Pruned(doc, a) == Pruned(doc, b)
  {
    PrunedClosed(doc, a);
    PrunedClosed(doc, b);
    hide Pruned;
  }

  /** After more than |doc| passes the orphans are gone. */
  lemma OrphansGone(r: Roots, doc: Doc, run: seq<View>, k: nat)
    requires PassesOn(r, doc, run) && |doc.Keys| < k < |run|
    ensures Effective(r, doc, run[k]) == Pruned(doc, {}) && PassesOn(r, doc, run[k..])
    ensures ParentClosed(Pruned(doc, {}), {}, Pruned(doc, {}).Keys)
  {
    PrunedClosed(doc, {});
    hide Pruned, Reconciles, WF, RootsOk, Effective;
    OrphansGo(r, doc, run, k);
    var late := run[k..];
    forall m | 0 <= m < |late| - 1 ensures Reconciles(r, Effective(r, doc, late[m]), late[m], late[m + 1]) {
      assert late[m] == run[k + m] && late[m + 1] == run[k + m + 1];
    }
  }

  /** From then on every entry comes to its place if it had one then, ... */
  lemma OrphansEntries(r: Roots, doc: Doc, run: seq<View>, k: nat, i: nat, n: nat)
    requires PassesOn(r, doc, run) && |doc.Keys| < k && k + 2 <= i < |run| && k + n <= i
    ensures EntriesArrived(r, Pruned(doc, {}), run[k], run[i], n)
    ensures SiblingsArrived(r, Pruned(doc, {}), run[k], run[i], n)
  {
    hide Pruned, EntriesArrived, SiblingsArrived, Effective, PassesOn, ParentClosed;
    OrphansGone(r, doc, run, k);
    assert run[k..][0] == run[k] && run[k..][i - k] == run[i];
    PrunedEntries(r, doc, run[k..], i - k, n);
  }

  /** ... and the tree shows that part of the document exactly when it could be reconciled with it. */
  lemma OrphansConverge(r: Roots, doc: Doc, run: seq<View>, d: nat, k: nat, i: nat)
    requires PassesOn(r, doc, run) && (Grounded(Pruned(doc, {})) ==> DepthAtMost(Pruned(doc, {}), d))
    requires |doc.Keys| < k && k + 2 <= i < |run| && k + d <= i
    ensures Mirrors(r, Pruned(doc, {}), run[i]) <==> Reconcilable(r, Pruned(doc, {}), run[k])
  {
    hide Grounded, Pruned, Mirrors, Reconcilable, Effective, PassesOn, ParentClosed;
    OrphansGone(r, doc, run, k);
    assert run[k..][0] == run[k] && run[k..][i - k] == run[i];
    PrunedConverges(r, doc, run[k..], d, i - k);
  }

  // ---- The conditions can fail --------------------------------------------------------------------------------

  /** A document of one entry below a root. */
  lemma OneEntry(l: Id, n: BNode)
    requires !IsRoot(l) && IsParentRoot(n.parentId)
    ensures ValidDoc(map[l := n])
  {
    var doc := map[l := n];
    var lev: map<Id, nat> := map[l := 1];
    assert LevelOk(doc, lev, l);
    assert Leveled(doc, lev);
  }

  /** A browser with one root container and one folder in it. */
  lemma SmallForest() returns (f: Forest)
    ensures f == Forest(0, map[1 := 0, 10 := 1], map[0 := [1], 1 := [10], 10 := []],
      map[1 := Info("bar", None), 10 := Info("folder", None)])
    ensures WF(f) && RootsOk(CHROME_ROOTS, f) && Containers(CHROME_ROOTS, f) == {1}
  {
    f := Forest(0, map[1 := 0, 10 := 1], map[0 := [1], 1 := [10], 10 := []],
      map[1 := Info("bar", None), 10 := Info("folder", None)]);
    var rank: map<Id, nat> := map[0 := 0, 1 := 1, 10 := 2];
    assert Ranked(f.par, rank);
    assert Shape(f) && Listed(f);
    hide CHROME_ROOTS;
    SmallRoots(f);
  }

  lemma SmallRoots(f: Forest)
    requires WF(f) && f.top == 0 && f.par == map[1 := 0, 10 := 1] && 1 in f.kids
    ensures RootsOk(CHROME_ROOTS, f) && Containers(CHROME_ROOTS, f) == {1}
  {
    hide WF, RootsOk;
    assert 0 !in f.par && forall c :: c in f.par && c <= 3 ==> f.par[c] == 0 && c in f.kids;
    IdentityRootsOk(f, CHROME_ROOTS);
  }

  /** A browser without root "3" and a document that uses it: no number of passes shows the document. */
  lemma MissingRoot() returns (f: Forest, doc: Doc)
    ensures WF(f) && RootsOk(CHROME_ROOTS, f) && ValidDoc(doc)
    ensures !RootsAvailable(CHROME_ROOTS, doc, f)
  {
    hide WF, RootsOk, ValidDoc;
    f := SmallForest();
    doc := map[20 := BNode("mobile", Some("u"), 3, 0, Bookmark)];
    OneEntry(20, doc[20]);
    assert doc[20].parentId == 3;
  }

  /** A folder paired with a bookmark entry, both wanted: it survives every deletion and never becomes one. */
  lemma MixedPair() returns (v: View, doc: Doc)
    ensures WF(v.f) && RootsOk(CHROME_ROOTS, v.f) && Linked(v.l2c, v.c2l) && ValidDoc(doc)
    ensures RootsAvailable(CHROME_ROOTS, doc, v.f)
    ensures !SurvivorKinds(CHROME_ROOTS, doc, v)
  {
    hide WF, RootsOk, ValidDoc, Survivors;
    var f := SmallForest();
    v := View(f, map[20 := 10], map[10 := 20]);
    doc := map[20 := BNode("bookmark", Some("u"), 1, 0, Bookmark)];
    OneEntry(20, doc[20]);
    MixedSurvives(v, doc);
    assert doc[20].url.Some? && v.f.info[v.l2c[20]].url.None?;
  }

  lemma MixedSurvives(v: View, doc: Doc)
    requires WF(v.f) && RootsOk(CHROME_ROOTS, v.f) && v.f.par == map[1 := 0, 10 := 1] && v.c2l == map[10 := 20]
    requires doc.Keys == {20}
    requires Containers(CHROME_ROOTS, v.f) == {1}
    ensures 10 in Survivors(CHROME_ROOTS, doc.Keys, v)
  {
    hide WF, RootsOk, Managed, CHROME_ROOTS, WantedUp;
    ManagedIs(CHROME_ROOTS, v.f);
    assert 10 in v.f.par && v.f.par[10] == 1 && 1 in Containers(CHROME_ROOTS, v.f);
    assert 10 in Managed(CHROME_ROOTS, v.f);
    WantedUpStep(CHROME_ROOTS, doc.Keys, v, 10);
  }

  /** One pass shows the entries of this document although a root container it names is missing: the entry that
      names it is a folder the browser has already. No number of passes puts that folder where the document has it. */
  lemma FilledWithoutRoot() returns (v: View, doc: Doc)
    ensures WF(v.f) && RootsOk(CHROME_ROOTS, v.f) && Linked(v.l2c, v.c2l) && ValidDoc(doc)
    ensures Fillable(CHROME_ROOTS, doc, v) && !RootsAvailable(CHROME_ROOTS, doc, v.f)
  {
    hide WF, RootsOk, ValidDoc, Survivors;
    var f := SmallForest();
    v := View(f, map[20 := 10], map[10 := 20]);
    doc := map[20 := BNode("folder", None, 3, 0, Folder)];
    OneEntry(20, doc[20]);
    MixedSurvives(v, doc);
    assert doc[20].parentId == 3;
  }

  /** A browser whose only root container is empty. */
  lemma EmptyBar() returns (f: Forest)
    ensures WF(f) && f.top == 0 && f.par == map[1 := 0] && f.kids.Keys == {0, 1}
  {
    f := Forest(0, map[1 := 0], map[0 := [1], 1 := []], map[1 := Info("bar", None)]);
    var rank: map<Id, nat> := map[0 := 0, 1 := 1];
    assert Ranked(f.par, rank);
    assert Shape(f) && Listed(f);
  }

  /** Beside it a folder 9 that no root table knows, holding the folders 10 and, inside it, 11. */
  lemma UnknownFolder() returns (f: Forest)
    ensures f.top == 0 && f.par == map[1 := 0, 9 := 0, 10 := 9, 11 := 10]
    ensures WF(f) && RootsOk(CHROME_ROOTS, f) && Managed(CHROME_ROOTS, f) == {}
  {
    hide WF, RootsOk, Managed, CHROME_ROOTS;
    var menu, a, b := Info("menu", None), Info("a", None), Info("b", None);
    f := EmptyBar();
    CreatedWF(f, 9, 0, menu);
    f := Created(f, 9, 0, menu);
    CreatedWF(f, 10, 9, a);
    f := Created(f, 10, 9, a);
    CreatedWF(f, 11, 10, b);
    f := Created(f, 11, 10, b);
    UnknownRoots(f);
  }

  lemma UnknownRoots(f: Forest)
    requires WF(f) && f.top == 0 && f.par == map[1 := 0, 9 := 0, 10 := 9, 11 := 10] && 1 in f.kids
    ensures RootsOk(CHROME_ROOTS, f) && Managed(CHROME_ROOTS, f) == {}
  {
    hide WF, RootsOk, Managed, IsManaged;
    assert 0 !in f.par && forall c :: c in f.par && c <= 3 ==> f.par[c] == 0 && c in f.kids;
    IdentityRootsOk(f, CHROME_ROOTS);
    ManagedIs(CHROME_ROOTS, f);
    assert Containers(CHROME_ROOTS, f) == {1};
    NoneManaged(f, Managed(CHROME_ROOTS, f));
  }

  lemma NoneManaged(f: Forest, m: set<Id>)
    requires f.par == map[1 := 0, 9 := 0, 10 := 9, 11 := 10] && IsManaged(f, {1}, m)
    ensures m == {}
  {
    assert 0 !in m && 1 !in m && 9 !in m && 10 !in m && 11 !in m;
  }

  /** A folder directly below the virtual root, mapped by the handler of a creation event, stays mapped for good. */
  lemma MappedTopFolder() returns (v: View)
    ensures WF(v.f) && RootsOk(CHROME_ROOTS, v.f) && Linked(v.l2c, v.c2l) && RootStray(v)
    ensures forall order :: !CleanPurge(CHROME_ROOTS, v, order)
  {
    hide WF, RootsOk, CleanPurge, CHROME_ROOTS, Managed;
    var f := UnknownFolder();
    v := View(f, map[20 := 9], map[9 := 20]);
    assert 9 in v.c2l && 9 in v.f.par && v.f.par[9] == v.f.top;
    forall order ensures !CleanPurge(CHROME_ROOTS, v, order) { RootStrayStays(CHROME_ROOTS, v, order); }
  }

  /** Two folders moved together outside the managed tree: whether the purge forgets both depends on the order of
      their pairs. */
  lemma StrayOrder() returns (v: View)
    ensures WF(v.f) && RootsOk(CHROME_ROOTS, v.f) && Linked(v.l2c, v.c2l) && !RootStray(v)
    ensures SetOf([20, 21]) == SetOf([21, 20]) == v.l2c.Keys
    ensures CleanPurge(CHROME_ROOTS, v, [20, 21]) && !CleanPurge(CHROME_ROOTS, v, [21, 20])
  {
    hide WF, RootsOk, CleanPurge, CHROME_ROOTS, Managed;
    var f := UnknownFolder();
    v := View(f, map[20 := 10, 21 := 11], map[10 := 20, 11 := 21]);
    assert StraysTopDown(CHROME_ROOTS, v, [20, 21]) by { assert [20, 21][..1] == [20]; }
    CleanExact(CHROME_ROOTS, v, [20, 21]);
    assert !StraysTopDown(CHROME_ROOTS, v, [21, 20]) by {
      assert [21, 20][0] == 21 && StrayBelowMapped(CHROME_ROOTS, v, 11);
    }
    CleanExact(CHROME_ROOTS, v, [21, 20]);
  }
}
