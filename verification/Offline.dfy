/** Changes made to the browser's bookmarks while nothing was listening: what is counted, and that
    nothing is counted exactly when the two sides agree. */
module OfflineChanges {
  import opened Forests
  import opened ForestOps
  import opened Positions
  import opened Documents
  import opened RootTables
  import opened ManagedTree
  import opened BridgeSpec
  import opened Browsers
  import opened DeletePhase
  import opened CreatePhase
  import opened PassLemmas
  import opened Convergence
  import opened Capture
  import opened LocalMerge

  /** Managed nodes without an entry. */
  ghost function AddedNodes(m: set<Id>, v: View): set<Id> {
    set c | c in m && c !in v.c2l
  }

  /** Mapped entries without a managed node. */
  ghost function RemovedEntries(m: set<Id>, v: View): set<Id> {
    set l | l in v.l2c && v.l2c[l] !in m
  }

  ghost predicate Comparable(m: set<Id>, doc: Doc, v: View, l: Id) {
    l in doc && l in v.l2c && v.l2c[l] in m && Listable(v.f, v.l2c[l])
  }

  /** Title, URL and parent agree; positions are compared per folder. */
  ghost predicate Unchanged(r: Roots, m: set<Id>, doc: Doc, v: View, l: Id) {
    && Comparable(m, doc, v, l)
    && var n := ToNode(r, v.f, v.c2l, v.l2c[l]);
       n.title == doc[l].title && n.url == doc[l].url && n.parentId == doc[l].parentId
  }

  ghost function UnchangedEntries(r: Roots, m: set<Id>, doc: Doc, v: View): set<Id> {
    set l | l in doc && Unchanged(r, m, doc, v, l)
  }

  ghost function ModifiedEntries(r: Roots, m: set<Id>, doc: Doc, v: View): set<Id> {
    set l | l in doc && Comparable(m, doc, v, l) && !Unchanged(r, m, doc, v, l)
  }

  /** The browser's position of a node; 0 when it reports none. */
  function PlaceOf(f: Forest, c: Id): int {
    if c in f.par && f.par[c] in f.kids && c in f.kids[f.par[c]] then Pos(f.kids[f.par[c]], c) else 0
  }

  function PlaceKey(doc: Doc, v: View): map<Id, int> {
    map l | l in doc && l in v.l2c :: PlaceOf(v.f, v.l2c[l])
  }

  /** Two keys disagree on the order of two members of `s`. */
  ghost predicate Inverted(s: set<Id>, k: map<Id, int>, k': map<Id, int>) {
    exists a, b :: a in s && b in s && Inversion(k, k', a, b)
  }

  ghost predicate Inversion(k: map<Id, int>, k': map<Id, int>, a: Id, b: Id) {
    a in k && b in k && a in k' && b in k' && k[a] < k[b] && k'[b] < k'[a]
  }

  ghost function Group(un: set<Id>, doc: Doc, p: Id): set<Id> {
    set l | l in un && l in doc && doc[l].parentId == p
  }

  ghost predicate IsReordered(un: set<Id>, doc: Doc, v: View, p: Id) {
    Inverted(Group(un, doc, p), IndexKey(doc), PlaceKey(doc, v))
  }

  /** Document folders in which the unchanged entries stand in a different order than in the browser. */
  ghost function Reordered(r: Roots, m: set<Id>, doc: Doc, v: View): set<Id> {
    set l | l in UnchangedEntries(r, m, doc, v)
      && IsReordered(UnchangedEntries(r, m, doc, v), doc, v, doc[l].parentId) :: doc[l].parentId
  }

  /** Two unchanged entries of the folder have the same index. */
  ghost predicate TiedFolder(un: set<Id>, doc: Doc, p: Id) {
    exists a, b :: a in Group(un, doc, p) && b in Group(un, doc, p) && a != b && doc[a].index == doc[b].index
  }

  /** Document folders in which unchanged entries share an index; sorting may leave them in either order. */
  ghost function Tied(r: Roots, m: set<Id>, doc: Doc, v: View): set<Id> {
    set l | l in UnchangedEntries(r, m, doc, v) && TiedFolder(UnchangedEntries(r, m, doc, v), doc, doc[l].parentId)
      :: doc[l].parentId
  }

  // ---- Comparing two orders ---------------------------------------------------------------------

  ghost predicate DistinctOn(s: seq<Id>, k: map<Id, int>) {
    (forall c :: c in s ==> c in k) && forall c, d :: c in s && d in s && c != d ==> c in k && d in k && k[c] != k[d]
  }

  lemma InvertedDiffer(s: seq<Id>, r: seq<Id>, k: map<Id, int>, k': map<Id, int>)
    requires Inverted(SetOf(s), k, k') && Sorted(r, k) && (forall c :: c in r <==> c in s)
    ensures !Sorted(r, k')
  {
    var a, b :| a in SetOf(s) && b in SetOf(s) && Inversion(k, k', a, b);
    assert a in r && b in r;
    var i :| 0 <= i < |r| && r[i] == a;
    var j :| 0 <= j < |r| && r[j] == b;
    assert i < j;
  }

  lemma NotInvertedSorted(s: seq<Id>, r: seq<Id>, k: map<Id, int>, k': map<Id, int>)
    requires !Inverted(SetOf(s), k, k') && Sorted(r, k) && NoDup(r) && (forall c :: c in r <==> c in s)
    requires DistinctOn(s, k) && DistinctOn(s, k')
    ensures Sorted(r, k')
  {
    forall i, j | 0 <= i < j < |r| ensures r[i] in k' && r[j] in k' && k'[r[i]] <= k'[r[j]] {
      assert r[i] in s && r[j] in s && k[r[i]] <= k[r[j]] && r[i] != r[j];
      assert r[i] in SetOf(s) && r[j] in SetOf(s);
      assert !Inversion(k, k', r[i], r[j]);
    }
  }

  lemma OrdersDiffer(s: seq<Id>, k: map<Id, int>, k': map<Id, int>)
    requires NoDup(s) && DistinctOn(s, k) && DistinctOn(s, k')
    ensures SortBy(s, k) != SortBy(s, k') <==> Inverted(SetOf(s), k, k')
  {
    var r, r' := SortBy(s, k), SortBy(s, k');
    SortBySorted(s, k);
    SortBySorted(s, k');
    hide SortBy, Sorted, Inverted;
    if Inverted(SetOf(s), k, k') {
      InvertedDiffer(s, r, k, k');
    } else {
      NotInvertedSorted(s, r, k, k');
      SortedUnique(r, r', k');
    }
  }

  // ---- Nothing is counted exactly when the sides agree --------------------------------------------

  /** Translating to the browser and back gives the document's parent. */
  lemma NativeCanon(r: Roots, v: View, p: Id, q: Id)
    requires Covering(r, v) && (p in Containers(r, v.f) || p in v.c2l) && p == Native(r, v.l2c, q)
    requires IsRoot(q) || q in v.l2c
    ensures Canon(r, v.c2l, p) == q
  {
    hide WF, IsManaged;
    if q in r.toNative {
      RootTarget(r, v, p, q);
    } else {
      assert q in v.l2c && v.l2c[q] == p && v.c2l[p] == q;
      NotContainer(r, v, p);
    }
  }

  lemma NotContainer(r: Roots, v: View, p: Id)
    requires Covering(r, v) && p in v.c2l
    ensures p !in r.ids && p !in r.toCanon
  {
    hide WF, Linked;
    MappedNotRoot(r, v, p);
  }

  lemma RootTarget(r: Roots, v: View, p: Id, q: Id)
    requires Covering(r, v) && (p in Containers(r, v.f) || p in v.c2l) && q in r.toNative && p == r.toNative[q]
    ensures p in r.toCanon && r.toCanon[p] == q
  {
    hide WF, Linked;
    if p in v.c2l { NotContainer(r, v, p); }
    ContainerCanon(r, v, p);
  }

  /** The counts, as sets: new nodes, entries without a node, changed entries, reordered folders. */
  ghost predicate NothingToMerge(r: Roots, doc: Doc, v: View) {
    && AddedNodes(Managed(r, v.f), v) == {} && RemovedEntries(Managed(r, v.f), v) == {}
    && ModifiedEntries(r, Managed(r, v.f), doc, v) == {} && Reordered(r, Managed(r, v.f), doc, v) == {}
  }

  lemma MirrorsCovering(r: Roots, doc: Doc, v: View)
    requires WF(v.f) && RootsOk(r, v.f) && Mirrors(r, doc, v)
    ensures Covering(r, v) && v.l2c.Keys == doc.Keys && v.c2l.Keys == Managed(r, v.f)
    ensures forall l :: l in doc ==> RightParent(r, doc, v, l) && SameInfo(doc, v, l)
  {
    hide WF, RootsOk, Managed, Linked, RightParent, SameInfo;
    SyncedCovering(r, doc, v);
  }

  lemma UnchangedFrom(r: Roots, m: set<Id>, doc: Doc, v: View, l: Id)
    requires Comparable(m, doc, v, l) && SameInfo(doc, v, l)
    requires v.l2c[l] in v.f.par && Canon(r, v.c2l, v.f.par[v.l2c[l]]) == doc[l].parentId
    ensures Unchanged(r, m, doc, v, l)
  {
    hide Canon;
  }

  lemma MirrorParent(r: Roots, doc: Doc, v: View, l: Id)
    requires Covering(r, v) && v.l2c.Keys == doc.Keys && l in doc && RightParent(r, doc, v, l)
    requires ParentClosed(doc, {}, doc.Keys)
    ensures v.l2c[l] in v.c2l && v.l2c[l] in v.f.par && Canon(r, v.c2l, v.f.par[v.l2c[l]]) == doc[l].parentId
  {
    MappedLink(r, v, l);
    ManagedParent(r, v, v.l2c[l]);
    assert IsRoot(doc[l].parentId) || doc[l].parentId in v.l2c;
    hide Covering, Native, Canon;
    NativeCanon(r, v, v.f.par[v.l2c[l]], doc[l].parentId);
  }

  lemma MirrorUnchanged(r: Roots, doc: Doc, v: View, l: Id)
    requires WF(v.f) && RootsOk(r, v.f) && Mirrors(r, doc, v) && ParentClosed(doc, {}, doc.Keys) && l in doc
    ensures l in v.l2c && v.l2c[l] in Managed(r, v.f) && Unchanged(r, Managed(r, v.f), doc, v, l)
  {
    hide WF, RootsOk, Managed, Mirrors, Native, Canon, Covering, ParentClosed, Unchanged, Listable, SameInfo;
    MirrorsCovering(r, doc, v);
    assert RightParent(r, doc, v, l) && SameInfo(doc, v, l);
    MirrorParent(r, doc, v, l);
    ManagedListable(r, v.f, v.l2c[l]);
    UnchangedFrom(r, Managed(r, v.f), doc, v, l);
  }

  lemma MirrorPair(r: Roots, doc: Doc, v: View, a: Id, b: Id)
    requires WF(v.f) && RootsOk(r, v.f) && Mirrors(r, doc, v) && a in doc && b in doc
    requires doc[a].parentId == doc[b].parentId && doc[a].index < doc[b].index
    ensures a in PlaceKey(doc, v) && b in PlaceKey(doc, v) && PlaceKey(doc, v)[a] < PlaceKey(doc, v)[b]
  {
    MirrorsCovering(r, doc, v);
    MappedLink(r, v, a);
    MappedLink(r, v, b);
    assert RightParent(r, doc, v, a) && RightParent(r, doc, v, b);
    hide RootsOk, Managed, Native, Covering, Acyclic;
    var x, y := v.l2c[a], v.l2c[b];
    var s := v.f.kids[v.f.par[x]];
    assert x in s && y in s;
    var i, k := Pos(s, x), Pos(s, y);
    assert s[i] == x && s[k] == y && i != k;
  }

  lemma NothingCounted(r: Roots, doc: Doc, v: View)
    requires WF(v.f) && RootsOk(r, v.f) && Mirrors(r, doc, v) && ParentClosed(doc, {}, doc.Keys)
    ensures NothingToMerge(r, doc, v)
  {
    hide WF, RootsOk, Mirrors, Managed, ParentClosed, PlaceKey, Covering, Unchanged;
    var m := Managed(r, v.f);
    MirrorsCovering(r, doc, v);
    forall l | l in doc
      ensures l in v.l2c && v.l2c[l] in m && Unchanged(r, m, doc, v, l)
    {
      MirrorUnchanged(r, doc, v, l);
    }
    assert RemovedEntries(m, v) == {};
    forall a, b | a in doc && b in doc && doc[a].parentId == doc[b].parentId && doc[a].index < doc[b].index
      ensures a in PlaceKey(doc, v) && b in PlaceKey(doc, v) && PlaceKey(doc, v)[a] < PlaceKey(doc, v)[b]
    {
      MirrorPair(r, doc, v, a, b);
    }
    assert forall p :: !IsReordered(UnchangedEntries(r, m, doc, v), doc, v, p);
  }

  lemma AgreedEntry(r: Roots, doc: Doc, v: View, l: Id)
    requires Covering(r, v) && v.l2c.Keys == doc.Keys && v.c2l.Keys == Managed(r, v.f) && l in doc
    requires ModifiedEntries(r, Managed(r, v.f), doc, v) == {}
    ensures Unchanged(r, Managed(r, v.f), doc, v, l) && RightParent(r, doc, v, l) && SameInfo(doc, v, l)
    ensures IsRoot(doc[l].parentId) || doc[l].parentId in doc
  {
    MappedLink(r, v, l);
    var c := v.l2c[l];
    CoveringWF(r, v);
    ManagedListable(r, v.f, c);
    ManagedParent(r, v, c);
    hide Covering, Managed, Native;
    assert l !in ModifiedEntries(r, Managed(r, v.f), doc, v);
    CanonNative(r, v, v.f.par[c]);
  }

  lemma CoveringWF(r: Roots, v: View)
    requires Covering(r, v)
    ensures WF(v.f) && RootsOk(r, v.f)
  {}

  lemma OrderAgrees(un: set<Id>, doc: Doc, v: View, a: Id, b: Id)
    requires a in un && b in un && a in doc && b in doc && a in v.l2c && b in v.l2c
    requires doc[a].parentId == doc[b].parentId
    requires PlaceOf(v.f, v.l2c[a]) < PlaceOf(v.f, v.l2c[b]) && doc[a].index != doc[b].index
    requires !IsReordered(un, doc, v, doc[a].parentId)
    ensures doc[a].index < doc[b].index
  {
    hide PlaceOf;
    var ik, pk, g := IndexKey(doc), PlaceKey(doc, v), Group(un, doc, doc[a].parentId);
    assert a in g && b in g && !Inversion(ik, pk, b, a);
  }

  lemma NotReordered(r: Roots, m: set<Id>, doc: Doc, v: View, l: Id)
    requires Reordered(r, m, doc, v) == {} && l in doc && Unchanged(r, m, doc, v, l)
    ensures l in UnchangedEntries(r, m, doc, v) && !IsReordered(UnchangedEntries(r, m, doc, v), doc, v, doc[l].parentId)
  {
    hide Unchanged, IsReordered;
    assert doc[l].parentId !in Reordered(r, m, doc, v);
  }

  lemma SameFolderParent(r: Roots, m: set<Id>, doc: Doc, v: View, a: Id, b: Id)
    requires Unchanged(r, m, doc, v, a) && Unchanged(r, m, doc, v, b)
    requires v.l2c[a] in v.f.par && v.l2c[b] in v.f.par && v.f.par[v.l2c[a]] == v.f.par[v.l2c[b]]
    ensures doc[a].parentId == doc[b].parentId
  {
    hide Canon;
  }

  lemma AgreedPair(r: Roots, doc: Doc, v: View, p: Id, i: nat, k: nat)
    requires Covering(r, v) && v.l2c.Keys == doc.Keys && v.c2l.Keys == Managed(r, v.f) && DistinctSiblings(doc)
    requires NothingToMerge(r, doc, v)
    requires p in v.f.kids && 0 <= i < k < |v.f.kids[p]| && v.f.kids[p][i] in v.c2l && v.f.kids[p][k] in v.c2l
    ensures v.c2l[v.f.kids[p][i]] in doc && v.c2l[v.f.kids[p][k]] in doc
    ensures doc[v.c2l[v.f.kids[p][i]]].index < doc[v.c2l[v.f.kids[p][k]]].index
  {
    hide Covering, Managed, Native, Canon, Unchanged, UnchangedEntries, Reordered, IsReordered, RightParent, SameInfo,
         PlaceOf, ModifiedEntries;
    var m := Managed(r, v.f);
    var x, y := v.f.kids[p][i], v.f.kids[p][k];
    KidsPlace(r, v, p, i);
    KidsPlace(r, v, p, k);
    var a, b := v.c2l[x], v.c2l[y];
    assert a in v.l2c && b in v.l2c && a != b;
    AgreedEntry(r, doc, v, a);
    AgreedEntry(r, doc, v, b);
    SameFolderParent(r, m, doc, v, a, b);
    NotReordered(r, m, doc, v, a);
    NotReordered(r, m, doc, v, b);
    assert doc[a].index != doc[b].index;
    hide NothingToMerge, DistinctSiblings;
    OrderAgrees(UnchangedEntries(r, m, doc, v), doc, v, a, b);
  }

  lemma KidsPlace(r: Roots, v: View, p: Id, i: nat)
    requires Covering(r, v) && p in v.f.kids && i < |v.f.kids[p]| && v.f.kids[p][i] in v.c2l
    ensures var x := v.f.kids[p][i]; PlaceOf(v.f, x) == i && x in v.f.par && v.f.par[x] == p
    ensures v.c2l[v.f.kids[p][i]] in v.l2c && v.l2c[v.c2l[v.f.kids[p][i]]] == v.f.kids[p][i]
  {
    hide RootsOk, IsManaged, Acyclic;
    assert v.f.kids[p][i] in v.f.kids[p];
    PosOfNth(v.f.kids[p], i);
  }

  /** With a mapping that covers exactly the document and distinct sibling indices, nothing is counted exactly when the
      managed tree is the document and every parent is a root or an entry. */
  lemma NothingToMergeIff(r: Roots, doc: Doc, v: View)
    requires WF(v.f) && RootsOk(r, v.f) && Linked(v.l2c, v.c2l) && v.l2c.Keys == doc.Keys
    ensures Mirrors(r, doc, v) && ParentClosed(doc, {}, doc.Keys) ==> NothingToMerge(r, doc, v)
    ensures NothingToMerge(r, doc, v) && DistinctSiblings(doc) ==> Mirrors(r, doc, v) && ParentClosed(doc, {}, doc.Keys)
  {
    hide WF, RootsOk, Managed, RightParent, SameInfo, Unchanged, Covering;
    if NothingToMerge(r, doc, v) && DistinctSiblings(doc) {
      MappedExactly(r, doc, v);
      SyncedKeys(r, v);
      hide NothingToMerge, Linked, DistinctSiblings;
      forall l | l in doc
        ensures RightParent(r, doc, v, l) && SameInfo(doc, v, l) && (IsRoot(doc[l].parentId) || doc[l].parentId in doc)
      {
        assert ModifiedEntries(r, Managed(r, v.f), doc, v) == {} by { NothingModified(r, doc, v); }
        AgreedEntry(r, doc, v, l);
      }
      forall p, i, k | p in v.f.kids && 0 <= i < k < |v.f.kids[p]| && v.f.kids[p][i] in v.c2l && v.f.kids[p][k] in v.c2l
        ensures v.c2l[v.f.kids[p][i]] in doc && v.c2l[v.f.kids[p][k]] in doc
        ensures doc[v.c2l[v.f.kids[p][i]]].index <= doc[v.c2l[v.f.kids[p][k]]].index
      {
        AgreedPair(r, doc, v, p, i, k);
      }
    }
    if Mirrors(r, doc, v) && ParentClosed(doc, {}, doc.Keys) { NothingCounted(r, doc, v); }
  }

  lemma NothingModified(r: Roots, doc: Doc, v: View)
    requires NothingToMerge(r, doc, v)
    ensures ModifiedEntries(r, Managed(r, v.f), doc, v) == {}
  {}

  lemma MappedExactly(r: Roots, doc: Doc, v: View)
    requires NothingToMerge(r, doc, v) && Linked(v.l2c, v.c2l)
    ensures v.c2l.Keys == Managed(r, v.f)
  {
    hide Managed, ModifiedEntries, Reordered;
    var m := Managed(r, v.f);
    forall c ensures c in v.c2l <==> c in m {
      if c in v.c2l { assert v.c2l[c] !in RemovedEntries(m, v); }
      assert c !in AddedNodes(m, v);
    }
  }

  lemma SyncedKeys(r: Roots, v: View)
    requires WF(v.f) && RootsOk(r, v.f) && Linked(v.l2c, v.c2l) && v.c2l.Keys == Managed(r, v.f)
    ensures Covering(r, v)
  {
    ManagedIs(r, v.f);
  }

  // ---- Orphans -----------------------------------------------------------------------------------------

  /** `p` is the part of the document that has nodes. */
  ghost predicate PartWithNodes(doc: Doc, p: Doc, v: View) {
    p.Keys <= doc.Keys && (forall l :: l in p ==> p[l] == doc[l]) && v.l2c.Keys == p.Keys
  }

  lemma SameComparison(r: Roots, m: set<Id>, doc: Doc, p: Doc, v: View)
    requires PartWithNodes(doc, p, v)
    ensures UnchangedEntries(r, m, doc, v) == UnchangedEntries(r, m, p, v) && UnchangedEntries(r, m, p, v) <= p.Keys
    ensures ModifiedEntries(r, m, doc, v) == ModifiedEntries(r, m, p, v)
  {
    hide ToNode, Listable;
    forall l ensures Unchanged(r, m, doc, v, l) <==> Unchanged(r, m, p, v, l) {}
    forall l ensures Comparable(m, doc, v, l) <==> Comparable(m, p, v, l) {}
    hide Unchanged;
  }

  lemma SameOrders(doc: Doc, p: Doc, v: View, un: set<Id>, q: Id)
    requires PartWithNodes(doc, p, v) && un <= p.Keys
    ensures IsReordered(un, doc, v, q) <==> IsReordered(un, p, v, q)
  {
    assert Group(un, doc, q) == Group(un, p, q);
    hide PlaceOf;
    forall a, b | a in Group(un, p, q) && b in Group(un, p, q)
      ensures Inversion(IndexKey(doc), PlaceKey(doc, v), a, b) <==> Inversion(IndexKey(p), PlaceKey(p, v), a, b)
    {}
  }

  /** Orphans have no nodes and are not counted. */
  lemma OrphansUncounted(r: Roots, doc: Doc, p: Doc, v: View)
    requires PartWithNodes(doc, p, v) && NothingToMerge(r, p, v)
    ensures NothingToMerge(r, doc, v) && (DistinctSiblings(p) ==> Tied(r, Managed(r, v.f), doc, v) == {})
  {
    var m := Managed(r, v.f);
    var un := UnchangedEntries(r, m, p, v);
    SameComparison(r, m, doc, p, v);
    hide Managed, UnchangedEntries, ModifiedEntries, AddedNodes, RemovedEntries, IsReordered;
    forall q ensures IsReordered(un, doc, v, q) <==> IsReordered(un, p, v, q) { SameOrders(doc, p, v, un, q); }
    assert Reordered(r, m, doc, v) == Reordered(r, m, p, v);
    if DistinctSiblings(p) { NoneTied(doc, p, v, un); }
  }

  lemma NoneTied(doc: Doc, p: Doc, v: View, un: set<Id>)
    requires PartWithNodes(doc, p, v) && un <= p.Keys && DistinctSiblings(p)
    ensures forall q :: !TiedFolder(un, doc, q)
  {
    forall a, b | a in p && b in p && a != b && p[a].parentId == p[b].parentId ensures doc[a].index != doc[b].index {
      assert p[a].index != p[b].index;
    }
  }

  // ---- What one change does to the counts -------------------------------------------------------------

  /** A node created in a managed folder while nothing was listening counts as one addition. */
  lemma CreationCounts(r: Roots, v: View, id: Id, p: Id, info: Info)
    requires WF(v.f) && RootsOk(r, v.f) && p in v.f.kids && (p in Containers(r, v.f) || p in Managed(r, v.f))
    requires id !in v.f.par && id != v.f.top && id !in r.ids && id !in v.c2l
    requires forall l :: l in v.l2c ==> v.l2c[l] != id
    ensures var w := v.(f := Created(v.f, id, p, info));
      |AddedNodes(Managed(r, w.f), w)| == |AddedNodes(Managed(r, v.f), v)| + 1
      && RemovedEntries(Managed(r, w.f), w) == RemovedEntries(Managed(r, v.f), v)
  {
    assert id !in Managed(r, v.f) by { if id in Managed(r, v.f) { ManagedInForest(r, v.f, id); } }
    hide WF, RootsOk, Managed, Containers, Created;
    CreatedManaged(r, v.f, id, p, info);
    OneMoreManaged(Managed(r, v.f), v, v.(f := Created(v.f, id, p, info)), id);
  }

  lemma OneMoreManaged(m: set<Id>, v: View, w: View, id: Id)
    requires w.l2c == v.l2c && w.c2l == v.c2l && id !in m && id !in v.c2l && forall l :: l in v.l2c ==> v.l2c[l] != id
    ensures |AddedNodes(m + {id}, w)| == |AddedNodes(m, v)| + 1
    ensures RemovedEntries(m + {id}, w) == RemovedEntries(m, v)
  {
    assert AddedNodes(m + {id}, w) == AddedNodes(m, v) + {id};
  }

  lemma ManagedInForest(r: Roots, f: Forest, c: Id)
    requires c in Managed(r, f)
    ensures c in f.par
  {}

  lemma CreatedManaged(r: Roots, f: Forest, id: Id, p: Id, info: Info)
    requires WF(f) && RootsOk(r, f) && p in f.kids && (p in Containers(r, f) || p in Managed(r, f))
    requires id !in f.par && id != f.top && id !in r.ids
    ensures Managed(r, Created(f, id, p, info)) == Managed(r, f) + {id}
  {
    ManagedIs(r, f);
    hide WF, RootsOk, Managed, Containers, Created, IsManaged;
    CreatedWF(f, id, p, info);
    CreatedFrame(f, id, p, info);
    AddedRoots(r, f, Created(f, id, p, info), id, p);
    AddedManaged(f, Created(f, id, p, info), Containers(r, f), Managed(r, f), id, p);
    ManagedEq(r, Created(f, id, p, info), Managed(r, f) + {id});
  }

  ghost function MappedTo(v: View, nodes: set<Id>): set<Id> {
    set l | l in v.l2c && v.l2c[l] in nodes
  }

  /** A subtree removed while nothing was listening: its mapped nodes count as removals, and its unmapped ones no
      longer as additions. */
  lemma RemovalCounts(r: Roots, v: View, x: Id, below: set<Id>)
    requires WF(v.f) && RootsOk(r, v.f) && x in Managed(r, v.f) && IsSubtree(v.f.par, x, below)
    ensures var w := v.(f := Removed(v.f, below));
      && AddedNodes(Managed(r, w.f), w) == AddedNodes(Managed(r, v.f), v) - below
      && |RemovedEntries(Managed(r, w.f), w)| == |RemovedEntries(Managed(r, v.f), v)| + |MappedTo(v, below)|
  {
    hide WF, RootsOk, Managed, IsSubtree, Removed;
    RemovedManaged(r, v.f, x, below);
    FewerManaged(Managed(r, v.f), v, v.(f := Removed(v.f, below)), below);
  }

  lemma FewerManaged(m: set<Id>, v: View, w: View, below: set<Id>)
    requires w.l2c == v.l2c && w.c2l == v.c2l && below <= m
    ensures AddedNodes(m - below, w) == AddedNodes(m, v) - below
    ensures |RemovedEntries(m - below, w)| == |RemovedEntries(m, v)| + |MappedTo(v, below)|
  {
    var a, b := RemovedEntries(m, v), MappedTo(v, below);
    assert RemovedEntries(m - below, w) == a + b && a !! b;
    assert |a + b| == |a| + |b|;
  }

  lemma RemovedManaged(r: Roots, f: Forest, x: Id, below: set<Id>)
    requires WF(f) && RootsOk(r, f) && x in Managed(r, f) && IsSubtree(f.par, x, below)
    ensures below <= Managed(r, f) && Managed(r, Removed(f, below)) == Managed(r, f) - below
  {
    var rank :| Ranked(f.par, rank);
    hide WF, RootsOk, Managed, Containers, IsSubtree, Removed, Ranked, IsManaged;
    var m, g := Managed(r, f), Removed(f, below);
    ManagedIs(r, f);
    ContainersApart(r, f);
    ClosedSubtree(f, x, below);
    forall c | c in below ensures c in m { BelowManaged(f, Containers(r, f), m, x, below, rank, c); }
    RemovedWF(f, below);
    RemovedRoots(r, f, m, below);
    FewerIsManaged(f, Containers(r, f), m, below);
    ManagedEq(r, g, m - below);
  }

  lemma FewerIsManaged(f: Forest, cs: set<Id>, m: set<Id>, below: set<Id>)
    requires WF(f) && IsManaged(f, cs, m) && below <= m && ClosedDown(f, below) && cs !! m
    ensures IsManaged(Removed(f, below), cs, m - below)
  {
    hide Acyclic, Listed;
  }

  // ---- Counting ---------------------------------------------------------------------------------

  ghost function Unmapped(m: set<Id>, c2l: map<Id, Id>): set<Id> {
    set c | c in m && c !in c2l
  }

  lemma OneMoreNode(m: set<Id>, c2l: map<Id, Id>, c: Id)
    requires c !in m
    ensures |Unmapped(m + {c}, c2l)| == |Unmapped(m, c2l)| + if c in c2l then 0 else 1
  {
    assert Unmapped(m + {c}, c2l) == if c in c2l then Unmapped(m, c2l) else Unmapped(m, c2l) + {c};
  }

  /** Counts the collected nodes that are not mapped. */
  method CountAdded(visit: seq<Id>, c2l: map<Id, Id>) returns (added: nat)
    requires NoDup(visit)
    ensures added == |Unmapped(SetOf(visit), c2l)|
  {
    hide Unmapped;
    added := 0;
    var i := 0;
    NothingUnmapped(c2l);
    assert SetOf(visit[..0]) == {};
    while i < |visit|
      invariant 0 <= i <= |visit| && added == |Unmapped(SetOf(visit[..i]), c2l)|
    {
      PrefixSet(visit, i);
      OneMoreNode(SetOf(visit[..i]), c2l, visit[i]);
      if visit[i] !in c2l { added := added + 1; }
      i := i + 1;
    }
    assert visit[..i] == visit;
  }

  ghost function Gone(l2c: map<Id, Id>, done: set<Id>, current: set<Id>): set<Id> {
    set l | l in l2c && l in done && l2c[l] !in current
  }

  lemma OneMorePair(l2c: map<Id, Id>, done: set<Id>, current: set<Id>, l: Id)
    requires l in l2c && l !in done
    ensures |Gone(l2c, done + {l}, current)| == |Gone(l2c, done, current)| + if l2c[l] in current then 0 else 1
  {
    assert Gone(l2c, done + {l}, current) ==
      if l2c[l] in current then Gone(l2c, done, current) else Gone(l2c, done, current) + {l};
  }

  /** Counts the pairs whose node was not collected. */
  method CountRemoved(l2c: map<Id, Id>, current: set<Id>) returns (removed: nat)
    ensures removed == |Gone(l2c, l2c.Keys, current)|
  {
    hide Gone;
    removed := 0;
    var todo := l2c.Keys;
    NothingGone(l2c, current);
    assert l2c.Keys - todo == {};
    while todo != {}
      invariant todo <= l2c.Keys && removed == |Gone(l2c, l2c.Keys - todo, current)|
    {
      var l :| l in todo;
      OneMorePair(l2c, l2c.Keys - todo, current, l);
      assert l2c.Keys - (todo - {l}) == l2c.Keys - todo + {l};
      todo := todo - {l};
      if l2c[l] !in current { removed := removed + 1; }
    }
    assert l2c.Keys - todo == l2c.Keys;
  }

  lemma NothingGone(l2c: map<Id, Id>, current: set<Id>)
    ensures Gone(l2c, {}, current) == {}
  {}

  lemma NothingUnmapped(c2l: map<Id, Id>)
    ensures Unmapped({}, c2l) == {}
  {}

  lemma CountsAre(m: set<Id>, v: View)
    ensures Unmapped(m, v.c2l) == AddedNodes(m, v) == set c | c in m && c !in v.c2l
    ensures Gone(v.l2c, v.l2c.Keys, m) == RemovedEntries(m, v) == set l | l in v.l2c && v.l2c[l] !in m
  {}

  lemma ManagedNotRoot(r: Roots, f: Forest, c: Id)
    requires WF(f) && RootsOk(r, f) && c in Managed(r, f)
    ensures c in f.par && c !in r.ids && (f.par[c] in Containers(r, f) || f.par[c] in Managed(r, f))
  {
    TopOutside(r, f);
    hide Managed, Acyclic, Listed;
    ManagedIs(r, f);
  }

  lemma TopOutside(r: Roots, f: Forest)
    requires WF(f)
    ensures f.top !in Containers(r, f) && f.top !in Managed(r, f)
  {}

  /** Different browser folders have different document ids. */
  lemma CanonDistinct(r: Roots, v: View, p: Id, q: Id)
    requires WF(v.f) && RootsOk(r, v.f) && Linked(v.l2c, v.c2l) && Apart(v.l2c.Keys, r, v) && p != q
    requires p in Containers(r, v.f) || p in Managed(r, v.f)
    requires q in Containers(r, v.f) || q in Managed(r, v.f)
    ensures Canon(r, v.c2l, p) != Canon(r, v.c2l, q)
  {
    hide Canon, WF, RootsOk, Linked, Managed, Apart;
    CanonKind(r, v, p);
    CanonKind(r, v, q);
  }

  lemma CanonKind(r: Roots, v: View, p: Id)
    requires WF(v.f) && RootsOk(r, v.f) && Linked(v.l2c, v.c2l) && Apart(v.l2c.Keys, r, v)
    requires p in Containers(r, v.f) || p in Managed(r, v.f)
    ensures var q := Canon(r, v.c2l, p);
      if p in Containers(r, v.f) then IsRoot(q) && q in r.toNative && r.toNative[q] == p
      else !IsRoot(q) && if p in v.c2l then q in v.l2c && v.l2c[q] == p else q == p && q !in v.l2c
  {
    RootIds(r, v.f);
    if p in Managed(r, v.f) { ManagedNotRoot(r, v.f, p); }
    hide Managed, Acyclic, Listed;
  }

  lemma SamePlace(f: Forest, x: Id, y: Id)
    requires WF(f) && x in f.par && y in f.par && f.par[x] == f.par[y] && x != y
    ensures PlaceOf(f, x) != PlaceOf(f, y)
  {
    ListableNode(f, x);
    ListableNode(f, y);
  }

  lemma PlacesDistinct(r: Roots, doc: Doc, v: View, a: Id, b: Id)
    requires WF(v.f) && RootsOk(r, v.f) && Linked(v.l2c, v.c2l) && Apart(v.l2c.Keys, r, v) && a != b
    requires Unchanged(r, Managed(r, v.f), doc, v, a) && Unchanged(r, Managed(r, v.f), doc, v, b)
    requires doc[a].parentId == doc[b].parentId
    ensures a in PlaceKey(doc, v) && b in PlaceKey(doc, v) && PlaceKey(doc, v)[a] != PlaceKey(doc, v)[b]
  {
    hide Canon, WF, RootsOk, Managed, Apart, PlaceOf, Containers;
    var x, y := v.l2c[a], v.l2c[b];
    assert v.c2l[x] == a && v.c2l[y] == b;
    ManagedNotRoot(r, v.f, x);
    ManagedNotRoot(r, v.f, y);
    if v.f.par[x] != v.f.par[y] {
      CanonDistinct(r, v, v.f.par[x], v.f.par[y]);
    } else {
      SamePlace(v.f, x, y);
    }
  }

  /** `groups` holds the entries of `un`, by parent. */
  ghost predicate Grouped(groups: map<Id, seq<Id>>, un: set<Id>, doc: Doc) {
    && (forall p {:trigger groups[p]} :: p in groups ==>
          groups[p] != [] && NoDup(groups[p]) && SetOf(groups[p]) == Group(un, doc, p))
    && (forall l {:trigger l in un} :: l in un ==> l in doc && doc[l].parentId in groups)
  }

  function WithEntry(groups: map<Id, seq<Id>>, p: Id, l: Id): map<Id, seq<Id>> {
    groups[p := (if p in groups then groups[p] else []) + [l]]
  }

  lemma GroupedStep(groups: map<Id, seq<Id>>, un: set<Id>, doc: Doc, l: Id)
    requires Grouped(groups, un, doc) && l in doc && l !in un
    ensures Grouped(WithEntry(groups, doc[l].parentId, l), un + {l}, doc)
  {
    var p := doc[l].parentId;
    var g := WithEntry(groups, p, l);
    var s := if p in groups then groups[p] else [];
    assert SetOf(s) == Group(un, doc, p);
    assert l !in SetOf(s);
    Appended(s, l);
    assert SetOf(s + [l]) == SetOf(s) + {l};
    assert Group(un + {l}, doc, p) == Group(un, doc, p) + {l};
    assert SetOf(s + [l]) == Group(un + {l}, doc, p);
    forall q | q in g && q != p ensures Group(un + {l}, doc, q) == Group(un, doc, q) {}
  }

  ghost predicate Differs(n: BNode, was: BNode) {
    n.title != was.title || n.url != was.url || n.parentId != was.parentId
  }

  /** The entries outside `todo` have been compared. */
  ghost predicate ComparedInv(r: Roots, m: set<Id>, doc: Doc, v: View, todo: set<Id>, modified: nat, groups: map<Id,
                              seq<Id>>) {
    modified == |ModifiedEntries(r, m, doc, v) - todo| && Grouped(groups, UnchangedEntries(r, m, doc, v) - todo, doc)
  }

  /** Compares every entry that has a managed node with it; collects the unchanged ones by folder. */
  method CompareEntries(r: Roots, m: set<Id>, doc: Doc, v: View)
    returns (modified: nat, loroByParent: map<Id, seq<Id>>, chromeByParent: map<Id, seq<Id>>)
    requires forall c :: c in m ==> Listable(v.f, c)
    ensures modified == |ModifiedEntries(r, m, doc, v)|
    ensures chromeByParent == loroByParent && Grouped(loroByParent, UnchangedEntries(r, m, doc, v), doc)
  {
    hide ToNode, Listable, ComparedInv, Grouped, ModifiedEntries, UnchangedEntries;
    modified, loroByParent, chromeByParent := 0, map[], map[];
    var todo := doc.Keys;
    NothingCompared(r, m, doc, v);
    while todo != {}
      invariant todo <= doc.Keys && chromeByParent == loroByParent
      invariant ComparedInv(r, m, doc, v, todo, modified, loroByParent)
    {
      var l :| l in todo;
      CompareStep(r, m, doc, v, todo, l, modified, loroByParent);
      todo := todo - {l};
      if l in v.l2c && v.l2c[l] in m {
        ListableHas(v.f, v.l2c[l]);
        var node := ToNode(r, v.f, v.c2l, v.l2c[l]);
        if node.title != doc[l].title || node.url != doc[l].url || node.parentId != doc[l].parentId {
          modified := modified + 1;
        } else {
          loroByParent := WithEntry(loroByParent, doc[l].parentId, l);
          chromeByParent := WithEntry(chromeByParent, node.parentId, l);
        }
      }
    }
    AllCompared(r, m, doc, v, modified, loroByParent);
  }

  lemma NothingCompared(r: Roots, m: set<Id>, doc: Doc, v: View)
    ensures ComparedInv(r, m, doc, v, doc.Keys, 0, map[])
  {
    hide Unchanged;
    assert ModifiedEntries(r, m, doc, v) - doc.Keys == {} == UnchangedEntries(r, m, doc, v) - doc.Keys;
    GroupedNone(doc);
  }

  lemma AllCompared(r: Roots, m: set<Id>, doc: Doc, v: View, modified: nat, groups: map<Id, seq<Id>>)
    requires ComparedInv(r, m, doc, v, {}, modified, groups)
    ensures modified == |ModifiedEntries(r, m, doc, v)| && Grouped(groups, UnchangedEntries(r, m, doc, v), doc)
  {
    hide ModifiedEntries, UnchangedEntries;
    assert ModifiedEntries(r, m, doc, v) - {} == ModifiedEntries(r, m, doc, v);
    assert UnchangedEntries(r, m, doc, v) - {} == UnchangedEntries(r, m, doc, v);
  }

  lemma UnchangedIs(r: Roots, m: set<Id>, doc: Doc, v: View, l: Id)
    requires l in doc && forall c :: c in m ==> Listable(v.f, c)
    ensures l in v.l2c && v.l2c[l] in m ==>
      (Listable(v.f, v.l2c[l]) &&
       if Differs(ToNode(r, v.f, v.c2l, v.l2c[l]), doc[l])
       then l in ModifiedEntries(r, m, doc, v) && l !in UnchangedEntries(r, m, doc, v)
       else l in UnchangedEntries(r, m, doc, v) && l !in ModifiedEntries(r, m, doc, v))
    ensures !(l in v.l2c && v.l2c[l] in m) ==>
      l !in ModifiedEntries(r, m, doc, v) && l !in UnchangedEntries(r, m, doc, v)
  {
    hide ToNode;
    if l in v.l2c && v.l2c[l] in m { ListableHas(v.f, v.l2c[l]); assert Comparable(m, doc, v, l); }
  }

  lemma CompareStep(r: Roots, m: set<Id>, doc: Doc, v: View, todo: set<Id>, l: Id, modified: nat, groups: map<Id,
                    seq<Id>>)
    requires l in todo && l in doc && forall c :: c in m ==> Listable(v.f, c)
    requires ComparedInv(r, m, doc, v, todo, modified, groups)
    ensures if l in v.l2c && v.l2c[l] in m then
        && Listable(v.f, v.l2c[l])
        && if Differs(ToNode(r, v.f, v.c2l, v.l2c[l]), doc[l])
           then ComparedInv(r, m, doc, v, todo - {l}, modified + 1, groups)
           else ComparedInv(r, m, doc, v, todo - {l}, modified, WithEntry(groups, doc[l].parentId, l))
      else ComparedInv(r, m, doc, v, todo - {l}, modified, groups)
  {
    UnchangedIs(r, m, doc, v, l);
    var mo, un := ModifiedEntries(r, m, doc, v), UnchangedEntries(r, m, doc, v);
    hide ToNode, Differs, Grouped, Listable, ModifiedEntries, UnchangedEntries;
    LeftOver(mo, todo, l);
    LeftOver(un, todo, l);
    if l in un { GroupedStep(groups, un - todo, doc, l); }
  }

  lemma LeftOver(s: set<Id>, todo: set<Id>, l: Id)
    requires l in todo
    ensures l !in s - todo
    ensures if l in s then s - (todo - {l}) == s - todo + {l} && |s - (todo - {l})| == |s - todo| + 1
            else s - (todo - {l}) == s - todo
  {
    if l in s { assert s - (todo - {l}) == s - todo + {l}; } else { assert s - (todo - {l}) == s - todo; }
  }

  lemma GroupedNone(doc: Doc)
    ensures Grouped(map[], {}, doc)
  {}

  /** Counts the folders whose two orders differ. */
  method CompareOrders(doc: Doc, v: View, loroByParent: map<Id, seq<Id>>, chromeByParent: map<Id, seq<Id>>,
                       ghost un: set<Id>) returns (n: nat)
    requires chromeByParent == loroByParent && Grouped(loroByParent, un, doc) && un <= doc.Keys * v.l2c.Keys
    ensures PlacesApart(doc, v, un) ==>
      |set p | p in loroByParent && IsReordered(un, doc, v, p)| <= n
      <= |set p | p in loroByParent && (IsReordered(un, doc, v, p) || TiedFolder(un, doc, p))|
  {
    hide PlaceKey, IsReordered, Grouped, TiedFolder;
    n := 0;
    var todo := loroByParent.Keys;
    ghost var good := PlacesApart(doc, v, un);
    ghost var found := {};
    while todo != {}
      invariant todo <= loroByParent.Keys && found <= loroByParent.Keys - todo && n == |found|
      invariant good ==> forall p :: p in loroByParent && p !in todo ==> CountedRight(un, doc, v, p, p in found)
    {
      var p :| p in todo;
      todo := todo - {p};
      KeysCover(loroByParent, un, doc, v, p);
      var loroOrder := SortBy(loroByParent[p], IndexKey(doc));
      var chromeOrder := SortBy(chromeByParent[p], PlaceKey(doc, v));
      if good { FolderDiffers(loroByParent, un, doc, v, p); }
      if loroOrder != chromeOrder {
        n := n + 1;
        found := found + {p};
      }
    }
    if good {
      SubsetSize((set p | p in loroByParent && IsReordered(un, doc, v, p)), found);
      SubsetSize(found, (set p | p in loroByParent && (IsReordered(un, doc, v, p) || TiedFolder(un, doc, p))));
    }
  }

  /** A folder with an inversion is counted, and one without inversions and ties is not. */
  ghost predicate CountedRight(un: set<Id>, doc: Doc, v: View, p: Id, counted: bool) {
    && (IsReordered(un, doc, v, p) ==> counted)
    && (counted ==> IsReordered(un, doc, v, p) || TiedFolder(un, doc, p))
  }

  ghost predicate PlacesApart(doc: Doc, v: View, un: set<Id>) {
    forall a, b :: a in un && b in un && a in doc && b in doc && a != b && doc[a].parentId == doc[b].parentId ==>
      a in PlaceKey(doc, v) && b in PlaceKey(doc, v) && PlaceKey(doc, v)[a] != PlaceKey(doc, v)[b]
  }

  lemma KeysCover(groups: map<Id, seq<Id>>, un: set<Id>, doc: Doc, v: View, p: Id)
    requires Grouped(groups, un, doc) && un <= doc.Keys * v.l2c.Keys && p in groups
    ensures forall c :: c in groups[p] ==> c in IndexKey(doc) && c in PlaceKey(doc, v) && c in Group(un, doc, p)
    ensures SetOf(groups[p]) == Group(un, doc, p) && NoDup(groups[p])
  {
    forall c | c in groups[p] ensures c in Group(un, doc, p) { assert c in SetOf(groups[p]); }
  }

  lemma FolderDiffers(groups: map<Id, seq<Id>>, un: set<Id>, doc: Doc, v: View, p: Id)
    requires Grouped(groups, un, doc) && un <= doc.Keys * v.l2c.Keys && p in groups
    requires PlacesApart(doc, v, un)
    ensures forall c :: c in groups[p] ==> c in IndexKey(doc) && c in PlaceKey(doc, v)
    ensures CountedRight(un, doc, v, p, SortBy(groups[p], IndexKey(doc)) != SortBy(groups[p], PlaceKey(doc, v)))
  {
    hide PlaceKey, SortBy, Grouped, Inverted;
    KeysCover(groups, un, doc, v, p);
    var s := groups[p];
    if !TiedFolder(un, doc, p) {
      OrdersDiffer(s, IndexKey(doc), PlaceKey(doc, v));
    } else if Inverted(SetOf(s), IndexKey(doc), PlaceKey(doc, v)) {
      SortBySorted(s, IndexKey(doc));
      SortBySorted(s, PlaceKey(doc, v));
      InvertedDiffer(s, SortBy(s, IndexKey(doc)), IndexKey(doc), PlaceKey(doc, v));
    }
  }

  lemma UnchangedKeys(r: Roots, doc: Doc, v: View)
    ensures UnchangedEntries(r, Managed(r, v.f), doc, v) <= doc.Keys * v.l2c.Keys
  {
    hide ToNode, Managed;
  }

  lemma UnchangedApart(r: Roots, doc: Doc, v: View)
    requires WF(v.f) && RootsOk(r, v.f) && Linked(v.l2c, v.c2l) && Apart(v.l2c.Keys, r, v)
    ensures PlacesApart(doc, v, UnchangedEntries(r, Managed(r, v.f), doc, v))
  {
    hide WF, RootsOk, Linked, Managed, Unchanged, PlaceKey, Apart;
    var un := UnchangedEntries(r, Managed(r, v.f), doc, v);
    forall a, b | a in un && b in un && a in doc && b in doc && a != b && doc[a].parentId == doc[b].parentId
      ensures a in PlaceKey(doc, v) && b in PlaceKey(doc, v) && PlaceKey(doc, v)[a] != PlaceKey(doc, v)[b]
    {
      PlacesDistinct(r, doc, v, a, b);
    }
  }

  lemma ReorderedFolders(r: Roots, m: set<Id>, doc: Doc, v: View, groups: map<Id, seq<Id>>)
    requires Grouped(groups, UnchangedEntries(r, m, doc, v), doc)
    ensures var un := UnchangedEntries(r, m, doc, v);
      && (set p | p in groups && IsReordered(un, doc, v, p)) == Reordered(r, m, doc, v)
      && (set p | p in groups && (IsReordered(un, doc, v, p) || TiedFolder(un, doc, p)))
           == Reordered(r, m, doc, v) + Tied(r, m, doc, v)
  {
    hide Unchanged, IsReordered, TiedFolder;
    var un := UnchangedEntries(r, m, doc, v);
    forall p | p in groups ensures exists l :: l in un && l in doc && doc[l].parentId == p {
      assert groups[p][0] in SetOf(groups[p]);
      assert groups[p][0] in Group(un, doc, p);
    }
  }

  lemma NoTies(r: Roots, m: set<Id>, doc: Doc, v: View)
    requires DistinctSiblings(doc)
    ensures Tied(r, m, doc, v) == {} && Reordered(r, m, doc, v) + Tied(r, m, doc, v) == Reordered(r, m, doc, v)
  {
    hide Unchanged;
    forall p ensures !TiedFolder(UnchangedEntries(r, m, doc, v), doc, p) {}
  }

  lemma NothingIff(r: Roots, doc: Doc, v: View, added: nat, removed: nat, modified: nat)
    requires added == |AddedNodes(Managed(r, v.f), v)| && removed == |RemovedEntries(Managed(r, v.f), v)|
    requires modified == |ModifiedEntries(r, Managed(r, v.f), doc, v)| + |Reordered(r, Managed(r, v.f), doc, v)|
    ensures added == 0 && removed == 0 && modified == 0 <==> NothingToMerge(r, doc, v)
  {
    hide AddedNodes, RemovedEntries, ModifiedEntries, Reordered, Managed;
  }
}
