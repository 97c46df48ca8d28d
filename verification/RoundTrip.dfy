/** Two browsers that show the same document have isomorphic bookmark trees, whatever their root tables. */
module RoundTrip {
  import opened Forests
  import opened Positions
  import opened Documents
  import opened RootTables
  import opened ManagedTree
  import opened BridgeSpec
  import opened CreatePhase
  import opened PassLemmas
  import opened Convergence
  import opened Capture
  import opened OfflineChanges
  import opened ImportMerge
  import opened Settled

  /** The node of the other browser that stands for the same entry. */
  function Twin(a: View, b: View, c: Id): Id {
    if c in a.c2l && a.c2l[c] in b.l2c then b.l2c[a.c2l[c]] else c
  }

  /** Root containers correspond through their canonical ids. */
  function TwinFolder(rA: Roots, rB: Roots, a: View, b: View, p: Id): Id {
    if p in rA.toCanon && rA.toCanon[p] in rB.toNative then rB.toNative[rA.toCanon[p]] else Twin(a, b, p)
  }

  function Twins(a: View, b: View, s: seq<Id>): (t: seq<Id>)
    ensures |t| == |s| && forall i :: 0 <= i < |s| ==> t[i] == Twin(a, b, s[i])
  {
    seq(|s|, i requires 0 <= i < |s| => Twin(a, b, s[i]))
  }

  /** A one-to-one correspondence of the managed nodes that keeps titles, URLs, parents and, in every
      folder, the order of the children. */
  ghost predicate Isomorphic(rA: Roots, rB: Roots, a: View, b: View) {
    && (forall c {:trigger Twin(a, b, c)} :: c in Managed(rA, a.f) ==>
          && Twin(a, b, c) in Managed(rB, b.f) && Twin(b, a, Twin(a, b, c)) == c
          && c in a.f.info && Twin(a, b, c) in b.f.info && b.f.info[Twin(a, b, c)] == a.f.info[c]
          && c in a.f.par && Twin(a, b, c) in b.f.par && b.f.par[Twin(a, b, c)] == TwinFolder(rA, rB, a, b, a.f.par[c]))
    && (forall d :: d in Managed(rB, b.f) ==> Twin(b, a, d) in Managed(rA, a.f) && Twin(a, b, Twin(b, a, d)) == d)
    && (forall p {:trigger a.f.kids[p]} ::
          p in a.f.kids && (p in Containers(rA, a.f) || p in Managed(rA, a.f)) && a.f.kids[p] != [] ==>
          TwinFolder(rA, rB, a, b, p) in b.f.kids && b.f.kids[TwinFolder(rA, rB, a, b, p)] == Twins(a, b, a.f.kids[p]))
  }

  /** A view that shows the document. */
  ghost predicate Shows(r: Roots, doc: Doc, v: View) {
    WF(v.f) && RootsOk(r, v.f) && ValidDoc(doc) && Mirrors(r, doc, v)
  }

  lemma ShowsFacts(r: Roots, doc: Doc, v: View)
    requires Shows(r, doc, v)
    ensures Covering(r, v) && v.l2c.Keys == doc.Keys && v.c2l.Keys == Managed(r, v.f) && WF(v.f) && RootsOk(r, v.f)
    ensures forall l :: l in doc ==> RightParent(r, doc, v, l) && SameInfo(doc, v, l)
    ensures forall l :: l in doc ==> IsParentRoot(doc[l].parentId) || doc[l].parentId in v.l2c
  {
    hide WF, RootsOk, ValidDoc, Mirrors, Managed, RightParent, SameInfo, Covering;
    MirrorsCovering(r, doc, v);
    ParentsMapped(r, doc, v) by { ValidParts(doc); }
  }

  // ---- The children of a folder, by entry -----------------------------------------------------------

  function Labels(v: View, s: seq<Id>): (t: seq<Id>)
    requires forall c :: c in s ==> c in v.c2l
    ensures |t| == |s| && forall i :: 0 <= i < |s| ==> t[i] == v.c2l[s[i]]
  {
    seq(|s|, i requires 0 <= i < |s| => v.c2l[s[i]])
  }

  /** `s` lists the children of folder `p`, which stands for `q`: exactly the entries with parent `q`, in
      index order. */
  ghost predicate ListsEntries(doc: Doc, v: View, p: Id, q: Id) {
    && p in v.f.kids && (forall c :: c in v.f.kids[p] ==> c in v.c2l)
    && (forall l :: l in Labels(v, v.f.kids[p]) <==> l in doc && doc[l].parentId == q)
    && NoDup(Labels(v, v.f.kids[p])) && Sorted(Labels(v, v.f.kids[p]), IndexKey(doc))
  }

  lemma FolderChildren(r: Roots, doc: Doc, v: View, p: Id)
    requires Shows(r, doc, v) && p in v.f.kids && (p in Containers(r, v.f) || p in v.c2l)
    ensures forall c :: c in v.f.kids[p] ==> c in v.c2l && v.c2l[c] in doc && v.l2c[v.c2l[c]] == c && v.f.par[c] == p
  {
    ShowsFacts(r, doc, v);
    hide Shows, RootsOk, Acyclic, Containers, Managed;
  }

  lemma ChildEntry(r: Roots, doc: Doc, v: View, p: Id, q: Id, l: Id)
    requires Shows(r, doc, v) && p in v.f.kids && (p in Containers(r, v.f) || p in v.c2l) && l in doc
    requires p == Native(r, v.l2c, q) && (IsParentRoot(q) || q in v.l2c)
    ensures l in v.l2c && v.l2c[l] in v.c2l && v.c2l[v.l2c[l]] == l
    ensures v.l2c[l] in v.f.kids[p] <==> doc[l].parentId == q
  {
    ShowsFacts(r, doc, v);
    MappedLink(r, v, l);
    assert RightParent(r, doc, v, l);
    if v.l2c[l] in v.f.kids[p] {
      FolderChildren(r, doc, v, p);
      hide Shows, WF, RootsOk, Covering, Native;
      NativeDistinct(r, v, doc[l].parentId, q);
    }
    hide Shows, RootsOk, Covering, Native, Acyclic, Containers, Managed;
  }

  lemma FolderLists(r: Roots, doc: Doc, v: View, p: Id, q: Id)
    requires Shows(r, doc, v) && p in v.f.kids && (p in Containers(r, v.f) || p in v.c2l)
    requires p == Native(r, v.l2c, q) && (IsParentRoot(q) || q in v.l2c)
    ensures ListsEntries(doc, v, p, q)
  {
    FolderChildren(r, doc, v, p);
    var s := v.f.kids[p];
    var t := Labels(v, s);
    forall l ensures l in t <==> l in doc && doc[l].parentId == q {
      if l in doc {
        ChildEntry(r, doc, v, p, q, l);
        if v.l2c[l] in s { assert t[Pos(s, v.l2c[l])] == l; }
      }
      if l in t {
        var i :| 0 <= i < |t| && t[i] == l;
        assert s[i] in s;
      }
    }
    LabelsSorted(r, doc, v, p);
  }

  lemma LabelsSorted(r: Roots, doc: Doc, v: View, p: Id)
    requires Shows(r, doc, v) && p in v.f.kids && (p in Containers(r, v.f) || p in v.c2l)
    requires forall c :: c in v.f.kids[p] ==> c in v.c2l && v.c2l[c] in doc
    ensures NoDup(Labels(v, v.f.kids[p])) && Sorted(Labels(v, v.f.kids[p]), IndexKey(doc))
  {
    hide Shows, NoDup, Sorted;
    var s := v.f.kids[p];
    forall i, k | 0 <= i < k < |s|
      ensures s[i] in v.c2l && s[k] in v.c2l && v.c2l[s[i]] in doc && v.c2l[s[k]] in doc
      ensures doc[v.c2l[s[i]]].index < doc[v.c2l[s[k]]].index
    {
      assert s[i] in s && s[k] in s;
      MirrorOrder(r, doc, v, p, i, k);
    }
    var t := Labels(v, s);
    assert forall i :: 0 <= i < |t| ==> t[i] == v.c2l[s[i]];
    Increasing(doc, t);
  }

  lemma Increasing(doc: Doc, t: seq<Id>)
    requires forall i, k :: 0 <= i < k < |t| ==> t[i] in doc && t[k] in doc && doc[t[i]].index < doc[t[k]].index
    ensures NoDup(t) && Sorted(t, IndexKey(doc))
  {
    forall i, k | 0 <= i < k < |t|
      ensures t[i] != t[k] && t[i] in IndexKey(doc) && t[k] in IndexKey(doc)
      ensures IndexKey(doc)[t[i]] <= IndexKey(doc)[t[k]]
    {
      assert doc[t[i]].index < doc[t[k]].index;
    }
  }

  lemma MirrorOrder(r: Roots, doc: Doc, v: View, p: Id, i: nat, k: nat)
    requires Shows(r, doc, v) && p in v.f.kids && i < k < |v.f.kids[p]|
    requires v.f.kids[p][i] in v.c2l && v.c2l[v.f.kids[p][i]] in doc && v.f.kids[p][k] in v.c2l
    requires v.c2l[v.f.kids[p][k]] in doc
    ensures doc[v.c2l[v.f.kids[p][i]]].index < doc[v.c2l[v.f.kids[p][k]]].index
  {
    var c, d := v.f.kids[p][i], v.f.kids[p][k];
    WeakOrder(r, doc, v, p, i, k);
    Siblings(v.f, p, i, k) by { hide RootsOk, ValidDoc, Mirrors; }
    ShowsFacts(r, doc, v);
    AsAsked(r, doc, v, c);
    AsAsked(r, doc, v, d);
    hide Shows, Covering, ValidDoc, Native;
    KeysDistinct(r, doc, v, c, d) by { ShownValid(r, doc, v); }
  }

  lemma WeakOrder(r: Roots, doc: Doc, v: View, p: Id, i: nat, k: nat)
    requires Shows(r, doc, v) && p in v.f.kids && i < k < |v.f.kids[p]|
    requires v.f.kids[p][i] in v.c2l && v.c2l[v.f.kids[p][i]] in doc && v.f.kids[p][k] in v.c2l
    requires v.c2l[v.f.kids[p][k]] in doc
    ensures doc[v.c2l[v.f.kids[p][i]]].index <= doc[v.c2l[v.f.kids[p][k]]].index
  {
    hide WF, RootsOk, Synced, RightParent, ValidDoc;
  }

  lemma ShownValid(r: Roots, doc: Doc, v: View)
    requires Shows(r, doc, v)
    ensures ValidDoc(doc)
  {}

  lemma Siblings(f: Forest, p: Id, i: nat, k: nat)
    requires WF(f) && p in f.kids && i < k < |f.kids[p]|
    ensures f.kids[p][i] != f.kids[p][k]
    ensures f.kids[p][i] in f.par && f.par[f.kids[p][i]] == p && f.kids[p][k] in f.par && f.par[f.kids[p][k]] == p
  {
    hide Acyclic, Shape;
    assert f.kids[p][i] in f.kids[p] && f.kids[p][k] in f.kids[p];
  }

  lemma AsAsked(r: Roots, doc: Doc, v: View, c: Id)
    requires Mirrors(r, doc, v) && c in v.c2l && v.c2l[c] in doc && c in v.f.par
    ensures Native(r, v.l2c, doc[v.c2l[c]].parentId) == v.f.par[c]
  {
    hide Managed, Native, SameInfo;
    assert RightParent(r, doc, v, v.c2l[c]);
  }

  /** The two child lists of corresponding folders correspond. */
  lemma SameLists(doc: Doc, a: View, b: View, p: Id, p': Id, q: Id)
    requires ListsEntries(doc, a, p, q) && ListsEntries(doc, b, p', q) && DistinctSiblings(doc)
    requires Linked(b.l2c, b.c2l)
    ensures b.f.kids[p'] == Twins(a, b, a.f.kids[p])
  {
    var s, s' := a.f.kids[p], b.f.kids[p'];
    var t, t' := Labels(a, s), Labels(b, s');
    forall x, y | x in t && y in t && x != y
      ensures x in IndexKey(doc) && y in IndexKey(doc) && IndexKey(doc)[x] != IndexKey(doc)[y]
    {
      assert doc[x].parentId == q && doc[y].parentId == q;
    }
    SortedUnique(t, t', IndexKey(doc));
    forall i | 0 <= i < |s| ensures s'[i] == Twin(a, b, s[i]) {
      assert s[i] in s && s'[i] in s';
      assert t[i] == t'[i];
      assert b.l2c[b.c2l[s'[i]]] == s'[i];
    }
  }

  // ---- The correspondence ------------------------------------------------------------------------------

  lemma TwinOfNode(rA: Roots, rB: Roots, doc: Doc, a: View, b: View, c: Id)
    requires Shows(rA, doc, a) && Shows(rB, doc, b) && c in Managed(rA, a.f)
    ensures c in a.c2l && a.c2l[c] in doc && a.l2c[a.c2l[c]] == c && Twin(a, b, c) == b.l2c[a.c2l[c]]
    ensures Twin(a, b, c) in Managed(rB, b.f) && Twin(b, a, Twin(a, b, c)) == c
    ensures c in a.f.info && Twin(a, b, c) in b.f.info && b.f.info[Twin(a, b, c)] == a.f.info[c]
  {
    ShowsFacts(rA, doc, a);
    ShowsFacts(rB, doc, b);
    hide Shows, WF, RootsOk, Managed, Covering, RightParent;
    CoveringLinked(rA, a);
    var l := a.c2l[c];
    assert l in a.l2c && l in doc && SameInfo(doc, a, l) && SameInfo(doc, b, l);
    MappedLink(rB, b, l);
  }

  /** A folder of the first browser and the document's name for it. */
  lemma FolderName(rA: Roots, rB: Roots, doc: Doc, a: View, b: View, p: Id, q: Id)
    requires Shows(rA, doc, a) && Shows(rB, doc, b) && (p in Containers(rA, a.f) || p in a.c2l)
    requires p == Native(rA, a.l2c, q) && (IsParentRoot(q) || q in a.l2c)
    ensures TwinFolder(rA, rB, a, b, p) == Native(rB, b.l2c, q) && (IsParentRoot(q) || q in b.l2c)
  {
    ShowsFacts(rA, doc, a);
    ShowsFacts(rB, doc, b);
    CoveringLinked(rA, a);
    CoveringShape(rA, a);
    CoveringShape(rB, b);
    hide Shows, Covering, Managed, WF, RootsOk, Native, Containers;
    NativeCanon(rA, a, p, q);
    if IsParentRoot(q) {
      RootNative(rA, a, q);
      RootNative(rB, b, q);
      RootTarget(rA, a, p, q);
    } else {
      MappedFolder(rA, a, q);
      MappedLink(rA, a, q);
      NotContainer(rA, a, p);
      assert a.c2l[p] == q;
      MappedFolder(rB, b, q);
    }
  }

  lemma RootNative(r: Roots, v: View, q: Id)
    requires r.toNative.Keys == {0, 1, 2, 3} && IsParentRoot(q)
    ensures q in r.toNative && Native(r, v.l2c, q) == r.toNative[q]
  {}

  lemma NodeParents(rA: Roots, rB: Roots, doc: Doc, a: View, b: View, c: Id)
    requires Shows(rA, doc, a) && Shows(rB, doc, b) && c in Managed(rA, a.f)
    ensures c in a.f.par && Twin(a, b, c) in b.f.par && b.f.par[Twin(a, b, c)] == TwinFolder(rA, rB, a, b, a.f.par[c])
  {
    ShowsFacts(rA, doc, a);
    ShowsFacts(rB, doc, b);
    TwinOfNode(rA, rB, doc, a, b, c);
    hide Shows, WF, RootsOk, Managed, Covering, Native, Containers, TwinFolder, Twin, SameInfo;
    var l := a.c2l[c];
    assert RightParent(rA, doc, a, l) && RightParent(rB, doc, b, l);
    ManagedParent(rA, a, c);
    FolderName(rA, rB, doc, a, b, a.f.par[c], doc[l].parentId);
  }

  lemma FolderTwins(rA: Roots, rB: Roots, doc: Doc, a: View, b: View, p: Id)
    requires Shows(rA, doc, a) && Shows(rB, doc, b)
    requires p in a.f.kids && (p in Containers(rA, a.f) || p in Managed(rA, a.f)) && a.f.kids[p] != []
    ensures TwinFolder(rA, rB, a, b, p) in b.f.kids && b.f.kids[TwinFolder(rA, rB, a, b, p)] == Twins(a, b, a.f.kids[p])
  {
    ShowsFacts(rA, doc, a);
    ShowsFacts(rB, doc, b);
    CoveringLinked(rB, b);
    FolderChildren(rA, doc, a, p);
    assert a.f.kids[p][0] in a.f.kids[p];
    var c := a.f.kids[p][0];
    var l := a.c2l[c];
    var q := doc[l].parentId;
    assert RightParent(rA, doc, a, l) && RightParent(rB, doc, b, l);
    assert ValidDoc(doc);
    hide Shows, RootsOk, Managed, Covering, Native, TwinFolder, Twin, SameInfo, Acyclic, Listed;
    FolderName(rA, rB, doc, a, b, p, q);
    MappedLink(rB, b, l);
    ManagedParent(rB, b, b.l2c[l]);
    var p' := TwinFolder(rA, rB, a, b, p);
    assert p' == b.f.par[b.l2c[l]] && p' in b.f.kids;
    hide WF, Containers, ListsEntries;
    FolderLists(rA, doc, a, p, q);
    FolderLists(rB, doc, b, p', q);
    SameLists(doc, a, b, p, p', q);
  }

  /** Two browsers that show the same document are isomorphic. */
  lemma SameDocument(rA: Roots, rB: Roots, doc: Doc, a: View, b: View)
    requires Shows(rA, doc, a) && Shows(rB, doc, b)
    ensures Isomorphic(rA, rB, a, b)
  {
    hide Shows, Managed, Twin, TwinFolder, Containers;
    forall c | c in Managed(rA, a.f)
      ensures Twin(a, b, c) in Managed(rB, b.f) && Twin(b, a, Twin(a, b, c)) == c
      ensures c in a.f.info && Twin(a, b, c) in b.f.info && b.f.info[Twin(a, b, c)] == a.f.info[c]
      ensures c in a.f.par && Twin(a, b, c) in b.f.par && b.f.par[Twin(a, b, c)] == TwinFolder(rA, rB, a, b, a.f.par[c])
    {
      TwinOfNode(rA, rB, doc, a, b, c);
      NodeParents(rA, rB, doc, a, b, c);
    }
    forall d | d in Managed(rB, b.f) ensures Twin(b, a, d) in Managed(rA, a.f) && Twin(a, b, Twin(b, a, d)) == d {
      TwinOfNode(rB, rA, doc, b, a, d);
    }
    forall p | p in a.f.kids && (p in Containers(rA, a.f) || p in Managed(rA, a.f)) && a.f.kids[p] != []
      ensures TwinFolder(rA, rB, a, b, p) in b.f.kids
      ensures b.f.kids[TwinFolder(rA, rB, a, b, p)] == Twins(a, b, a.f.kids[p])
    {
      FolderTwins(rA, rB, doc, a, b, p);
    }
  }

  /** Isomorphic trees have corresponding root containers. */
  lemma IsomorphicRoots(rA: Roots, rB: Roots, doc: Doc, a: View, b: View)
    requires Shows(rA, doc, a) && WF(b.f) && RootsOk(rB, b.f) && Isomorphic(rA, rB, a, b)
    ensures RootsAvailable(rB, doc, b.f)
  {
    hide WF, RootsOk, Shows, Isomorphic, Managed;
    forall l | l in doc && IsParentRoot(doc[l].parentId)
      ensures doc[l].parentId in rB.toNative && rB.toNative[doc[l].parentId] in b.f.par
    {
      IsomorphicRoot(rA, rB, doc, a, b, l);
    }
  }

  lemma IsomorphicRoot(rA: Roots, rB: Roots, doc: Doc, a: View, b: View, l: Id)
    requires Shows(rA, doc, a) && WF(b.f) && RootsOk(rB, b.f) && Isomorphic(rA, rB, a, b) && l in doc
    requires IsParentRoot(doc[l].parentId)
    ensures doc[l].parentId in rB.toNative && rB.toNative[doc[l].parentId] in b.f.par
  {
    ShowsFacts(rA, doc, a);
    CoveringShape(rA, a);
    var c, q := a.l2c[l], doc[l].parentId;
    assert RightParent(rA, doc, a, l);
    MappedLink(rA, a, l);
    ManagedParent(rA, a, c);
    RootNative(rA, a, q);
    RootTarget(rA, a, a.f.par[c], q);
    RootKeys(rB, b.f);
    assert c in Managed(rA, a.f);
    var d := Twin(a, b, c);
    assert d in Managed(rB, b.f) && b.f.par[d] == TwinFolder(rA, rB, a, b, a.f.par[c]);
    hide Shows, Covering, Isomorphic, Native, Twin;
    ParentInside(rB, b.f, d);
  }

  lemma RootKeys(r: Roots, f: Forest)
    requires RootsOk(r, f)
    ensures r.toNative.Keys == {0, 1, 2, 3}
  {}

  /** Cross-device round trip: the document captured from device A, brought by two or more passes to a
      device B that had no managed bookmarks, leaves B's tree isomorphic to A's -- if and only if B has the root
      containers the document uses. That the document is well-formed follows from the capture. */
  lemma CrossDevice(rA: Roots, rB: Roots, doc: Doc, a: View, run: seq<View>, i: nat)
    requires Captured(rA, doc, a)
    requires Run(rB, doc, run) && 2 <= i < |run| && Managed(rB, run[0].f) == {}
    ensures Isomorphic(rA, rB, a, run[i]) <==> RootsAvailable(rB, doc, run[0].f)
    ensures Mirrors(rB, doc, run[i]) <==> RootsAvailable(rB, doc, run[0].f)
  {
    hide Managed, WF, RootsOk, Captured, ValidDoc, Mirrors, Run, RootsForNew, Isomorphic;
    CapturedSettled(rA, doc, a);
    CapturedRootsOk(rA, doc, a);
    CapturedMaps(rA, doc, a);
    EmptyBrowserConverges(rB, doc, run, i);
    RunShape(rB, doc, run, i);
    RunShape(rB, doc, run, 0);
    if Mirrors(rB, doc, run[i]) { SameDocument(rA, rB, doc, a, run[i]); }
    if Isomorphic(rA, rB, a, run[i]) {
      IsomorphicRoots(rA, rB, doc, a, run[i]);
      RunContainers(rB, doc, run, i);
      SameRoots(rB, doc, {}, run[0].f, run[i].f);
    }
  }

  lemma {:induction false} RunContainers(r: Roots, doc: Doc, run: seq<View>, i: nat)
    requires Run(r, doc, run) && i < |run|
    ensures Containers(r, run[i].f) == Containers(r, run[0].f)
  {
    hide Containers, WF, RootsOk, Delivers, Mirrors, ValidDoc, Synced, Fillable, Grounded, OutsideKept, Managed, Linked;
    if i > 0 {
      RunContainers(r, doc, run, i - 1);
      assert Reconciles(r, doc, run[i - 1], run[i - 1 + 1]);
    }
  }

  // ---- Toolbar to toolbar --------------------------------------------------------------------------

  /** A browser's tree with the tables made for it. */
  ghost predicate OwnTables(r: Roots, f: Forest) {
    WF(f) && RootsOk(r, f) && Standing(f, r) && BrowserTree(f)
  }

  ghost predicate ShelfUsed(f: Forest, k: Id)
    requires 1 <= k <= 3
  {
    Shelf(f, k) in f.kids && f.kids[Shelf(f, k)] != []
  }

  /** The second browser has a toolbar if the first one has something in its own, and so on. */
  ghost predicate ShelvesThere(f: Forest, g: Forest) {
    forall k :: 1 <= k <= 3 && ShelfUsed(f, k) ==> Shelf(g, k) in g.par
  }

  /** What is in the one toolbar is in the other, in the same order. */
  ghost predicate SameShelf(a: View, b: View, g: Forest, k: Id)
    requires 1 <= k <= 3
  {
    ShelfUsed(a.f, k) ==> Shelf(g, k) in b.f.kids && b.f.kids[Shelf(g, k)] == Twins(a, b, a.f.kids[Shelf(a.f, k)])
  }

  /** What is in A's toolbar is recorded below "1", and so on. */
  ghost predicate Labelled(doc: Doc, a: View, k: Id)
    requires 1 <= k <= 3
  {
    forall c :: c in a.f.par && a.f.par[c] == Shelf(a.f, k) ==>
      c in a.c2l && a.c2l[c] in doc && doc[a.c2l[c]].parentId == k
  }

  lemma ShelfInForest(f: Forest, k: Id)
    requires WF(f) && BrowserTree(f) && 1 <= k <= 3 && Shelf(f, k) in f.kids
    ensures Shelf(f, k) in f.par
  {
    hide Acyclic, Listed;
  }

  lemma ShelfKept(rA: Roots, rB: Roots, g: Forest, a: View, b: View, k: Id)
    requires OwnTables(rA, a.f) && OwnTables(rB, g) && Isomorphic(rA, rB, a, b) && 1 <= k <= 3
    requires ShelfUsed(a.f, k) ==> Shelf(g, k) in g.par
    ensures SameShelf(a, b, g, k)
  {
    if ShelfUsed(a.f, k) {
      ShelfInForest(a.f, k);
      ShelfStands(a.f, rA, k);
      ShelfStands(g, rB, k);
      hide OwnTables, Twin, Managed, Containers;
      assert TwinFolder(rA, rB, a, b, Shelf(a.f, k)) == Shelf(g, k);
    }
  }

  lemma ShelfChild(r: Roots, doc: Doc, v: View, k: Id, c: Id)
    requires Captured(r, doc, v) && OwnTables(r, v.f) && 1 <= k <= 3 && c in v.f.par && v.f.par[c] == Shelf(v.f, k)
    ensures c in v.c2l && v.c2l[c] in doc && doc[v.c2l[c]].parentId == k
  {
    ManagedIs(r, v.f);
    assert Shelf(v.f, k) in v.f.kids by { hide RootsOk, Standing, BrowserTree, Managed; }
    ShelfInForest(v.f, k);
    ShelfStands(v.f, r, k);
    assert c in Managed(r, v.f) by { hide OwnTables, Captured, Managed; }
    hide OwnTables, Managed, WF, RootsOk, Containers;
    assert v.c2l[c] in v.l2c && v.l2c[v.c2l[c]] == c;
    assert Recorded(r, doc, v, v.c2l[c]);
  }

  lemma ShelfLabels(r: Roots, doc: Doc, v: View, k: Id)
    requires Captured(r, doc, v) && OwnTables(r, v.f) && 1 <= k <= 3
    ensures Labelled(doc, v, k)
  {
    hide Captured, OwnTables;
    forall c | c in v.f.par && v.f.par[c] == Shelf(v.f, k)
      ensures c in v.c2l && v.c2l[c] in doc && doc[v.c2l[c]].parentId == k
    {
      ShelfChild(r, doc, v, k, c);
    }
  }

  lemma ShelfEntry(r: Roots, doc: Doc, v: View, k: Id, l: Id)
    requires Captured(r, doc, v) && OwnTables(r, v.f) && 1 <= k <= 3 && l in doc && doc[l].parentId == k
    ensures ShelfUsed(v.f, k)
  {
    CapturedCovering(r, doc, v);
    CapturedEntry(r, doc, v, l);
    assert RightParent(r, doc, v, l) && Recorded(r, doc, v, l);
    var c := v.l2c[l];
    ManagedParent(r, v, c);
    CanonNative(r, v, v.f.par[c]);
    ShelfStands(v.f, r, k);
    hide Captured, Covering, OwnTables, WF, RootsOk, Standing, BrowserTree;
    assert v.f.par[c] in Containers(r, v.f) by { hide Containers, Native; }
    assert Native(r, v.l2c, k) == r.toNative[k];
  }

  /** The roots the captured document needs are the shelves in use. */
  lemma ShelvesNeeded(rA: Roots, rB: Roots, doc: Doc, a: View, g: Forest)
    requires Captured(rA, doc, a) && OwnTables(rA, a.f) && OwnTables(rB, g)
    ensures RootsAvailable(rB, doc, g) <==> ShelvesThere(a.f, g)
  {
    hide Captured, OwnTables, Shelf, ShelfUsed;
    if ShelvesThere(a.f, g) {
      forall l | l in doc && IsParentRoot(doc[l].parentId)
        ensures doc[l].parentId in rB.toNative && rB.toNative[doc[l].parentId] in g.par
      {
        ShelfEntry(rA, doc, a, doc[l].parentId, l);
        ShelfNative(rB, g, doc[l].parentId);
      }
    }
    if RootsAvailable(rB, doc, g) {
      forall k | 1 <= k <= 3 && ShelfUsed(a.f, k) ensures Shelf(g, k) in g.par {
        var l := UsedEntry(rA, doc, a, k);
        ShelfNative(rB, g, k);
      }
    }
  }

  lemma ShelfNative(r: Roots, f: Forest, k: Id)
    requires OwnTables(r, f) && 1 <= k <= 3
    ensures k in r.toNative && (r.toNative[k] in f.par <==> Shelf(f, k) in f.par)
  {
    ShelfStands(f, r, k);
  }

  lemma UsedEntry(r: Roots, doc: Doc, v: View, k: Id) returns (l: Id)
    requires Captured(r, doc, v) && OwnTables(r, v.f) && 1 <= k <= 3 && ShelfUsed(v.f, k)
    ensures l in doc && doc[l].parentId == k
  {
    var p := Shelf(v.f, k);
    var c := v.f.kids[p][0];
    assert c in v.f.par && v.f.par[c] == p by {
      hide RootsOk, Standing, BrowserTree, Captured;
      assert c in v.f.kids[p];
    }
    ShelfChild(r, doc, v, k, c);
    l := v.c2l[c];
  }

  lemma OnShelf(r: Roots, f: Forest, c: Id)
    requires OwnTables(r, f) && c in f.par && f.par[c] in Containers(r, f)
    ensures exists k :: 1 <= k <= 3 && ShelfUsed(f, k)
  {
    var p := f.par[c];
    assert c in f.kids[p];
    assert 1 <= r.toCanon[p] <= 3 && r.toNative[r.toCanon[p]] == p;
    ShelfStands(f, r, r.toCanon[p]);
    assert ShelfUsed(f, r.toCanon[p]);
  }

  /** A browser with empty shelves has no managed bookmarks. */
  lemma EmptyShelves(r: Roots, f: Forest)
    requires OwnTables(r, f) && forall k :: 1 <= k <= 3 ==> !ShelfUsed(f, k)
    ensures Managed(r, f) == {}
  {
    hide WF, RootsOk, Standing, BrowserTree, Containers, Managed;
    forall c | c in f.par ensures f.par[c] !in Containers(r, f) {
      if f.par[c] in Containers(r, f) { OnShelf(r, f, c); }
    }
    ManagedEq(r, f, {});
  }
}
