/** The way from the browser to the document: the entry a managed node stands for, and when a
    document records exactly what the browser shows. */
module Capture {
  import opened Forests
  import opened ForestOps
  import opened Documents
  import opened RootTables
  import opened ManagedTree
  import opened BridgeSpec
  import opened CreatePhase
  import opened PassLemmas

  /** The document entry that describes a browser node. */
  function ToNode(r: Roots, f: Forest, c2l: map<Id, Id>, c: Id): BNode
    requires c in f.par && c in f.info && f.par[c] in f.kids && c in f.kids[f.par[c]]
  {
    var i := f.info[c];
    BNode(i.title, i.url, Canon(r, c2l, f.par[c]), Pos(f.kids[f.par[c]], c), if i.url.Some? then Bookmark else Folder)
  }

  predicate SameEntry(a: BNode, b: BNode) {
    a.title == b.title && a.url == b.url && a.parentId == b.parentId && a.index == b.index
  }

  /** The entry of a mapped node records its title, URL, parent and position. */
  ghost predicate Recorded(r: Roots, doc: Doc, v: View, l: Id) {
    && l in doc && l in v.l2c && v.l2c[l] in v.f.par && v.l2c[l] in v.f.info
    && v.f.par[v.l2c[l]] in v.f.kids && v.l2c[l] in v.f.kids[v.f.par[v.l2c[l]]]
    && doc[l].title == v.f.info[v.l2c[l]].title && doc[l].url == v.f.info[v.l2c[l]].url
    && doc[l].parentId == Canon(r, v.c2l, v.f.par[v.l2c[l]])
    && doc[l].index == Pos(v.f.kids[v.f.par[v.l2c[l]]], v.l2c[l])
  }

  /** The document is an exact record of the managed tree. */
  ghost predicate Captured(r: Roots, doc: Doc, v: View) {
    && WF(v.f) && RootsOk(r, v.f) && Linked(v.l2c, v.c2l)
    && v.l2c.Keys == doc.Keys && v.c2l.Keys == Managed(r, v.f)
    && forall l {:trigger doc[l]} {:trigger l in doc} :: l in doc ==> Recorded(r, doc, v, l)
  }

  /** Translating a managed folder to the document and back gives the folder. */
  lemma CanonNative(r: Roots, v: View, p: Id)
    requires Covering(r, v) && (p in Containers(r, v.f) || p in v.c2l)
    ensures Native(r, v.l2c, Canon(r, v.c2l, p)) == p
    ensures p in Containers(r, v.f) ==> IsParentRoot(Canon(r, v.c2l, p)) && Canon(r, v.c2l, p) in r.toNative
    ensures p in v.c2l ==>
      Canon(r, v.c2l, p) == v.c2l[p] && v.c2l[p] in v.l2c && !IsRoot(v.c2l[p]) && p !in Containers(r, v.f)
  {
    if p in Containers(r, v.f) {
      ContainerCanon(r, v, p);
    } else {
      MappedNotRoot(r, v, p);
      MappedCanon(r, v, p);
      MappedFolder(r, v, v.c2l[p]);
    }
    if p in v.c2l { MappedNotRoot(r, v, p); MappedCanon(r, v, p); }
  }

  lemma ContainerCanon(r: Roots, v: View, p: Id)
    requires Covering(r, v) && p in Containers(r, v.f)
    ensures p in r.toCanon && IsParentRoot(r.toCanon[p]) && r.toCanon[p] in r.toNative && r.toNative[r.toCanon[p]] == p
  {
    hide WF, IsManaged;
    assert v.f.par[p] == v.f.top;
  }

  lemma MappedCanon(r: Roots, v: View, p: Id)
    requires Covering(r, v) && p in v.c2l && p !in r.ids
    ensures p !in r.toCanon && v.c2l[p] in v.l2c && v.l2c[v.c2l[p]] == p && !IsRoot(v.c2l[p])
  {
    hide WF, IsManaged;
    assert v.l2c[v.c2l[p]] == p;
  }

  lemma CapturedCovering(r: Roots, doc: Doc, v: View)
    requires Captured(r, doc, v)
    ensures Covering(r, v)
  {
    ManagedIs(r, v.f);
  }

  lemma ManagedParent(r: Roots, v: View, c: Id)
    requires Covering(r, v) && c in v.c2l
    ensures c in v.f.par && (v.f.par[c] in Containers(r, v.f) || v.f.par[c] in v.c2l)
  {
    hide WF, RootsOk, Linked, Containers;
  }

  lemma RecordedRight(r: Roots, doc: Doc, v: View, l: Id)
    requires Covering(r, v) && Recorded(r, doc, v, l)
    ensures RightParent(r, doc, v, l) && SameInfo(doc, v, l)
  {
    MappedLink(r, v, l);
    hide Covering, Native;
    ManagedParent(r, v, v.l2c[l]);
    CanonNative(r, v, v.f.par[v.l2c[l]]);
  }

  lemma CapturedEntry(r: Roots, doc: Doc, v: View, l: Id)
    requires Captured(r, doc, v) && l in doc
    ensures Recorded(r, doc, v, l) && v.l2c[l] in v.c2l && v.c2l[v.l2c[l]] == l && RightParent(r, doc, v, l)
    ensures SameInfo(doc, v, l)
  {
    CapturedCovering(r, doc, v);
    assert Recorded(r, doc, v, l);
    hide Captured, Covering, Native;
    RecordedRight(r, doc, v, l);
    MappedLink(r, v, l);
  }

  lemma CapturedMaps(r: Roots, doc: Doc, v: View)
    requires Captured(r, doc, v)
    ensures Linked(v.l2c, v.c2l) && v.l2c.Keys == doc.Keys && v.c2l.Keys == Managed(r, v.f) && WF(v.f)
  {
    hide WF, RootsOk, Managed, Linked, Recorded;
  }

  /** An exact record mirrors the tree. */
  lemma CapturedMirrors(r: Roots, doc: Doc, v: View)
    requires Captured(r, doc, v)
    ensures Mirrors(r, doc, v)
  {
    hide Captured, RootsOk, Managed, WF, Linked, Recorded, RightParent, SameInfo;
    CapturedMaps(r, doc, v);
    forall l | l in doc ensures RightParent(r, doc, v, l) && SameInfo(doc, v, l) { CapturedEntry(r, doc, v, l); }
    forall p, i, k | p in v.f.kids && 0 <= i < k < |v.f.kids[p]| && v.f.kids[p][i] in v.c2l && v.f.kids[p][k] in v.c2l
      ensures v.c2l[v.f.kids[p][i]] in doc && v.c2l[v.f.kids[p][k]] in doc
      ensures doc[v.c2l[v.f.kids[p][i]]].index < doc[v.c2l[v.f.kids[p][k]]].index
    {
      RecordedIndex(r, doc, v, p, i);
      RecordedIndex(r, doc, v, p, k);
    }
  }

  lemma RecordedIndex(r: Roots, doc: Doc, v: View, p: Id, i: nat)
    requires Captured(r, doc, v) && p in v.f.kids && i < |v.f.kids[p]| && v.f.kids[p][i] in v.c2l
    ensures v.c2l[v.f.kids[p][i]] in doc && doc[v.c2l[v.f.kids[p][i]]].index == i
  {
    hide RootsOk, Managed, Native, Acyclic;
    var c := v.f.kids[p][i];
    assert c in v.f.kids[p];
    var l := v.c2l[c];
    assert l in v.l2c && v.l2c[l] == c;
    assert Recorded(r, doc, v, l);
    PosOfNth(v.f.kids[p], i);
  }

  // ---- A record of a browser tree is a well-formed document -----------------------------------

  /** Depth of a managed node below its root container. */
  ghost function NodeDepth(f: Forest, cs: set<Id>, m: set<Id>, rank: map<Id, nat>, c: Id): nat
    requires IsManaged(f, cs, m) && Ranked(f.par, rank) && c in m
    decreases rank[c]
  {
    if f.par[c] in cs then 1 else NodeDepth(f, cs, m, rank, f.par[c]) + 1
  }

  lemma CapturedLevel(r: Roots, doc: Doc, v: View, cs: set<Id>, rank: map<Id, nat>, lev: map<Id, nat>, l: Id)
    requires Captured(r, doc, v) && Ranked(v.f.par, rank) && cs == Containers(r, v.f) && IsManaged(v.f, cs, v.c2l.Keys)
    requires lev.Keys == doc.Keys && l in doc
    requires forall k :: k in doc ==> v.l2c[k] in v.c2l && lev[k] == NodeDepth(v.f, cs, v.c2l.Keys, rank, v.l2c[k])
    ensures LevelOk(doc, lev, l)
  {
    hide Captured, RootsOk, Managed, WF, Linked, Covering, Containers;
    CapturedMaps(r, doc, v);
    CapturedCovering(r, doc, v);
    CapturedEntry(r, doc, v, l);
    MappedLink(r, v, l);
    var c := v.l2c[l];
    ManagedParent(r, v, c);
    var p := v.f.par[c];
    CanonNative(r, v, p);
    assert doc[l].parentId == Canon(r, v.c2l, p);
    assert Ranked(v.f.par, rank) && c in v.f.par;
    hide Recorded, Canon, Native, RightParent, SameInfo, IsManaged;
    if p in v.c2l {
      var q := v.c2l[p];
      MappedCanonic(r, doc, v, p);
      MappedHasKids(r, v, c);
      FolderEntry(r, doc, v, q);
    }
  }

  lemma MappedHasKids(r: Roots, v: View, c: Id)
    requires Covering(r, v) && c in v.f.par
    ensures v.f.par[c] in v.f.kids
  {
    hide RootsOk, IsManaged, Linked, Acyclic, Listed;
  }

  lemma MappedCanonic(r: Roots, doc: Doc, v: View, p: Id)
    requires Captured(r, doc, v) && p in v.c2l
    ensures v.c2l[p] in doc && v.l2c[v.c2l[p]] == p
  {
    hide WF, RootsOk, Managed;
  }

  lemma FolderEntry(r: Roots, doc: Doc, v: View, q: Id)
    requires Captured(r, doc, v) && q in doc && v.l2c[q] in v.f.kids
    ensures doc[q].url.None?
  {
    hide RootsOk, Managed, Acyclic, Listed;
    assert Recorded(r, doc, v, q);
  }

  lemma CapturedDistinct(r: Roots, doc: Doc, v: View, a: Id, b: Id)
    requires Captured(r, doc, v) && Covering(r, v) && a in doc && b in doc && a != b
    requires doc[a].parentId == doc[b].parentId
    ensures doc[a].index != doc[b].index
  {
    MappedLink(r, v, a);
    MappedLink(r, v, b);
    RecordedRight(r, doc, v, a) by { assert Recorded(r, doc, v, a); }
    RecordedRight(r, doc, v, b) by { assert Recorded(r, doc, v, b); }
    assert Recorded(r, doc, v, a) && Recorded(r, doc, v, b);
    hide WF, RootsOk, Managed, Covering, Captured;
    var x, y, s := v.l2c[a], v.l2c[b], v.f.kids[v.f.par[v.l2c[a]]];
    assert s[Pos(s, x)] == x && s[Pos(s, y)] == y;
  }

  lemma CapturedLeveled(r: Roots, doc: Doc, v: View) returns (lev: map<Id, nat>)
    requires Captured(r, doc, v)
    ensures Leveled(doc, lev)
  {
    hide *;
    CapturedMaps(r, doc, v);
    var rank := SomeRank(v.f);
    CapturedCovering(r, doc, v);
    CoveringLinked(r, v);
    MappedAll(r, doc, v);
    var cs := Containers(r, v.f);
    lev := map k | k in doc :: NodeDepth(v.f, cs, v.c2l.Keys, rank, v.l2c[k]);
    forall l | l in doc ensures LevelOk(doc, lev, l) { CapturedLevel(r, doc, v, cs, rank, lev, l); }
    LeveledFrom(doc, lev);
  }

  lemma SomeRank(f: Forest) returns (rank: map<Id, nat>)
    requires WF(f)
    ensures Ranked(f.par, rank)
  {
    rank :| Ranked(f.par, rank);
  }

  lemma MappedAll(r: Roots, doc: Doc, v: View)
    requires Captured(r, doc, v)
    ensures forall k :: k in doc ==> k in v.l2c && v.l2c[k] in v.c2l
  {
    hide WF, RootsOk, Managed, Recorded;
  }

  /** A record of a browser tree meets everything a reconcile pass needs. */
  lemma CapturedValid(r: Roots, doc: Doc, v: View)
    requires Captured(r, doc, v)
    ensures Reconcilable(r, doc, v) && ValidDoc(doc)
  {
    hide Captured, RootsOk, Managed, WF, Linked, Covering, Leveled, SameInfo, RightParent, Recorded;
    CapturedCovering(r, doc, v);
    var lev := CapturedLeveled(r, doc, v);
    forall a, b | a in doc && b in doc && a != b && doc[a].parentId == doc[b].parentId
      ensures doc[a].index != doc[b].index
    {
      CapturedDistinct(r, doc, v, a, b);
    }
    forall l | l in doc ensures SameInfo(doc, v, l) { CapturedEntry(r, doc, v, l); }
    KindsFromInfo(doc, v);
    forall l | l in doc && IsParentRoot(doc[l].parentId)
      ensures doc[l].parentId in r.toNative && r.toNative[doc[l].parentId] in v.f.par
    {
      CapturedRoot(r, doc, v, l);
    }
  }

  lemma CapturedRoot(r: Roots, doc: Doc, v: View, l: Id)
    requires Captured(r, doc, v) && Covering(r, v) && l in doc && IsParentRoot(doc[l].parentId)
    ensures doc[l].parentId in r.toNative && r.toNative[doc[l].parentId] in v.f.par
  {
    MappedLink(r, v, l);
    assert Recorded(r, doc, v, l);
    ManagedParent(r, v, v.l2c[l]);
    CanonNative(r, v, v.f.par[v.l2c[l]]);
    hide WF, Managed, RootsOk;
  }
}
