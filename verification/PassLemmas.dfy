/** How the steps of one reconcile pass combine. */
module PassLemmas {
  import opened Forests
  import opened ForestOps
  import opened Positions
  import opened Placement
  import opened Documents
  import opened RootTables
  import opened ManagedTree
  import opened BridgeSpec
  import opened CreatePhase
  import opened ContentPhase

  // ---- Moves stay inside the managed tree ---------------------------------------------------

  lemma MappedNotRoot(r: Roots, v: View, c: Id)
    requires Covering(r, v) && c in v.c2l
    ensures c in v.f.par && Ordinary(v.f, c) && c !in r.ids && c !in Containers(r, v.f)
  {
    hide Acyclic, Listed;
    assert v.f.par[c] in Containers(r, v.f) || v.f.par[c] in v.c2l;
  }

  lemma NativeManaged(r: Roots, v: View, p: Id)
    requires Sound(r, v) && (IsRoot(p) || p in v.l2c) && CanHold(v.f, Native(r, v.l2c, p))
    ensures Native(r, v.l2c, p) in Containers(r, v.f) || Native(r, v.l2c, p) in v.c2l
  {
    hide Acyclic, Listed;
  }

  lemma {:induction false} ContentCovering(r: Roots, e: Doc, v: View, current: set<Id>, f: Forest)
    requires Sound(r, v) && ContentInv(e, v, current, f, {}) && WF(f)
    ensures Sound(r, View(f, v.l2c, v.c2l)) && Containers(r, f) == Containers(r, v.f)
    ensures Covering(r, v) ==> Covering(r, View(f, v.l2c, v.c2l))
  {
    hide WF;
  }

  /** After the position step the maps still cover exactly the managed nodes, if they did. */
  lemma PositionsCovering(r: Roots, e: Doc, v: View, current: set<Id>, f: Forest, g: Forest, target: map<Id, Id>)
    requires Sound(r, v) && ContentInv(e, v, current, f, {}) && TargetInv(r, e, v, current, target, {})
    requires WF(f) && WF(g) && Shuffled(f, g, target, {}) && current !! r.ids
    ensures Sound(r, View(g, v.l2c, v.c2l)) && Containers(r, g) == Containers(r, v.f)
    ensures Covering(r, v) ==> Covering(r, View(g, v.l2c, v.c2l))
  {
    var w := View(f, v.l2c, v.c2l);
    ContentCovering(r, e, v, current, f);
    hide WF, ContentInv, RootsOk, IsManaged, Native, CanHold, Linked;
    forall c | c in target
      ensures c in v.c2l && c !in r.ids
      ensures (CanHold(f, target[c]) ==> target[c] in Containers(r, f) || target[c] in v.c2l)
    {
      assert Collected(e, v, current, {}, c);
      if CanHold(f, target[c]) { NativeManaged(r, w, e[v.c2l[c]].parentId); }
    }
    if Covering(r, v) { ShuffledManaged(f, g, target, {}, Containers(r, f), v.c2l.Keys); }
    ShuffledRoots(r, f, g, target);
  }

  lemma ShuffledRoots(r: Roots, f: Forest, g: Forest, target: map<Id, Id>)
    requires RootsOk(r, f) && Shuffled(f, g, target, {}) && forall c :: c in target ==> c !in r.ids
    ensures RootsOk(r, g) && Containers(r, g) == Containers(r, f)
  {
    forall c | c in r.ids && c in f.par ensures g.par[c] == f.par[c] { assert Reached(f, g, target, {}, c); }
  }

  // ---- Contents ------------------------------------------------------------------------------

  /** The snapshot nodes among the mapped ones are exactly those mapped before creation. */
  ghost predicate Split(v: View, w: View, current: set<Id>) {
    forall c {:trigger w.c2l[c]} :: c in w.c2l ==> (c in v.c2l <==> c in current)
  }

  lemma ContentsAgree(r: Roots, doc: Doc, v: View, w: View, current: set<Id>, f: Forest)
    requires Covering(r, w) && Grown(r, doc, v, w) && Split(v, w, current) && KindsMatch(doc, w)
    requires w.l2c.Keys == doc.Keys
    requires ContentInv(doc, w, current, f, {})
    ensures forall l :: l in doc ==> SameInfo(doc, View(f, w.l2c, w.c2l), l)
  {
    forall l | l in doc ensures SameInfo(doc, View(f, w.l2c, w.c2l), l) {
      ContentAgrees(r, doc, v, w, current, f, l);
    }
  }

  lemma ContentAgrees(r: Roots, doc: Doc, v: View, w: View, current: set<Id>, f: Forest, l: Id)
    requires Covering(r, w) && Grown(r, doc, v, w) && Split(v, w, current) && KindsMatch(doc, w) && l in doc
    requires l in w.l2c
    requires ContentInv(doc, w, current, f, {})
    ensures SameInfo(doc, View(f, w.l2c, w.c2l), l)
  {
    hide Acyclic, Listed, RootsOk, Extends;
    var c := w.l2c[l];
    assert c in w.c2l && w.c2l[c] == l && c in w.f.par;
    if c !in current { assert FreshNode(r, doc, v, w, c); }
  }

  // ---- Parents ----------------------------------------------------------------------------------

  lemma NativeKinds(r: Roots, v: View, a: Id)
    requires Covering(r, v) && (IsParentRoot(a) || a in v.l2c)
    ensures IsParentRoot(a) ==> a in r.toNative && Native(r, v.l2c, a) == r.toNative[a] && r.toNative[a] in r.ids
    ensures !IsParentRoot(a) ==>
      Native(r, v.l2c, a) == v.l2c[a] && v.l2c[a] in v.c2l && v.c2l[v.l2c[a]] == a && v.l2c[a] !in r.ids
  {
    if IsParentRoot(a) {
      hide WF, IsManaged;
      assert a in r.toNative && r.toNative[a] in r.ids;
    } else {
      MappedFolder(r, v, a);
      MappedLink(r, v, a);
      MappedNotRoot(r, v, v.l2c[a]);
    }
  }

  lemma MappedLink(r: Roots, v: View, q: Id)
    requires Covering(r, v) && q in v.l2c
    ensures v.l2c[q] in v.c2l && v.c2l[v.l2c[q]] == q && !IsRoot(q)
  {
    hide WF, RootsOk, IsManaged;
  }

  lemma NativeDistinct(r: Roots, v: View, a: Id, b: Id)
    requires Covering(r, v) && (IsParentRoot(a) || a in v.l2c) && (IsParentRoot(b) || b in v.l2c)
    requires Native(r, v.l2c, a) == Native(r, v.l2c, b)
    ensures a == b
  {
    NativeKinds(r, v, a);
    NativeKinds(r, v, b);
    hide WF, IsManaged, Native;
  }

  lemma MappedFolder(r: Roots, v: View, q: Id)
    requires Covering(r, v) && q in v.l2c
    ensures Native(r, v.l2c, q) == v.l2c[q]
  {
    hide Covering, Native;
    CoveringShape(r, v);
    MappedNative(r, v, q);
  }

  lemma CoveringLinked(r: Roots, v: View)
    requires Covering(r, v)
    ensures Linked(v.l2c, v.c2l) && WF(v.f) && RootsOk(r, v.f) && IsManaged(v.f, Containers(r, v.f), v.c2l.Keys)
    ensures Sound(r, v)
  {}

  // ---- The plan of the position step --------------------------------------------------------

  /** Every entry of the document has a parent that is a root or mapped. */
  lemma ParentsMapped(r: Roots, doc: Doc, v: View)
    requires Grounded(doc) && v.l2c.Keys == doc.Keys
    ensures forall l {:trigger doc[l]} :: l in doc ==> IsParentRoot(doc[l].parentId) || doc[l].parentId in v.l2c
  {
    var lev: map<Id, nat> :| Leveled(doc, lev);
    forall l | l in doc
      ensures IsParentRoot(doc[l].parentId) || doc[l].parentId in v.l2c
    {
      assert LevelOk(doc, lev, l);
    }
  }

  ghost predicate DistinctPlan(byFolder: map<Id, seq<Id>>, key: map<Id, int>) {
    forall p {:trigger byFolder[p]} :: p in byFolder ==> DistinctKeys(byFolder[p], key)
  }

  lemma PlannedAim(r: Roots, doc: Doc, v: View, current: set<Id>, target: map<Id, Id>, c: Id)
    requires TargetInv(r, doc, v, current, target, {}) && c in target
    ensures c in v.c2l && c in current && v.c2l[c] in doc && target[c] == Native(r, v.l2c, doc[v.c2l[c]].parentId)
    ensures IsRoot(doc[v.c2l[c]].parentId) || doc[v.c2l[c]].parentId in v.l2c
  {
    hide Native;
    assert Collected(doc, v, current, {}, c);
  }

  lemma KeysDistinct(r: Roots, doc: Doc, v: View, c: Id, d: Id)
    requires Covering(r, v) && ValidDoc(doc) && v.l2c.Keys == doc.Keys
    requires c in v.c2l && d in v.c2l && c != d && v.c2l[c] in doc && v.c2l[d] in doc
    requires Native(r, v.l2c, doc[v.c2l[c]].parentId) == Native(r, v.l2c, doc[v.c2l[d]].parentId)
    ensures c in IndexOf(doc, v.c2l) && d in IndexOf(doc, v.c2l) && IndexOf(doc, v.c2l)[c] != IndexOf(doc, v.c2l)[d]
  {
    ParentsMapped(r, doc, v);
    var a, b := v.c2l[c], v.c2l[d];
    assert a != b by { CoveringLinked(r, v); }
    NativeDistinct(r, v, doc[a].parentId, doc[b].parentId);
    hide Covering;
    assert doc[a].index != doc[b].index;
  }

  lemma PlanDistinct(r: Roots, doc: Doc, v: View, f: Forest, current: set<Id>, byFolder: map<Id, seq<Id>>,
                     target: map<Id, Id>)
    requires Covering(r, v) && ValidDoc(doc) && v.l2c.Keys == doc.Keys
    requires TargetInv(r, doc, v, current, target, {}) && PlanOk(f, byFolder, IndexOf(doc, v.c2l), target)
    ensures DistinctPlan(byFolder, IndexOf(doc, v.c2l))
  {
    hide Covering, Native, TargetInv, ValidDoc;
    var key := IndexOf(doc, v.c2l);
    forall p | p in byFolder ensures DistinctKeys(byFolder[p], key) {
      forall c, d | c in byFolder[p] && d in byFolder[p] && c != d ensures c in key && d in key && key[c] != key[d] {
        PlannedAim(r, doc, v, current, target, c);
        PlannedAim(r, doc, v, current, target, d);
        KeysDistinct(r, doc, v, c, d);
      }
    }
  }

  // ---- What a pass does ------------------------------------------------------------------------

  /** What a pass with a clean purge turns `s` into, for any document from which the orphans have been pruned. A
      grounded document is mapped and shown entry by entry exactly when `Fillable` held, and a tree that already shows
      it is left alone. */
  ghost predicate Reconciles(r: Roots, doc: Doc, s: View, t: View) {
    && OutsideKept(r, s.f, t.f, {}) && Containers(r, t.f) == Containers(r, s.f)
    && Linked(t.l2c, t.c2l) && t.c2l.Keys == Managed(r, t.f) && t.l2c.Keys <= doc.Keys
    && Delivers(r, doc, s, {}, t) && (Grounded(doc) ==> (Synced(r, doc, t) <==> Fillable(r, doc, s)))
    && (ValidDoc(doc) && Mirrors(r, doc, s) ==> t == s)
  }

  /** What every pass does for the pruned document `e`, whatever is mapped and whatever the purge left (`stays`):
      survivors stay and are refreshed; mapped in addition is exactly what can be planted, by new nodes with the entry's
      title, URL and parent; and survivors are moved as `Arranges` says. */
  ghost predicate Delivers(r: Roots, e: Doc, s: View, stays: set<Id>, t: View) {
    var kept := KeptKeys(r, e.Keys, s, stays);
    && SurvivorsStay(r, e, s, t) && Arranges(r, e, s, stays, t)
    && (forall l {:trigger l in t.l2c} :: l in t.l2c <==> l in kept || CanPlant(r, e, s, kept, l))
    && (forall l {:trigger t.l2c[l]} :: l in kept ==> l in t.l2c && t.l2c[l] == s.l2c[l])
    && (forall l {:trigger t.l2c[l]} :: l in t.l2c && l !in kept ==>
          l in e && t.l2c[l] !in s.f.par && SameInfo(e, t, l) && RightParent(r, e, t, l))
  }

  /** What every pass turns `s` into, whatever is mapped: nothing outside the managed tree changes but the child
      lists of mapped nodes, and a mapped node directly below the virtual root neither comes nor goes. */
  ghost predicate Keeps(r: Roots, s: View, t: View) {
    && OutsideKept(r, s.f, t.f, s.c2l.Keys) && Containers(r, t.f) == Containers(r, s.f)
    && (RootStray(t) <==> RootStray(s))
  }

  lemma ViewInfo(doc: Doc, v: View, f: Forest, g: Forest)
    requires g.info == f.info && forall l :: l in doc ==> SameInfo(doc, View(f, v.l2c, v.c2l), l)
    ensures forall l {:trigger doc[l]} :: l in doc ==> SameInfo(doc, View(g, v.l2c, v.c2l), l)
  {
    forall l | l in doc ensures SameInfo(doc, View(g, v.l2c, v.c2l), l) {
      assert SameInfo(doc, View(f, v.l2c, v.c2l), l);
    }
  }

  /** The pass leaves maps, document keys, managed nodes and contents in agreement. */
  lemma PassSynced(r: Roots, doc: Doc, v: View, w: View, current: set<Id>, f: Forest, g: Forest, target: map<Id, Id>)
    requires Covering(r, w) && Grown(r, doc, v, w) && Split(v, w, current) && KindsMatch(doc, w)
    requires w.l2c.Keys == doc.Keys
    requires ContentInv(doc, w, current, f, {}) && TargetInv(r, doc, w, current, target, {})
    requires WF(f) && WF(g) && Shuffled(f, g, target, {}) && current !! r.ids
    ensures Synced(r, doc, View(g, w.l2c, w.c2l))
  {
    hide WF, RootsOk, KindsMatch, ContentInv, TargetInv, Grown, SameInfo, IsManaged;
    ContentsAgree(r, doc, v, w, current, f);
    PositionsCovering(r, doc, w, current, f, g, target);
    ViewInfo(doc, w, f, g);
    ManagedEq(r, g, w.c2l.Keys);
  }

  lemma KindsFromInfo(doc: Doc, v: View)
    requires forall l :: l in doc ==> SameInfo(doc, v, l)
    ensures KindsMatch(doc, v)
  {
    forall l | l in doc && l in v.l2c && v.l2c[l] in v.f.info
      ensures doc[l].url.None? <==> v.f.info[v.l2c[l]].url.None?
    {
      assert SameInfo(doc, v, l);
    }
  }

  lemma SameRoots(r: Roots, doc: Doc, kept: set<Id>, f: Forest, g: Forest)
    requires RootsOk(r, g) && Containers(r, g) == Containers(r, f)
    ensures RootsForNew(r, doc, kept, g) <==> RootsForNew(r, doc, kept, f)
  {
    forall q | q in r.toNative ensures r.toNative[q] in f.par <==> r.toNative[q] in g.par {
      assert r.toNative[q] in Containers(r, f) <==> r.toNative[q] in Containers(r, g);
    }
  }

  lemma ContentFrame(e: Doc, v: View, current: set<Id>, f: Forest)
    requires ContentInv(e, v, current, f, {})
    ensures f.par == v.f.par && f.kids == v.f.kids && f.top == v.f.top
  {}

  lemma PlanEntries(f: Forest, byFolder: map<Id, seq<Id>>, key: map<Id, int>, target: map<Id, Id>, p: Id)
    requires PlanOk(f, byFolder, key, target) && p in byFolder
    ensures byFolder[p] != [] && byFolder[p][0] in byFolder[p]
    ensures forall e :: e in byFolder[p] ==> e in target && target[e] == p && e in key
  {}

  lemma MirrorEntry(r: Roots, doc: Doc, w: View, current: set<Id>, target: map<Id, Id>, e: Id)
    requires Mirrors(r, doc, w) && TargetInv(r, doc, w, current, target, {}) && e in target
    ensures e in w.c2l && e in w.f.par && w.f.par[e] == target[e]
  {
    hide Native;
    PlannedAim(r, doc, w, current, target, e);
    var l := w.c2l[e];
    assert l in w.l2c && w.l2c[l] == e;
    assert RightParent(r, doc, w, l);
  }

  /** A tree that mirrors the document already shows every folder in order. */
  lemma MirrorInPlace(r: Roots, doc: Doc, w: View, current: set<Id>, f: Forest, byFolder: map<Id, seq<Id>>,
                      target: map<Id, Id>)
    requires Covering(r, w) && ValidDoc(doc) && Mirrors(r, doc, w) && TargetInv(r, doc, w, current, target, {})
    requires PlanOk(f, byFolder, IndexOf(doc, w.c2l), target)
    ensures AllInPlace(w.f, byFolder, IndexOf(doc, w.c2l))
  {
    hide ValidDoc, Grounded, DistinctSiblings, TargetInv, Native, Mirrors, PlanOk, IndexOf, WF, RootsOk, Covering,
         Sound, Linked, DistinctKeys, OrderedOn;
    ValidParts(doc);
    CoveringLinked(r, w);
    MirrorKeys(r, doc, w);
    PlanDistinct(r, doc, w, f, current, byFolder, target);
    forall p | p in byFolder ensures InPlace(w.f, p, byFolder[p], IndexOf(doc, w.c2l)) {
      assert DistinctKeys(byFolder[p], IndexOf(doc, w.c2l));
      PlanEntries(f, byFolder, IndexOf(doc, w.c2l), target, p);
      forall e | e in byFolder[p] ensures e in w.f.par && w.f.par[e] == p && e in w.c2l {
        MirrorEntry(r, doc, w, current, target, e);
      }
      ParentHasKids(w.f, byFolder[p][0]);
      MirrorOrdered(r, doc, w, p, SetOf(byFolder[p]));
    }
  }

  lemma MirrorKeys(r: Roots, doc: Doc, w: View)
    requires Mirrors(r, doc, w)
    ensures w.l2c.Keys == doc.Keys
  {}

  lemma ParentHasKids(f: Forest, c: Id)
    requires WF(f) && c in f.par
    ensures f.par[c] in f.kids
  {}

  lemma MirrorOrdered(r: Roots, doc: Doc, w: View, p: Id, d: set<Id>)
    requires Mirrors(r, doc, w) && p in w.f.kids && forall e :: e in d ==> e in w.c2l
    ensures OrderedOn(w.f.kids[p], d, IndexOf(doc, w.c2l))
  {
    var s := w.f.kids[p];
    assert forall c :: c in w.c2l ==> w.c2l[c] in doc;
  }
}
