/** Merging the browser's current state into the document: the three loops as steps on values. */
module LocalMerge {
  import opened Forests
  import opened Positions
  import opened Documents
  import opened RootTables
  import opened ManagedTree
  import opened BridgeSpec
  import opened CreatePhase
  import opened Capture

  ghost predicate KindSane(n: BNode) {
    n.kind == (if n.url.Some? then Bookmark else Folder)
  }

  ghost predicate KindsSane(doc: Doc) {
    forall l {:trigger doc[l]} :: l in doc ==> KindSane(doc[l])
  }

  ghost predicate Listable(f: Forest, c: Id) {
    c in f.par && c in f.info && f.par[c] in f.kids && c in f.kids[f.par[c]]
  }

  lemma ListableNode(f: Forest, c: Id)
    requires WF(f) && c in f.par
    ensures Listable(f, c)
  {}

  /** The parent of `c` is a root container or mapped, so that its translation is settled. */
  ghost predicate ParentSettled(r: Roots, f: Forest, c2l: map<Id, Id>, c: Id) {
    c in f.par && (f.par[c] in r.toCanon || f.par[c] in c2l)
  }

  lemma ToNodeStable(r: Roots, f: Forest, c2l: map<Id, Id>, c2l': map<Id, Id>, c: Id)
    requires Listable(f, c) && ParentSettled(r, f, c2l, c)
    requires f.par[c] in c2l ==> f.par[c] in c2l' && c2l'[f.par[c]] == c2l[f.par[c]]
    ensures ToNode(r, f, c2l', c) == ToNode(r, f, c2l, c) && ParentSettled(r, f, c2l', c)
  {}

  // ---- Step 1: nodes added while offline -----------------------------------------------------

  /** `l` was added in this merge and records its node. */
  ghost predicate AddedEntry(r: Roots, d: Doc, v: View, l: Id) {
    && l in d && l in v.l2c && Listable(v.f, v.l2c[l]) && ParentSettled(r, v.f, v.c2l, v.l2c[l])
    && d[l] == ToNode(r, v.f, v.c2l, v.l2c[l])
  }

  ghost predicate AddFrame(d0: Doc, v0: View, d: Doc, v: View, seen: set<Id>) {
    && v.f == v0.f && Linked(v.l2c, v.c2l)
    && (forall l {:trigger l in v0.l2c} {:trigger v.l2c[l]} :: l in v0.l2c ==> l in v.l2c && v.l2c[l] == v0.l2c[l])
    && v.c2l.Keys == v0.c2l.Keys + seen
    && (forall c {:trigger c in v0.c2l} {:trigger v.c2l[c]} :: c in v0.c2l ==> c in v.c2l && v.c2l[c] == v0.c2l[c])
    && (forall l {:trigger l in d0} {:trigger d[l]} :: l in d0 ==> l in d && d[l] == d0[l])
    && d.Keys == d0.Keys + (v.l2c.Keys - v0.l2c.Keys)
  }

  ghost predicate AddedAll(r: Roots, d0: Doc, v0: View, d: Doc, v: View) {
    forall l {:trigger v.l2c[l]} :: l in v.l2c && l !in v0.l2c ==> l !in d0 && AddedEntry(r, d, v, l)
  }

  ghost predicate AddInv(r: Roots, d0: Doc, v0: View, d: Doc, v: View, seen: set<Id>) {
    AddFrame(d0, v0, d, v, seen) && AddedAll(r, d0, v0, d, v)
  }

  lemma AddStart(r: Roots, d0: Doc, v0: View)
    requires Linked(v0.l2c, v0.c2l)
    ensures AddInv(r, d0, v0, d0, v0, {})
  {}

  lemma AddKnown(r: Roots, d0: Doc, v0: View, d: Doc, v: View, seen: set<Id>, c: Id)
    requires AddInv(r, d0, v0, d, v, seen) && c in v.c2l
    ensures AddInv(r, d0, v0, d, v, seen + {c})
  {
    hide AddedEntry, Linked;
    assert v0.c2l.Keys + (seen + {c}) == v.c2l.Keys;
  }

  lemma AddFrameStep(d0: Doc, v0: View, d: Doc, v: View, seen: set<Id>, c: Id, l: Id, n: BNode)
    requires AddFrame(d0, v0, d, v, seen) && c !in v.c2l && l !in v.l2c && l !in d && !IsRoot(l)
    ensures AddFrame(d0, v0, d[l := n], View(v.f, v.l2c[l := c], v.c2l[c := l]), seen + {c})
  {
    AddedLinked(v.l2c, v.c2l, l, c);
    hide Linked;
    assert v.c2l[c := l].Keys == v0.c2l.Keys + (seen + {c});
    assert l !in v0.l2c;
    assert d[l := n].Keys == d0.Keys + (v.l2c[l := c].Keys - v0.l2c.Keys);
  }

  lemma AddStep(r: Roots, d0: Doc, v0: View, d: Doc, v: View, seen: set<Id>, c: Id, l: Id)
    requires AddInv(r, d0, v0, d, v, seen) && c !in v.c2l && Listable(v.f, c) && ParentSettled(r, v.f, v.c2l, c)
    requires l !in v.l2c && l !in d && !IsRoot(l)
    ensures AddInv(r, d0, v0, d[l := ToNode(r, v.f, v.c2l, c)], View(v.f, v.l2c[l := c], v.c2l[c := l]), seen + {c})
  {
    var w := View(v.f, v.l2c[l := c], v.c2l[c := l]);
    var e := d[l := ToNode(r, v.f, v.c2l, c)];
    AddFrameStep(d0, v0, d, v, seen, c, l, ToNode(r, v.f, v.c2l, c));
    ToNodeStable(r, v.f, v.c2l, w.c2l, c);
    NewKey(d0, v0, d, v, seen, l);
    AddedNow(r, e, v, w, l, c);
    hide ToNode, Listable, ParentSettled, AddFrame, AddedEntry;
    AddedMore(r, d0, v0, d, v, e, w, c, l);
  }

  lemma AddedMore(r: Roots, d0: Doc, v0: View, d: Doc, v: View, e: Doc, w: View, c: Id, l: Id)
    requires AddedAll(r, d0, v0, d, v) && w == View(v.f, v.l2c[l := c], v.c2l[c := l]) && c !in v.c2l && l !in d0
    requires l !in d
    requires l in e && e == d[l := e[l]] && AddedEntry(r, e, w, l)
    ensures AddedAll(r, d0, v0, e, w)
  {
    hide AddedEntry;
    forall k | k in w.l2c && k !in v0.l2c ensures k !in d0 && AddedEntry(r, e, w, k) {
      if k != l {
        assert w.l2c[k] == v.l2c[k];
        AddedDoc(r, d, v, k);
        AddedStays(r, d, v, e, w, k);
      }
    }
  }

  lemma NewKey(d0: Doc, v0: View, d: Doc, v: View, seen: set<Id>, l: Id)
    requires AddFrame(d0, v0, d, v, seen) && l !in v.l2c && l !in d
    ensures l !in d0 && l !in v0.l2c
  {}

  lemma AddedDoc(r: Roots, d: Doc, v: View, k: Id)
    requires AddedEntry(r, d, v, k)
    ensures k in d && k in v.l2c
  {}

  lemma AddedNow(r: Roots, e: Doc, v: View, w: View, l: Id, c: Id)
    requires l in e && w.f == v.f && l in w.l2c && w.l2c[l] == c && Listable(v.f, c) && ParentSettled(r, v.f, w.c2l, c)
    requires e[l] == ToNode(r, v.f, w.c2l, c)
    ensures AddedEntry(r, e, w, l)
  {}

  lemma AddedStays(r: Roots, d: Doc, v: View, e: Doc, w: View, k: Id)
    requires AddedEntry(r, d, v, k) && k in e && e[k] == d[k] && w.f == v.f && k in w.l2c && w.l2c[k] == v.l2c[k]
    requires forall c :: c in v.c2l ==> c in w.c2l && w.c2l[c] == v.c2l[c]
    ensures AddedEntry(r, e, w, k)
  {
    ToNodeStable(r, v.f, v.c2l, w.c2l, v.l2c[k]);
  }

  // ---- Step 2: entries whose node is gone --------------------------------------------------------

  /** Mapped entries of the document whose node is not managed any more. */
  ghost predicate Dead(d: Doc, v: View, m: set<Id>, l: Id) {
    l in d && l in v.l2c && v.l2c[l] !in m
  }

  ghost predicate DropInv(d1: Doc, v1: View, m: set<Id>, d: Doc, v: View, gone: set<Id>) {
    && v.f == v1.f && Linked(v.l2c, v.c2l)
    && d == d1 - gone && v.l2c == v1.l2c - gone
    && (forall l :: l in gone ==> Dead(d1, v1, m, l))
    && (forall c :: c in v.c2l <==> c in v1.c2l && v1.c2l[c] !in gone)
    && (forall c {:trigger v.c2l[c]} :: c in v.c2l ==> c in v1.c2l && v.c2l[c] == v1.c2l[c])
  }

  lemma DropStart(d1: Doc, v1: View, m: set<Id>)
    requires Linked(v1.l2c, v1.c2l)
    ensures DropInv(d1, v1, m, d1, v1, {})
  {
    assert d1 - {} == d1;
    assert v1.l2c - {} == v1.l2c;
  }

  lemma DropStep(d1: Doc, v1: View, m: set<Id>, d: Doc, v: View, gone: set<Id>, l: Id)
    requires Linked(v1.l2c, v1.c2l) && DropInv(d1, v1, m, d, v, gone) && l in v.l2c && Dead(d1, v1, m, l)
    ensures DropInv(d1, v1, m, d - {l}, View(v.f, v.l2c - {l}, v.c2l - {v.l2c[l]}), gone + {l})
  {
    var c0 := v.l2c[l];
    assert v1.l2c[l] == c0 && v1.c2l[c0] == l && v.c2l[c0] == l;
    assert d - {l} == d1 - (gone + {l});
    assert v.l2c - {l} == v1.l2c - (gone + {l});
    var w := View(v.f, v.l2c - {l}, v.c2l - {c0});
    forall k | k in w.l2c ensures !IsRoot(k) && w.l2c[k] in w.c2l && w.c2l[w.l2c[k]] == k {
      assert v.l2c[k] in v.c2l && v.c2l[v.l2c[k]] == k;
    }
    forall c | c in w.c2l ensures w.c2l[c] in w.l2c && w.l2c[w.c2l[c]] == c {
      assert v.c2l[c] in v.l2c && v.l2c[v.c2l[c]] == c;
    }
    forall c ensures c in w.c2l <==> c in v1.c2l && v1.c2l[c] !in gone + {l} {
      if c in v1.c2l { assert v1.l2c[v1.c2l[c]] == c; }
    }
  }

  // ---- Step 3: entries that changed ------------------------------------------------------------------

  /** A live mapped entry records its node: it is as it was if it did so already, and rewritten if not. */
  ghost predicate Refound(r: Roots, d2: Doc, d: Doc, v: View, l: Id) {
    && l in d2 && l in d && Recorded(r, d, v, l)
    && if Recorded(r, d2, v, l) then d[l] == d2[l] else KindSane(d[l])
  }

  ghost predicate UpdateInv(r: Roots, d2: Doc, v: View, m: set<Id>, d: Doc, todo: set<Id>) {
    && d.Keys == d2.Keys
    && (forall l {:trigger d[l]} :: l in d && (l !in v.l2c || v.l2c[l] !in m || l in todo) ==> d[l] == d2[l])
    && (forall l {:trigger d[l]} :: l in d && l in v.l2c && v.l2c[l] in m && l !in todo ==> Refound(r, d2, d, v, l))
  }

  lemma UpdateStep(r: Roots, d2: Doc, v: View, m: set<Id>, d: Doc, todo: set<Id>, l: Id, e: Doc)
    requires UpdateInv(r, d2, v, m, d, todo) && l in todo && l in d
    requires l in v.l2c && v.l2c[l] in m ==> Listable(v.f, v.l2c[l])
    requires e == if l in v.l2c && v.l2c[l] in m && !SameEntry(d[l], ToNode(r, v.f, v.c2l, v.l2c[l]))
                  then d[l := ToNode(r, v.f, v.c2l, v.l2c[l])] else d
    ensures UpdateInv(r, d2, v, m, e, todo - {l})
  {
    assert d[l] == d2[l];
    forall k | k in e && k in v.l2c && v.l2c[k] in m && k !in todo - {l} ensures Refound(r, d2, e, v, k) {
      if k != l { assert d[k] == e[k]; assert Refound(r, d2, d, v, k); }
    }
  }

  // ---- Result ----------------------------------------------------------------------------------

  lemma MergeResult(r: Roots, d0: Doc, v0: View, d1: Doc, v1: View, gone: set<Id>, d2: Doc, v2: View, d: Doc)
    requires WF(v0.f) && RootsOk(r, v0.f) && Linked(v0.l2c, v0.c2l)
    requires AddInv(r, d0, v0, d1, v1, Managed(r, v0.f))
    requires DropInv(d1, v1, Managed(r, v0.f), d2, v2, gone)
    requires forall l :: l in d2 && l in v2.l2c ==> v2.l2c[l] in Managed(r, v0.f)
    requires UpdateInv(r, d2, v2, Managed(r, v0.f), d, {})
    ensures v0.l2c.Keys == d0.Keys ==> Captured(r, d, v2)
    ensures forall l :: l in d0 && l !in v0.l2c ==> l in d && d[l] == d0[l]
    ensures forall l :: l in v0.l2c && v0.l2c[l] in Managed(r, v0.f) ==> l in v2.l2c && v2.l2c[l] == v0.l2c[l]
    ensures forall c :: c in Managed(r, v0.f) ==> NodeMerged(r, d0, v0, d, v2, c)
    ensures forall l :: l in d0 && l in v0.l2c && v0.l2c[l] !in Managed(r, v0.f) ==> l !in d
    ensures forall l :: l in d && l !in d0 ==> l in v2.l2c && v2.l2c[l] in Managed(r, v0.f) && v2.l2c[l] !in v0.c2l
    ensures KindsSane(d0) ==> KindsSane(d)
  {
    hide WF, RootsOk, Managed, AddInv, DropInv, UpdateInv, NodeMerged, Linked;
    if v0.l2c.Keys == d0.Keys { MergeCaptured(r, d0, v0, d1, v1, gone, d2, v2, d); }
    MergeFrame(r, d0, v0, d1, v1, gone, d2, v2, d);
    MergeKinds(r, d0, v0, d1, v1, gone, d2, v2, d);
    forall c | c in Managed(r, v0.f)
      ensures NodeMerged(r, d0, v0, d, v2, c)
    {
      MergeNode(r, d0, v0, d1, v1, gone, d2, v2, d, c);
    }
    forall l | l in d0 && l in v0.l2c && v0.l2c[l] !in Managed(r, v0.f) ensures l !in d {
      DeadDropped(r, d0, v0, d1, v1, gone, d2, v2, d, l);
    }
    forall l | l in d && l !in d0 ensures l in v2.l2c && v2.l2c[l] in Managed(r, v0.f) && v2.l2c[l] !in v0.c2l {
      NewEntry(r, d0, v0, d1, v1, gone, d2, v2, d, l);
    }
  }

  lemma NewEntry(r: Roots, d0: Doc, v0: View, d1: Doc, v1: View, gone: set<Id>, d2: Doc, v2: View, d: Doc, l: Id)
    requires Linked(v0.l2c, v0.c2l) && l in d && l !in d0
    requires AddInv(r, d0, v0, d1, v1, Managed(r, v0.f)) && DropInv(d1, v1, Managed(r, v0.f), d2, v2, gone)
    requires forall l :: l in d2 && l in v2.l2c ==> v2.l2c[l] in Managed(r, v0.f)
    requires UpdateInv(r, d2, v2, Managed(r, v0.f), d, {})
    ensures l in v2.l2c && v2.l2c[l] in Managed(r, v0.f) && v2.l2c[l] !in v0.c2l
  {
    hide Managed, AddedEntry, Refound;
    assert l in d2 && l in d1 && l in v1.l2c && l !in v0.l2c;
    assert l in v2.l2c && v2.l2c[l] == v1.l2c[l];
    var c := v1.l2c[l];
    assert v1.c2l[c] == l;
    LaterNode(v0, v1, c);
  }

  lemma LaterNode(v0: View, v1: View, c: Id)
    requires Linked(v0.l2c, v0.c2l) && c in v1.c2l && v1.c2l[c] !in v0.l2c
    requires forall k {:trigger k in v0.c2l} :: k in v0.c2l ==> k in v1.c2l && v1.c2l[k] == v0.c2l[k]
    ensures c !in v0.c2l
  {}

  lemma DeadDropped(r: Roots, d0: Doc, v0: View, d1: Doc, v1: View, gone: set<Id>, d2: Doc, v2: View, d: Doc, l: Id)
    requires l in v0.l2c && v0.l2c[l] !in Managed(r, v0.f)
    requires AddInv(r, d0, v0, d1, v1, Managed(r, v0.f)) && DropInv(d1, v1, Managed(r, v0.f), d2, v2, gone)
    requires forall l :: l in d2 && l in v2.l2c ==> v2.l2c[l] in Managed(r, v0.f)
    requires UpdateInv(r, d2, v2, Managed(r, v0.f), d, {})
    ensures l !in d
  {
    hide Managed, AddedAll, Refound, Linked;
    assert v1.l2c[l] == v0.l2c[l];
    assert l !in gone ==> l in v2.l2c && v2.l2c[l] == v0.l2c[l];
  }

  /** The entry records its node. One that did so already is as it was, kind included; any other says what the node is.
      */
  ghost predicate Refreshes(r: Roots, d0: Doc, d: Doc, v: View, l: Id) {
    && Recorded(r, d, v, l)
    && if l in d0 && Recorded(r, d0, v, l) then d[l] == d0[l]
       else d[l].kind == if d[l].url.Some? then Bookmark else Folder
  }

  /** What the merge leaves for a managed node, whatever the mapping covered before: it is mapped, and its
      entry records it, unless the node's entry had already left the document (a remote deletion). */
  ghost predicate NodeMerged(r: Roots, d0: Doc, v0: View, d: Doc, v: View, c: Id) {
    && c in v.c2l
    && if c in v0.c2l && v0.c2l[c] !in d0 then v.c2l[c] == v0.c2l[c] && v.c2l[c] !in d
       else Refreshes(r, d0, d, v, v.c2l[c])
  }

  lemma MergeNode(r: Roots, d0: Doc, v0: View, d1: Doc, v1: View, gone: set<Id>, d2: Doc, v2: View, d: Doc, c: Id)
    requires Linked(v0.l2c, v0.c2l) && c in Managed(r, v0.f)
    requires AddInv(r, d0, v0, d1, v1, Managed(r, v0.f)) && DropInv(d1, v1, Managed(r, v0.f), d2, v2, gone)
    requires UpdateInv(r, d2, v2, Managed(r, v0.f), d, {})
    ensures NodeMerged(r, d0, v0, d, v2, c)
  {
    hide Managed, Recorded, Refreshes, Refound, AddedEntry;
    assert c in v1.c2l;
    var l := v1.c2l[c];
    assert l in v1.l2c && v1.l2c[l] == c;
    assert l !in gone && c in v2.c2l && v2.c2l[c] == l && l in v2.l2c && v2.l2c[l] == c;
    if c in v0.c2l {
      assert v0.c2l[c] == l && l in v0.l2c;
    } else {
      assert l !in v0.l2c by { LaterKey(v0, v1, c, l); }
      AddedKind(r, d1, v1, l);
    }
    if l in d { RefreshedFrom(r, d0, d2, d, v2, l); }
  }

  lemma AddedKind(r: Roots, d: Doc, v: View, l: Id)
    requires AddedEntry(r, d, v, l)
    ensures l in d && KindSane(d[l])
  {}

  lemma RefreshedFrom(r: Roots, d0: Doc, d2: Doc, d: Doc, v: View, l: Id)
    requires Refound(r, d2, d, v, l) && if l in d0 then d2[l] == d0[l] else KindSane(d2[l])
    ensures Refreshes(r, d0, d, v, l)
  {}

  lemma LaterKey(v0: View, v1: View, c: Id, l: Id)
    requires Linked(v0.l2c, v0.c2l) && c !in v0.c2l && l in v1.l2c && v1.l2c[l] == c
    requires forall k :: k in v0.l2c ==> k in v1.l2c && v1.l2c[k] == v0.l2c[k]
    ensures l !in v0.l2c
  {
    assert forall k :: k in v0.l2c ==> v0.l2c[k] in v0.c2l;
  }

  lemma MergeFrame(r: Roots, d0: Doc, v0: View, d1: Doc, v1: View, gone: set<Id>, d2: Doc, v2: View, d: Doc)
    requires Linked(v0.l2c, v0.c2l)
    requires AddInv(r, d0, v0, d1, v1, Managed(r, v0.f)) && DropInv(d1, v1, Managed(r, v0.f), d2, v2, gone)
    requires UpdateInv(r, d2, v2, Managed(r, v0.f), d, {})
    ensures forall l :: l in d0 && l !in v0.l2c ==> l in d && d[l] == d0[l]
    ensures forall l :: l in v0.l2c && v0.l2c[l] in Managed(r, v0.f) ==> l in v2.l2c && v2.l2c[l] == v0.l2c[l]
  {
    hide Managed, AddedEntry, Refound;
    forall l | l in d0 && l !in v0.l2c ensures l in d && d[l] == d0[l] {
      assert l in d1 && d1[l] == d0[l];
      UnmappedStays(r, d0, v0, d1, v1, l);
      assert l !in gone;
      assert l in d2 && d2[l] == d0[l];
    }
    forall l | l in v0.l2c && v0.l2c[l] in Managed(r, v0.f) ensures l in v2.l2c && v2.l2c[l] == v0.l2c[l] {
      assert l in v1.l2c && v1.l2c[l] == v0.l2c[l];
      assert l !in gone;
    }
  }

  lemma UnmappedStays(r: Roots, d0: Doc, v0: View, d1: Doc, v1: View, l: Id)
    requires AddedAll(r, d0, v0, d1, v1) && l in d0 && l !in v0.l2c
    ensures l !in v1.l2c
  {
    hide AddedEntry;
    assert forall k :: k in v1.l2c && v1.l2c[k] == v1.l2c[k] && k !in v0.l2c ==> k !in d0;
  }

  lemma MergeKinds(r: Roots, d0: Doc, v0: View, d1: Doc, v1: View, gone: set<Id>, d2: Doc, v2: View, d: Doc)
    requires AddInv(r, d0, v0, d1, v1, Managed(r, v0.f)) && DropInv(d1, v1, Managed(r, v0.f), d2, v2, gone)
    requires UpdateInv(r, d2, v2, Managed(r, v0.f), d, {})
    ensures KindsSane(d0) ==> KindsSane(d)
  {
    hide Managed, Linked;
    if KindsSane(d0) {
      forall l | l in d1 ensures KindSane(d1[l]) {
        if l in d0 { assert d1[l] == d0[l]; } else { var c := v1.l2c[l]; assert AddedEntry(r, d1, v1, l); }
      }
      forall l | l in d ensures KindSane(d[l]) {
        assert d2[l] == d1[l];
        if l in v2.l2c && v2.l2c[l] in Managed(r, v0.f) { assert Refound(r, d2, d, v2, l); }
      }
    }
  }

  lemma MergeCaptured(r: Roots, d0: Doc, v0: View, d1: Doc, v1: View, gone: set<Id>, d2: Doc, v2: View, d: Doc)
    requires WF(v0.f) && RootsOk(r, v0.f) && v0.l2c.Keys == d0.Keys
    requires AddInv(r, d0, v0, d1, v1, Managed(r, v0.f)) && DropInv(d1, v1, Managed(r, v0.f), d2, v2, gone)
    requires forall l :: l in d2 && l in v2.l2c ==> v2.l2c[l] in Managed(r, v0.f)
    requires UpdateInv(r, d2, v2, Managed(r, v0.f), d, {})
    ensures Captured(r, d, v2)
  {
    hide WF, RootsOk, Managed, Recorded, Linked, AddInv, DropInv, UpdateInv;
    var m := Managed(r, v0.f);
    MergeDomains(r, d0, v0, d1, v1, gone, d2, v2, d);
    forall c ensures c in v2.c2l <==> c in m { MergedNode(r, d0, v0, d1, v1, gone, d2, v2, c); }
    assert v2.c2l.Keys == m;
    forall l | l in d ensures Recorded(r, d, v2, l) {
      LiveRefound(r, d2, v2, m, d, l);
    }
  }

  lemma LiveRefound(r: Roots, d2: Doc, v2: View, m: set<Id>, d: Doc, l: Id)
    requires UpdateInv(r, d2, v2, m, d, {}) && l in d && l in v2.l2c && v2.l2c[l] in m
    ensures Recorded(r, d, v2, l)
  {
    hide Recorded;
    assert Refound(r, d2, d, v2, l);
  }

  lemma MergeDomains(r: Roots, d0: Doc, v0: View, d1: Doc, v1: View, gone: set<Id>, d2: Doc, v2: View, d: Doc)
    requires v0.l2c.Keys == d0.Keys
    requires AddInv(r, d0, v0, d1, v1, Managed(r, v0.f)) && DropInv(d1, v1, Managed(r, v0.f), d2, v2, gone)
    requires UpdateInv(r, d2, v2, Managed(r, v0.f), d, {})
    ensures v2.f == v0.f && Linked(v2.l2c, v2.c2l) && v2.l2c.Keys == d.Keys && d.Keys == d2.Keys
    ensures d1.Keys == v1.l2c.Keys
  {
    hide Managed, AddedAll, Linked, Refound;
    forall l | l in v0.l2c ensures l in v1.l2c {}
    assert d1.Keys == v1.l2c.Keys;
  }

  lemma MergedNode(r: Roots, d0: Doc, v0: View, d1: Doc, v1: View, gone: set<Id>, d2: Doc, v2: View, c: Id)
    requires v0.l2c.Keys == d0.Keys && d1.Keys == v1.l2c.Keys
    requires AddInv(r, d0, v0, d1, v1, Managed(r, v0.f)) && DropInv(d1, v1, Managed(r, v0.f), d2, v2, gone)
    requires forall l :: l in d2 && l in v2.l2c ==> v2.l2c[l] in Managed(r, v0.f)
    ensures c in v2.c2l <==> c in Managed(r, v0.f)
  {
    hide WF, RootsOk, Managed, AddedEntry;
    if c in v2.c2l {
      var l := v2.c2l[c];
      assert l in v2.l2c && v2.l2c[l] == c;
    }
    if c in Managed(r, v0.f) {
      assert c in v1.c2l;
      var l := v1.c2l[c];
      assert l in v1.l2c && v1.l2c[l] == c;
      assert l !in gone;
    }
  }

  // ---- Fresh document keys -----------------------------------------------------------------------

  /** Every id in use is below `n`, and document keys never coincide with browser ids. */
  ghost predicate KeysOk(r: Roots, d: Doc, v: View, n: Id) {
    IdsBelow(n, d.Keys + v.l2c.Keys + v.c2l.Keys + r.ids) && Apart(d.Keys + v.l2c.Keys, r, v)
  }

  lemma BelowAdded(r: Roots, d: Doc, v: View, n: Id, c: Id, node: BNode)
    requires IdsBelow(n, d.Keys + v.l2c.Keys + v.c2l.Keys + r.ids) && c < n
    ensures IdsBelow(n + 1, d[n := node].Keys + v.l2c[n := c].Keys + v.c2l[c := n].Keys + r.ids)
    ensures n !in d && n !in v.l2c && n !in v.c2l && n !in r.ids
  {
    var all := d[n := node].Keys + v.l2c[n := c].Keys + v.c2l[c := n].Keys + r.ids;
    forall x | x in all ensures x < n + 1 {
      if x != n && x != c { assert x in d.Keys + v.l2c.Keys + v.c2l.Keys + r.ids; }
    }
    assert n !in d.Keys + v.l2c.Keys + v.c2l.Keys + r.ids;
  }

  lemma ApartAdded(r: Roots, d: Doc, v: View, n: Id, c: Id, node: BNode)
    requires Apart(d.Keys + v.l2c.Keys, r, v) && c in v.f.par
    requires n !in v.f.par && n != v.f.top && n !in v.c2l && n !in r.ids
    ensures Apart(d[n := node].Keys + v.l2c[n := c].Keys, r, View(v.f, v.l2c[n := c], v.c2l[c := n]))
  {
    assert d[n := node].Keys + v.l2c[n := c].Keys == d.Keys + v.l2c.Keys + {n};
  }

  lemma KeysAdded(r: Roots, d: Doc, v: View, n: Id, c: Id, node: BNode)
    requires WF(v.f) && RootsOk(r, v.f) && v.f.top < n && (forall x :: x in v.f.par ==> x < n)
    requires KeysOk(r, d, v, n) && c in v.f.par
    ensures KeysOk(r, d[n := node], View(v.f, v.l2c[n := c], v.c2l[c := n]), n + 1)
    ensures n !in d && n !in v.l2c && !IsRoot(n)
  {
    RootIds(r, v.f);
    hide WF, RootsOk, Apart, IdsBelow;
    BelowAdded(r, d, v, n, c, node);
    ApartAdded(r, d, v, n, c, node);
  }

  lemma KeysSmaller(r: Roots, d: Doc, v: View, n: Id, d': Doc, v': View)
    requires KeysOk(r, d, v, n) && v'.f == v.f
    requires d'.Keys <= d.Keys && v'.l2c.Keys <= v.l2c.Keys && v'.c2l.Keys <= v.c2l.Keys
    ensures KeysOk(r, d', v', n)
  {}

  /** The parent of the next node of the walk was settled before it. */
  lemma WalkSettled(r: Roots, f: Forest, visit: seq<Id>, i: nat, c2l: map<Id, Id>)
    requires WF(f) && RootsOk(r, f) && ParentsFirst(f, Containers(r, f), visit) && i < |visit|
    requires SetOf(visit[..i]) <= c2l.Keys
    ensures Listable(f, visit[i]) && ParentSettled(r, f, c2l, visit[i])
  {
    hide Acyclic;
    assert visit[i] in f.par && (f.par[visit[i]] in Containers(r, f) || f.par[visit[i]] in visit[..i]);
    ListableNode(f, visit[i]);
    assert forall x :: x in visit[..i] ==> x in SetOf(visit[..i]);
  }

  lemma ManagedListable(r: Roots, f: Forest, c: Id)
    requires WF(f) && c in Managed(r, f)
    ensures Listable(f, c)
  {
    ListableNode(f, c);
  }

  lemma SeenMapped(r: Roots, d0: Doc, v0: View, d: Doc, v: View, seen: set<Id>)
    requires AddInv(r, d0, v0, d, v, seen)
    ensures seen <= v.c2l.Keys && v.f == v0.f && Linked(v.l2c, v.c2l)
  {
    hide AddedAll, Linked;
  }

  lemma ListableHas(f: Forest, c: Id)
    requires Listable(f, c)
    ensures c in f.par && c in f.info && f.par[c] in f.kids && c in f.kids[f.par[c]]
  {}

  lemma KeysParts(r: Roots, d: Doc, v: View, n: Id)
    ensures KeysOk(r, d, v, n) <==>
      IdsBelow(n, d.Keys + v.l2c.Keys + v.c2l.Keys + r.ids) && Apart(d.Keys + v.l2c.Keys, r, v)
  {}

  lemma DropFacts(d1: Doc, v1: View, m: set<Id>, d: Doc, v: View, gone: set<Id>)
    requires DropInv(d1, v1, m, d, v, gone)
    ensures Linked(v.l2c, v.c2l) && v.f == v1.f && d.Keys <= d1.Keys && v.l2c.Keys <= v1.l2c.Keys
    ensures v.c2l.Keys <= v1.c2l.Keys
    ensures forall l :: l in v.l2c ==> l in v1.l2c && v.l2c[l] == v1.l2c[l] && v.l2c[l] in v.c2l
  {}

  lemma UpdateStart(r: Roots, d2: Doc, v: View, m: set<Id>)
    ensures UpdateInv(r, d2, v, m, d2, d2.Keys)
  {}

  lemma UpdateFacts(r: Roots, d2: Doc, v: View, m: set<Id>, d: Doc, todo: set<Id>)
    requires UpdateInv(r, d2, v, m, d, todo)
    ensures d.Keys == d2.Keys
  {}

  // ---- Bootstrap ------------------------------------------------------------------------------------

  /** A settled parent is translated the same whatever an older mapping says. */
  lemma OverridingNode(r: Roots, f: Forest, was: map<Id, Id>, c2l: map<Id, Id>, c: Id)
    requires Listable(f, c) && ParentSettled(r, f, c2l, c)
    ensures ToNode(r, f, was + c2l, c) == ToNode(r, f, c2l, c)
  {}

  /** Recording every node of the tree into an empty document captures it. */
  lemma AllRecorded(r: Roots, d: Doc, v: View, f: Forest)
    requires WF(f) && RootsOk(r, f) && AddInv(r, map[], View(f, map[], map[]), d, v, Managed(r, f))
    ensures Captured(r, d, v) && KindsSane(d)
  {
    hide WF, RootsOk, Managed, AddedEntry, Recorded, KindSane;
    assert d.Keys == v.l2c.Keys && v.c2l.Keys == Managed(r, f);
    hide AddFrame;
    forall l | l in d ensures Recorded(r, d, v, l) && KindSane(d[l]) {
      assert v.l2c[l] == v.l2c[l];
      ToNodeSame(r, d, v, l);
    }
    FrameLinked(map[], View(f, map[], map[]), d, v, Managed(r, f));
  }

  lemma FrameLinked(d0: Doc, v0: View, d: Doc, v: View, seen: set<Id>)
    requires AddFrame(d0, v0, d, v, seen)
    ensures Linked(v.l2c, v.c2l) && v.f == v0.f
  {
    hide Linked;
  }

  lemma ToNodeSame(r: Roots, d: Doc, v: View, l: Id)
    requires AddedEntry(r, d, v, l)
    ensures Recorded(r, d, v, l)
    ensures KindSane(d[l])
  {}

  lemma OnlyNewKeys(r: Roots, d: Doc, v: View, was: map<Id, Id>, n0: Id, w: View)
    requires Captured(r, d, v) && w.l2c == was + v.l2c
    requires forall l :: l in was ==> l < n0
    requires forall l :: l in v.l2c ==> n0 <= l
    ensures Captured(r, d, w) ==> was == map[]
  {
    CapturedMaps(r, d, v);
    assert was.Keys !! v.l2c.Keys && w.l2c.Keys == was.Keys + v.l2c.Keys;
    if Captured(r, d, w) {
      CapturedMaps(r, d, w);
      hide Captured;
      assert was.Keys == {};
    }
  }

  lemma BootStart(r: Roots, d: Doc, v: View, n: Id)
    requires KeysOk(r, d, v, n) && Linked(v.l2c, v.c2l)
    ensures AddInv(r, d, View(v.f, map[], map[]), d, View(v.f, map[], map[]), {})
    ensures KeysOk(r, d, View(v.f, map[], map[]), n)
    ensures forall l :: l in v.l2c ==> l < n
  {}

  lemma NotSeen(r: Roots, d0: Doc, v0: View, d: Doc, v: View, visit: seq<Id>, i: nat)
    requires NoDup(visit) && i < |visit| && AddInv(r, d0, v0, d, v, SetOf(visit[..i])) && v0.c2l == map[]
    ensures visit[i] !in v.c2l
  {
    hide AddedAll, Linked;
  }

  lemma EmptyInverse(l2c: map<Id, Id>, c2l: map<Id, Id>)
    requires Linked(l2c, c2l)
    ensures l2c == map[] ==> c2l == map[]
  {
    if c2l != map[] {
      var c :| c in c2l;
      assert c2l[c] in l2c;
    }
  }

  lemma MadeBelow(r: Roots, d: Doc, v: View, n: Id)
    requires KeysOk(r, d, v, n)
    ensures forall l :: l in v.l2c ==> l < n
  {}

  /** The bootstrap loop: `made` holds the pairs it added, on top of an older mapping. */
  ghost predicate SeedInv(r: Roots, d0: Doc, was: View, n0: Id, d: Doc, made: View, w: View, n: Id, seen: set<Id>) {
    && AddInv(r, d0, View(was.f, map[], map[]), d, made, seen) && KeysOk(r, d, made, n)
    && w == View(was.f, was.l2c + made.l2c, was.c2l + made.c2l)
    && n0 <= n && (forall l :: l in made.l2c ==> n0 <= l)
  }

  lemma SeedStart(r: Roots, d0: Doc, was: View, n0: Id)
    requires KeysOk(r, d0, was, n0) && Linked(was.l2c, was.c2l)
    ensures SeedInv(r, d0, was, n0, d0, View(was.f, map[], map[]), was, n0, {})
  {
    BootStart(r, d0, was, n0);
    hide AddInv, KeysOk, Linked;
    assert was.l2c + map[] == was.l2c && was.c2l + map[] == was.c2l;
  }

  lemma SeedNode(r: Roots, d0: Doc, was: View, n0: Id, d: Doc, made: View, w: View, n: Id, visit: seq<Id>, i: nat)
    requires WF(was.f) && RootsOk(r, was.f) && NoDup(visit) && ParentsFirst(was.f, Containers(r, was.f), visit)
    requires i < |visit|
    requires SeedInv(r, d0, was, n0, d, made, w, n, SetOf(visit[..i]))
    ensures made.f == was.f && Listable(was.f, visit[i]) && ParentSettled(r, was.f, made.c2l, visit[i])
    ensures visit[i] !in made.c2l
    ensures ToNode(r, was.f, w.c2l, visit[i]) == ToNode(r, was.f, made.c2l, visit[i])
  {
    hide AddInv, KeysOk, Containers, ParentsFirst, ParentSettled, ToNode, NoDup, WF, RootsOk;
    SeenMapped(r, d0, View(was.f, map[], map[]), d, made, SetOf(visit[..i]));
    WalkSettled(r, was.f, visit, i, made.c2l);
    NotSeen(r, d0, View(was.f, map[], map[]), d, made, visit, i);
    OverridingNode(r, was.f, was.c2l, made.c2l, visit[i]);
  }

  lemma SeedStep(r: Roots, d0: Doc, was: View, n0: Id, d: Doc, made: View, w: View, n: Id, visit: seq<Id>, i: nat)
    requires WF(was.f) && RootsOk(r, was.f) && NoDup(visit) && ParentsFirst(was.f, Containers(r, was.f), visit)
    requires i < |visit|
    requires SeedInv(r, d0, was, n0, d, made, w, n, SetOf(visit[..i]))
    requires was.f.top < n && forall x :: x in was.f.par ==> x < n
    ensures var c := visit[i];
      && Listable(was.f, c)
      && SeedInv(r, d0, was, n0, d[n := ToNode(r, was.f, w.c2l, c)], View(was.f, made.l2c[n := c], made.c2l[c := n]),
           View(was.f, w.l2c[n := c], w.c2l[c := n]), n + 1, SetOf(visit[..i + 1]))
  {
    var c := visit[i];
    SeedNode(r, d0, was, n0, d, made, w, n, visit, i);
    ListableHas(was.f, c);
    PrefixSet(visit, i);
    hide SeedInv, KeysOk, Containers, ParentsFirst, ParentSettled, ToNode, NoDup, WF, RootsOk, Listable;
    SeedAdd(r, d0, was, n0, d, made, w, n, SetOf(visit[..i]), c);
  }

  lemma OverrideMore(was: map<Id, Id>, made: map<Id, Id>, k: Id, x: Id)
    ensures (was + made)[k := x] == was + made[k := x]
  {}

  lemma SeedAdd(r: Roots, d0: Doc, was: View, n0: Id, d: Doc, made: View, w: View, n: Id, seen: set<Id>, c: Id)
    requires WF(was.f) && RootsOk(r, was.f) && was.f.top < n && forall x :: x in was.f.par ==> x < n
    requires SeedInv(r, d0, was, n0, d, made, w, n, seen) && made.f == was.f
    requires c in was.f.par && Listable(was.f, c) && ParentSettled(r, was.f, made.c2l, c) && c !in made.c2l
    requires ToNode(r, was.f, w.c2l, c) == ToNode(r, was.f, made.c2l, c)
    ensures SeedInv(r, d0, was, n0, d[n := ToNode(r, was.f, w.c2l, c)], View(was.f, made.l2c[n := c], made.c2l[c := n]),
      View(was.f, w.l2c[n := c], w.c2l[c := n]), n + 1, seen + {c})
  {
    hide AddInv, KeysOk, ParentSettled, ToNode, WF, RootsOk, Listable;
    ListableHas(was.f, c);
    KeysAdded(r, d, made, n, c, ToNode(r, was.f, made.c2l, c));
    AddStep(r, d0, View(was.f, map[], map[]), d, made, seen, c, n);
    OverrideMore(was.l2c, made.l2c, n, c);
    OverrideMore(was.c2l, made.c2l, c, n);
  }
}
