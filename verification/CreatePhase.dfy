/** Step 2 of a reconcile pass: creating the wanted entries that have no browser node. */
module CreatePhase {
  import opened Forests
  import opened ForestOps
  import opened Positions
  import opened Documents
  import opened RootTables
  import opened ManagedTree
  import opened BridgeSpec

  /** `g` is `f` with new nodes appended to some folders. */
  ghost predicate Extends(f: Forest, g: Forest) {
    && g.top == f.top
    && (forall c {:trigger g.par[c]} {:trigger g.info[c]} {:trigger c in f.par} :: c in f.par && c in f.info ==>
          c in g.par && c in g.info && g.par[c] == f.par[c] && g.info[c] == f.info[c])
    && (forall p {:trigger g.kids[p]} {:trigger p in f.kids} :: p in f.kids ==> p in g.kids && f.kids[p] <= g.kids[p])
  }

  /** A node created for an entry carries its title and URL and sits in its parent's folder. */
  ghost predicate FreshNode(r: Roots, e: Doc, v: View, w: View, c: Id)
    requires c in w.c2l
  {
    && c !in v.f.par && c in w.f.par && c in w.f.info
    && w.c2l[c] in e && w.f.info[c] == Info(e[w.c2l[c]].title, e[w.c2l[c]].url)
    && (IsRoot(e[w.c2l[c]].parentId) || e[w.c2l[c]].parentId in w.l2c)
    && w.f.par[c] == Native(r, w.l2c, e[w.c2l[c]].parentId) && w.f.par[c] != w.f.top
  }

  /** `w` arises from `v` by creating nodes for entries of `e`. */
  ghost predicate Grown(r: Roots, e: Doc, v: View, w: View) {
    && Extends(v.f, w.f)
    && (forall l {:trigger w.l2c[l]} {:trigger l in v.l2c} :: l in v.l2c ==> l in w.l2c && w.l2c[l] == v.l2c[l])
    && w.l2c.Keys <= v.l2c.Keys + e.Keys
    && (forall c {:trigger w.c2l[c]} {:trigger c in v.c2l} :: c in v.c2l ==> c in w.c2l && w.c2l[c] == v.c2l[c])
    && (forall c {:trigger w.c2l[c]} :: c in w.c2l && c !in v.c2l ==> FreshNode(r, e, v, w, c))
    && (forall c {:trigger w.f.par[c]} :: c in w.f.par && c !in v.f.par ==> c in w.c2l && c !in v.c2l)
    && w.f.kids.Keys <= v.f.kids.Keys + w.c2l.Keys
  }

  /** A well-formed tree with its root tables and inverse maps. */
  ghost predicate Sound(r: Roots, v: View) {
    WF(v.f) && RootsOk(r, v.f) && Linked(v.l2c, v.c2l)
  }

  /** The maps are inverse and cover exactly the managed nodes. */
  ghost predicate Covering(r: Roots, v: View) {
    Sound(r, v) && IsManaged(v.f, Containers(r, v.f), v.c2l.Keys)
  }

  lemma SoundShape(r: Roots, v: View)
    requires Sound(r, v)
    ensures WF(v.f) && v.f.info.Keys == v.f.par.Keys && v.f.top !in v.f.par && Linked(v.l2c, v.c2l)
    ensures r.toNative.Keys == {0, 1, 2, 3} && 0 in r.toNative && v.f.top in r.ids
  {}

  lemma CoveringShape(r: Roots, v: View)
    requires Covering(r, v)
    ensures v.f.info.Keys == v.f.par.Keys && v.f.top !in v.f.par && Linked(v.l2c, v.c2l)
    ensures v.c2l.Keys <= v.f.par.Keys && r.toNative.Keys == {0, 1, 2, 3} && v.f.top in r.ids
  {}

  function Added(r: Roots, e: Doc, v: View, l: Id, id: Id): View
    requires l in e && Native(r, v.l2c, e[l].parentId) in v.f.kids
  {
    View(Created(v.f, id, Native(r, v.l2c, e[l].parentId), Info(e[l].title, e[l].url)), v.l2c[l := id], v.c2l[id := l])
  }

  /** An entry whose parent is a root or mapped, and whose folder exists, can be created now. */
  ghost predicate Creatable(r: Roots, e: Doc, v: View, l: Id, id: Id) {
    && l in e && l !in v.l2c && !IsRoot(l)
    && CanHold(v.f, Native(r, v.l2c, e[l].parentId))
    && (IsRoot(e[l].parentId) || e[l].parentId in v.l2c)
    && id !in v.f.par && id != v.f.top && id !in v.c2l && id !in r.ids
  }

  lemma CreatedFrame(f: Forest, id: Id, p: Id, info: Info)
    requires p in f.kids
    ensures var g := Created(f, id, p, info);
      g.top == f.top && g.par == f.par[id := p] && f.kids.Keys <= g.kids.Keys
  {}

  lemma AddedSound(r: Roots, e: Doc, v: View, l: Id, id: Id)
    requires Sound(r, v) && Creatable(r, e, v, l, id)
    ensures Sound(r, Added(r, e, v, l, id))
    ensures Containers(r, Added(r, e, v, l, id).f) == Containers(r, v.f)
    ensures Covering(r, v) ==> Covering(r, Added(r, e, v, l, id))
  {
    hide WF, RootsOk, Linked, IsManaged, Containers, Created, Native;
    var w, p := Added(r, e, v, l, id), Native(r, v.l2c, e[l].parentId);
    CreatedWF(v.f, id, p, Info(e[l].title, e[l].url));
    CreatedFrame(v.f, id, p, Info(e[l].title, e[l].url));
    AddedRoots(r, v.f, w.f, id, p);
    AddedLinked(v.l2c, v.c2l, l, id);
    assert w.c2l.Keys == v.c2l.Keys + {id};
    if Covering(r, v) {
      AddedManaged(v.f, w.f, Containers(r, v.f), v.c2l.Keys, id, p) by { HolderKnown(r, e, v, l, id); }
    }
  }

  lemma HolderKnown(r: Roots, e: Doc, v: View, l: Id, id: Id)
    requires Sound(r, v) && Creatable(r, e, v, l, id)
    ensures WF(v.f)
    ensures var p := Native(r, v.l2c, e[l].parentId); p in Containers(r, v.f) || p in v.c2l
  {
    hide Acyclic, Listed;
  }

  lemma AddedRoots(r: Roots, f: Forest, g: Forest, id: Id, p: Id)
    requires RootsOk(r, f) && id !in r.ids && id !in f.par && g.top == f.top && f.kids.Keys <= g.kids.Keys
    requires g.par == f.par[id := p]
    ensures RootsOk(r, g) && Containers(r, g) == Containers(r, f)
  {}

  lemma AddedLinked(l2c: map<Id, Id>, c2l: map<Id, Id>, l: Id, id: Id)
    requires Linked(l2c, c2l) && l !in l2c && !IsRoot(l) && id !in c2l
    ensures Linked(l2c[l := id], c2l[id := l])
  {}

  lemma AddedManaged(f: Forest, g: Forest, cs: set<Id>, m: set<Id>, id: Id, p: Id)
    requires WF(f) && IsManaged(f, cs, m) && id !in f.par && id != f.top && g.par == f.par[id := p]
    requires p in cs || p in m
    ensures IsManaged(g, cs, m + {id})
  {
    forall c | c in f.par ensures f.par[c] != id {
      assert f.par[c] in f.kids;
    }
  }

  lemma GrownRefl(r: Roots, e: Doc, v: View)
    requires v.f.info.Keys == v.f.par.Keys
    ensures Grown(r, e, v, v)
  {
    forall p | p in v.f.kids ensures v.f.kids[p] <= v.f.kids[p] {
      assert v.f.kids[p][..|v.f.kids[p]|] == v.f.kids[p];
    }
  }

  lemma ExtendsCreated(f: Forest, g: Forest, id: Id, p: Id, info: Info)
    requires Extends(f, g) && p in g.kids && id !in g.par && id !in g.kids && f.info.Keys == f.par.Keys
    ensures Extends(f, Created(g, id, p, info))
  {
    var h := Created(g, id, p, info);
    forall q | q in f.kids ensures q in h.kids && f.kids[q] <= h.kids[q] {
      assert g.kids[q] <= h.kids[q];
    }
  }

  lemma FreshStays(r: Roots, e: Doc, v: View, w: View, l: Id, id: Id, c: Id)
    requires Creatable(r, e, w, l, id) && c in w.c2l && FreshNode(r, e, v, w, c) && Linked(w.l2c, w.c2l)
    ensures c in Added(r, e, w, l, id).c2l && FreshNode(r, e, v, Added(r, e, w, l, id), c)
  {}

  lemma FreshAdded(r: Roots, e: Doc, v: View, w: View, l: Id, id: Id)
    requires Creatable(r, e, w, l, id) && id !in v.f.par
    ensures FreshNode(r, e, v, Added(r, e, w, l, id), id)
  {}

  lemma GrownMaps(r: Roots, e: Doc, v: View, w: View, id: Id)
    requires Grown(r, e, v, w) && v.f.info.Keys == v.f.par.Keys && id !in w.f.par && id !in w.c2l && w.f.top != id
    requires Shape(w.f)
    ensures id !in v.f.par && id !in v.c2l && id !in w.f.kids && Extends(v.f, w.f)
    ensures forall c :: c in w.c2l && c !in v.c2l ==> FreshNode(r, e, v, w, c)
  {
    hide FreshNode;
    forall c | c in w.c2l && c !in v.c2l ensures FreshNode(r, e, v, w, c) { var l := w.c2l[c]; }
  }

  lemma GrownFresh(r: Roots, e: Doc, v: View, w: View, l: Id, id: Id)
    requires Linked(w.l2c, w.c2l) && Creatable(r, e, w, l, id) && id !in v.f.par
    requires forall c :: c in w.c2l && c !in v.c2l ==> FreshNode(r, e, v, w, c)
    ensures var x := Added(r, e, w, l, id);
      forall c :: c in x.c2l && c !in v.c2l ==> FreshNode(r, e, v, x, c)
  {
    hide FreshNode;
    var x := Added(r, e, w, l, id);
    FreshAdded(r, e, v, w, l, id);
    forall c | c in x.c2l && c !in v.c2l ensures FreshNode(r, e, v, x, c) {
      if c != id { FreshStays(r, e, v, w, l, id, c); }
    }
  }

  lemma GrownParts(r: Roots, e: Doc, v: View, x: View)
    requires Extends(v.f, x.f)
    requires forall l :: l in v.l2c ==> l in x.l2c && x.l2c[l] == v.l2c[l]
    requires x.l2c.Keys <= v.l2c.Keys + e.Keys
    requires forall c :: c in v.c2l ==> c in x.c2l && x.c2l[c] == v.c2l[c]
    requires forall c :: c in x.c2l && c !in v.c2l ==> FreshNode(r, e, v, x, c)
    requires forall c :: c in x.f.par && c !in v.f.par ==> c in x.c2l && c !in v.c2l
    requires x.f.kids.Keys <= v.f.kids.Keys + x.c2l.Keys
    ensures Grown(r, e, v, x)
  {
    hide FreshNode, Extends;
  }

  lemma GrownLinks(r: Roots, e: Doc, v: View, w: View, x: View, l: Id, id: Id)
    requires Grown(r, e, v, w) && l in e && l !in w.l2c && id !in w.c2l && id !in v.c2l && id !in v.f.par
    requires x.l2c == w.l2c[l := id] && x.c2l == w.c2l[id := l]
    requires x.f.par.Keys == w.f.par.Keys + {id} && x.f.kids.Keys <= w.f.kids.Keys + {id}
    ensures forall l :: l in v.l2c ==> l in x.l2c && x.l2c[l] == v.l2c[l]
    ensures x.l2c.Keys <= v.l2c.Keys + e.Keys
    ensures forall c :: c in v.c2l ==> c in x.c2l && x.c2l[c] == v.c2l[c]
    ensures forall c :: c in x.f.par && c !in v.f.par ==> c in x.c2l && c !in v.c2l
    ensures x.f.kids.Keys <= v.f.kids.Keys + x.c2l.Keys
  {
    hide FreshNode, Extends;
    forall c | c in x.f.par && c !in v.f.par ensures c in x.c2l && c !in v.c2l {
      if c != id { var p := w.f.par[c]; }
    }
  }

  lemma GrownStep(r: Roots, e: Doc, v: View, w: View, l: Id, id: Id)
    requires v.f.info.Keys == v.f.par.Keys && Sound(r, w) && Grown(r, e, v, w) && Creatable(r, e, w, l, id)
    ensures Grown(r, e, v, Added(r, e, w, l, id))
  {
    hide FreshNode, Extends, RootsOk, IsManaged, Listed, Acyclic, Native, Linked, Grown;
    var x := Added(r, e, w, l, id);
    GrownMaps(r, e, v, w, id);
    GrownFresh(r, e, v, w, l, id);
    ExtendsCreated(v.f, w.f, id, Native(r, w.l2c, e[l].parentId), Info(e[l].title, e[l].url));
    GrownLinks(r, e, v, w, x, l, id);
    GrownParts(r, e, v, x);
  }

  lemma KindsStep(r: Roots, e: Doc, v: View, l: Id, id: Id)
    requires Creatable(r, e, v, l, id) && KindsMatch(e, v) && Linked(v.l2c, v.c2l) && id !in v.f.info
    ensures KindsMatch(e, Added(r, e, v, l, id))
  {
    var w := Added(r, e, v, l, id);
    forall k | k in e && k in w.l2c && w.l2c[k] in w.f.info
      ensures e[k].url.None? <==> w.f.info[w.l2c[k]].url.None?
    {
      if k != l { assert w.l2c[k] == v.l2c[k] && v.l2c[k] in v.c2l; }
    }
  }

  // ---- Every entry of a well-formed document gets created ---------------------------------

  lemma {:induction false} EntryReaches(doc: Doc, lev: map<Id, nat>, mapped: set<Id>, l: Id)
    requires Leveled(doc, lev) && l in doc
    ensures exists n: nat :: Up(ParentMap(Missing(doc, mapped)), doc[l].parentId, n) in {0, 1, 2, 3} + mapped
    decreases lev[l]
  {
    var p, par := doc[l].parentId, ParentMap(Missing(doc, mapped));
    assert LevelOk(doc, lev, l);
    if IsParentRoot(p) || p in mapped {
      assert Up(par, p, 0) in {0, 1, 2, 3} + mapped;
    } else {
      EntryReaches(doc, lev, mapped, p);
      var n: nat :| Up(par, doc[p].parentId, n) in {0, 1, 2, 3} + mapped;
      assert p in par && par[p] == doc[p].parentId;
      assert Up(par, p, n + 1) == Up(par, par[p], n);
    }
  }

  function Missing(doc: Doc, mapped: set<Id>): Doc {
    map l | l in doc && l !in mapped :: doc[l]
  }

  lemma MissingMembers(doc: Doc, mapped: set<Id>)
    ensures forall l :: l in Missing(doc, mapped) <==> l in doc && l !in mapped
  {}

  lemma AllReach(doc: Doc, mapped: set<Id>, l: Id)
    requires Grounded(doc) && l in Missing(doc, mapped)
    ensures Reaches(Missing(doc, mapped), {0, 1, 2, 3} + mapped, l)
  {
    var lev: map<Id, nat> :| Leveled(doc, lev);
    EntryReaches(doc, lev, mapped, l);
  }

  lemma RootsNotVirtual(r: Roots, f: Forest, p: Id)
    requires WF(f) && RootsOk(r, f) && p in f.par
    ensures p != f.top && !IsVirtualRoot(r, p)
  {
    hide Acyclic, Listed;
  }

  // ---- Facts used by the creation loop -----------------------------------------------------

  ghost predicate IdsBelow(n: Id, s: set<Id>) {
    forall x :: x in s ==> x < n
  }

  /** The entry's parent has a folder in the browser that can hold it. */
  ghost predicate HasFolder(r: Roots, e: Doc, w: View, l: Id)
    requires l in e
  {
    var p := Native(r, w.l2c, e[l].parentId);
    CanHold(w.f, p) && 0 in r.toNative && !IsVirtualRoot(r, p) && (p in r.ids || p in w.c2l)
  }

  lemma FolderFacts(r: Roots, e: Doc, w: View, l: Id)
    requires l in e && 0 in r.toNative
    ensures var p := Native(r, w.l2c, e[l].parentId);
      HasFolder(r, e, w, l) <==> CanHold(w.f, p) && !IsVirtualRoot(r, p) && (p in r.ids || p in w.c2l)
  {}

  ghost predicate ParentsKnown(e: Doc, known: set<Id>) {
    forall l {:trigger e[l]} :: l in e ==> !IsRoot(l) && (IsRoot(e[l].parentId) || e[l].parentId in known)
  }

  /** What the creation loop knows: `w` grew out of `v`, and all new browser ids are fresh. */
  ghost predicate CreateInv(r: Roots, e: Doc, v: View, w: View, known: set<Id>, n0: Id, n: Id) {
    && Sound(r, v) && Sound(r, w) && (Covering(r, v) ==> Covering(r, w)) && Containers(r, w.f) == Containers(r, v.f)
    && Grown(r, e, v, w) && Apart(known, r, w)
    && n0 <= n && IdsBelow(n, w.c2l.Keys + known + r.ids)
    && (forall c :: c in w.c2l && c !in v.c2l ==> n0 <= c)
    && (KindsMatch(e, v) ==> KindsMatch(e, w))
  }

  /** Every entry of `e` can be created. */
  ghost predicate AllCreatable(r: Roots, e: Doc, v: View) {
    Covering(r, v) && Grounded(e) && KindsMatch(e, v) && RootsForNew(r, e, v.l2c.Keys, v.f)
  }

  lemma NoneMissing(e: Doc, mapped: set<Id>, sorted: seq<Id>)
    requires forall l :: l in sorted <==> l in Missing(e, mapped)
    ensures e.Keys <= mapped ==> |sorted| == 0
  {
    assert |sorted| > 0 ==> sorted[0] in sorted;
  }

  lemma GrownDomain(r: Roots, e: Doc, v: View, w: View)
    requires Grown(r, e, v, w)
    ensures v.l2c.Keys <= w.l2c.Keys <= v.l2c.Keys + e.Keys
  {
    forall l | l in v.l2c ensures l in w.l2c {}
  }

  lemma CreateStart(r: Roots, e: Doc, v: View, known: set<Id>, n0: Id)
    requires Sound(r, v) && Apart(known, r, v) && IdsBelow(n0, v.c2l.Keys + known + r.ids)
    ensures CreateInv(r, e, v, v, known, n0, n0)
  {
    GrownRefl(r, e, v);
  }

  lemma CreateFacts(r: Roots, e: Doc, v: View, w: View, known: set<Id>, n0: Id, n: Id)
    requires CreateInv(r, e, v, w, known, n0, n)
    ensures Sound(r, v) && Sound(r, w) && (Covering(r, v) ==> Covering(r, w)) && Grown(r, e, v, w)
    ensures KindsMatch(e, v) ==> KindsMatch(e, w)
    ensures r.toNative.Keys == {0, 1, 2, 3} && WF(w.f) && 0 in r.toNative
  {
    hide Grown, KindsMatch, Covering;
  }

  lemma CreateFinish(r: Roots, e: Doc, v: View, w: View, known: set<Id>, n0: Id, n: Id)
    requires CreateInv(r, e, v, w, known, n0, n)
    ensures Containers(r, w.f) == Containers(r, v.f) && Grown(r, e, v, w) && Apart(known, r, w)
    ensures n0 <= n && IdsBelow(n, w.c2l.Keys) && forall c :: c in w.c2l && c !in v.c2l ==> n0 <= c
    ensures v.l2c.Keys <= w.l2c.Keys <= v.l2c.Keys + e.Keys
  {
    hide KindsMatch, Covering, Sound;
    GrownDomain(r, e, v, w);
  }

  /** After the creation loop exactly the plantable entries are mapped in addition. */
  ghost predicate Planted(r: Roots, e: Doc, v: View, w: View, done: set<Id>) {
    forall l {:trigger l in w.l2c} :: l in w.l2c && l !in v.l2c <==> l in done && CanPlant(r, e, v, v.l2c.Keys, l)
  }

  lemma PlantedNone(r: Roots, e: Doc, v: View)
    ensures Planted(r, e, v, v, {})
  {}

  lemma PlantedStep(r: Roots, e: Doc, v: View, w: View, x: View, done: set<Id>, l: Id)
    requires Planted(r, e, v, w, done) && l !in w.l2c && l !in done && l !in v.l2c
    requires w.l2c.Keys <= x.l2c.Keys <= w.l2c.Keys + {l} && (l in x.l2c <==> CanPlant(r, e, v, v.l2c.Keys, l))
    ensures Planted(r, e, v, x, done + {l})
  {
    hide CanPlant;
  }

  lemma PlantedAll(r: Roots, e: Doc, v: View, w: View, sorted: seq<Id>)
    requires Planted(r, e, v, w, SetOf(sorted)) && v.l2c.Keys <= w.l2c.Keys
    requires forall l :: l in sorted <==> l in Missing(e, v.l2c.Keys)
    ensures forall l :: l in w.l2c <==> l in v.l2c || CanPlant(r, e, v, v.l2c.Keys, l)
  {
    forall l ensures l in w.l2c <==> l in v.l2c || CanPlant(r, e, v, v.l2c.Keys, l) {
      if CanPlant(r, e, v, v.l2c.Keys, l) {
        assert l in e && l !in v.l2c;
        assert l in SetOf(sorted);
      }
    }
  }

  lemma {:induction false} PlantReaches(r: Roots, e: Doc, v: View, kept: set<Id>, l: Id, n: nat)
    requires Plantable(r, e, v, kept, l, n)
    ensures exists m: nat :: Up(ParentMap(Missing(e, kept)), e[l].parentId, m) in {0, 1, 2, 3} + kept
    decreases n
  {
    var q, par := e[l].parentId, ParentMap(Missing(e, kept));
    if IsRoot(q) || q in kept {
      assert Up(par, q, 0) in {0, 1, 2, 3} + kept;
    } else {
      PlantReaches(r, e, v, kept, q, n - 1);
      var m: nat :| Up(par, e[q].parentId, m) in {0, 1, 2, 3} + kept;
      assert q in par && par[q] == e[q].parentId;
      assert Up(par, q, m + 1) == Up(par, par[q], m);
    }
  }

  /** When its turn comes, a plantable entry whose parent is new finds that parent done. */
  lemma ParentDone(r: Roots, e: Doc, v: View, order: seq<Id>, sorted: seq<Id>, i: nat)
    requires TopoSorted(order, Missing(e, v.l2c.Keys), {0, 1, 2, 3} + v.l2c.Keys, sorted) && i < |sorted|
    requires CanPlant(r, e, v, v.l2c.Keys, sorted[i])
    ensures sorted[i] in e
    ensures var q := e[sorted[i]].parentId; IsRoot(q) || q in v.l2c || q in SetOf(sorted[..i])
  {
    var n: nat :| Plantable(r, e, v, v.l2c.Keys, sorted[i], n);
    PlantReaches(r, e, v, v.l2c.Keys, sorted[i], n);
    hide FirstSorted;
  }

  /** The folder of a kept entry, before and after. */
  lemma KeptFolder(r: Roots, e: Doc, v: View, w: View, q: Id)
    requires Sound(r, v) && Sound(r, w) && Grown(r, e, v, w) && q in v.l2c
    ensures q in w.l2c && w.l2c[q] == v.l2c[q] && v.l2c[q] in w.c2l && Native(r, w.l2c, q) == v.l2c[q]
    ensures CanHold(w.f, v.l2c[q]) && v.l2c[q] != w.f.top ==> v.l2c[q] in v.f.info && v.f.info[v.l2c[q]].url.None?
    ensures v.l2c[q] in v.f.info && v.f.info[v.l2c[q]].url.None? ==>
      CanHold(w.f, v.l2c[q]) && !IsVirtualRoot(r, v.l2c[q])
  {
    hide Acyclic, Listed;
    var p := v.l2c[q];
    assert p in v.c2l && v.c2l[p] == q;
    assert q in w.l2c && w.l2c[q] == p;
    assert p in w.f.par && p !in v.f.par ==> p in w.c2l && p !in v.c2l;
    if p in v.f.info { RootsNotVirtual(r, v.f, p); }
  }

  lemma CreatedFresh(r: Roots, e: Doc, v: View, w: View, l: Id)
    requires Linked(w.l2c, w.c2l) && Linked(v.l2c, v.c2l) && Grown(r, e, v, w) && l in w.l2c && l !in v.l2c
    ensures w.l2c[l] in w.c2l && w.l2c[l] !in v.c2l && w.c2l[w.l2c[l]] == l && FreshNode(r, e, v, w, w.l2c[l]) && l in e
  {
    hide Extends;
  }

  lemma NodeHolds(f: Forest, c: Id)
    requires WF(f) && c in f.par
    ensures c in f.info && (CanHold(f, c) <==> f.info[c].url.None?)
  {
    hide Acyclic, Listed;
  }

  lemma MappedNative(r: Roots, w: View, q: Id)
    requires Linked(w.l2c, w.c2l) && r.toNative.Keys == {0, 1, 2, 3} && q in w.l2c
    ensures Native(r, w.l2c, q) == w.l2c[q]
  {}

  lemma NewFolder(r: Roots, e: Doc, v: View, w: View, q: Id)
    requires Sound(r, v) && Sound(r, w) && Grown(r, e, v, w) && q in w.l2c && q !in v.l2c
    ensures Native(r, w.l2c, q) == w.l2c[q] && w.l2c[q] in w.c2l && q in e
    ensures CanHold(w.f, w.l2c[q]) <==> e[q].url.None?
    ensures !IsVirtualRoot(r, w.l2c[q])
  {
    CreatedFresh(r, e, v, w, q) by { SoundShape(r, v); SoundShape(r, w); }
    hide Grown, WF, RootsOk, CanHold, Linked, Native;
    SoundShape(r, w);
    NodeHolds(w.f, w.l2c[q]);
    MappedNative(r, w, q);
    RootsNotVirtual(r, w.f, w.l2c[q]);
  }

  lemma RootFolder(r: Roots, v: View, w: View, q: Id)
    requires Sound(r, v) && Sound(r, w) && Containers(r, w.f) == Containers(r, v.f) && IsRoot(q)
    ensures q in r.toNative && Native(r, w.l2c, q) == r.toNative[q]
    ensures var p := r.toNative[q];
      CanHold(w.f, p) && !IsVirtualRoot(r, p) && (p in r.ids || p in w.c2l) <==> q != 0 && p in v.f.par
  {
    hide Acyclic, Listed;
    var p := r.toNative[q];
    assert p in Containers(r, w.f) <==> p in Containers(r, v.f);
    if p in w.f.par { RootsNotVirtual(r, w.f, p); }
  }

  /** The next entry finds a folder exactly when it can be planted. */
  lemma FolderIff(r: Roots, e: Doc, v: View, w: View, known: set<Id>, order: seq<Id>, sorted: seq<Id>, i: nat)
    requires Sound(r, v) && Sound(r, w) && Grown(r, e, v, w) && Containers(r, w.f) == Containers(r, v.f)
    requires Apart(known, r, w) && ParentsKnown(e, known)
    requires TopoSorted(order, Missing(e, v.l2c.Keys), {0, 1, 2, 3} + v.l2c.Keys, sorted) && i < |sorted|
    requires sorted[i] in e && sorted[i] !in v.l2c && Planted(r, e, v, w, SetOf(sorted[..i]))
    ensures HasFolder(r, e, w, sorted[i]) <==> CanPlant(r, e, v, v.l2c.Keys, sorted[i])
  {
    hide CanPlant, TopoSorted, Grown, Sound, Apart, CanHold, Native, Containers;
    var l := sorted[i];
    var q := e[l].parentId;
    SoundShape(r, w);
    FolderFacts(r, e, w, l);
    PlantUnfold(r, e, v, v.l2c.Keys, l);
    if IsRoot(q) {
      RootFolder(r, v, w, q);
    } else if q in v.l2c {
      KeptFolder(r, e, v, w, q);
      NotTop(r, w, w.l2c[q]);
    } else {
      if CanPlant(r, e, v, v.l2c.Keys, l) { ParentDone(r, e, v, order, sorted, i); }
      if HasFolder(r, e, w, l) {
        ParentKnown(r, e, w, known, l) by { hide ParentsKnown; assert IsRoot(q) || q in known; }
      }
      if q in w.l2c { NewFolder(r, e, v, w, q); }
    }
  }

  lemma NotTop(r: Roots, w: View, p: Id)
    requires Sound(r, w)
    ensures CanHold(w.f, p) ==> p != w.f.top
  {}

  lemma CreateStep(r: Roots, e: Doc, v: View, w: View, known: set<Id>, n0: Id, l: Id, id: Id)
    requires CreateInv(r, e, v, w, known, n0, id) && l in e && l !in w.l2c
    requires ParentsKnown(e, known)
    requires var p := Native(r, w.l2c, e[l].parentId); CanHold(w.f, p) && (p in r.ids || p in w.c2l)
    requires id !in w.f.par && id != w.f.top
    ensures CreateInv(r, e, v,
      View(Created(w.f, id, Native(r, w.l2c, e[l].parentId), Info(e[l].title, e[l].url)), w.l2c[l := id],
        w.c2l[id := l]),
      known, n0, id + 1)
  {
    hide WF, Grown, KindsMatch, RootsOk, IsManaged, Native, Covering, Sound;
    SoundShape(r, v);
    SoundShape(r, w);
    ParentKnown(r, e, w, known, l);
    AddedSound(r, e, w, l, id);
    GrownStep(r, e, v, w, l, id);
    AddedApart(r, e, w, l, id, known);
    if KindsMatch(e, w) { KindsStep(r, e, w, l, id); }
  }

  lemma TopoMembers(order: seq<Id>, entries: Doc, initial: set<Id>, sorted: seq<Id>)
    requires TopoSorted(order, entries, initial, sorted) && SetOf(order) == entries.Keys
    ensures NoDup(sorted) && forall l :: l in sorted <==> l in entries
    ensures forall k :: 0 <= k < |sorted| ==> sorted[k] in entries
  {
    assert forall l :: l in order <==> l in SetOf(order);
  }

  /** In a grounded document whose kinds match everything that is missing can be planted, if the roots are there. */
  lemma {:induction false} AllPlantable(r: Roots, e: Doc, v: View, lev: map<Id, nat>, l: Id)
    requires Covering(r, v) && Leveled(e, lev) && KindsMatch(e, v) && RootsForNew(r, e, v.l2c.Keys, v.f)
    requires l in e && l !in v.l2c
    ensures CanPlant(r, e, v, v.l2c.Keys, l)
    decreases lev[l]
  {
    PlantUnfold(r, e, v, v.l2c.Keys, l);
    assert LevelOk(e, lev, l);
    var q := e[l].parentId;
    if !IsParentRoot(q) {
      assert LevelOk(e, lev, q);
      if q in v.l2c { KeptNode(r, e, v, q); } else { AllPlantable(r, e, v, lev, q); }
    }
  }

  lemma KeptNode(r: Roots, e: Doc, v: View, q: Id)
    requires Covering(r, v) && KindsMatch(e, v) && q in e && q in v.l2c && e[q].url.None?
    ensures v.l2c[q] in v.f.info && v.f.info[v.l2c[q]].url.None?
  {
    hide Acyclic, Listed, RootsOk;
    assert v.l2c[q] in v.c2l;
  }

  lemma AllPlanted(r: Roots, e: Doc, v: View)
    requires AllCreatable(r, e, v)
    ensures forall l :: l in e ==> l in v.l2c || CanPlant(r, e, v, v.l2c.Keys, l)
  {
    var lev: map<Id, nat> :| Leveled(e, lev);
    hide Covering, KindsMatch, RootsForNew, CanPlant, Leveled;
    forall l | l in e && l !in v.l2c ensures CanPlant(r, e, v, v.l2c.Keys, l) { AllPlantable(r, e, v, lev, l); }
  }

  /** A folder id that is a root container or mapped comes from a root or mapped parent. */
  lemma ParentKnown(r: Roots, e: Doc, w: View, known: set<Id>, l: Id)
    requires l in e && Apart(known, r, w) && Linked(w.l2c, w.c2l) && r.toNative.Keys == {0, 1, 2, 3}
    requires IsRoot(e[l].parentId) || e[l].parentId in known
    requires var p := Native(r, w.l2c, e[l].parentId); p in r.ids || p in w.c2l
    ensures IsRoot(e[l].parentId) || e[l].parentId in w.l2c
  {}

  lemma AddedApart(r: Roots, e: Doc, w: View, l: Id, id: Id, known: set<Id>)
    requires Creatable(r, e, w, l, id) && Apart(known, r, w) && id !in known
    ensures Apart(known, r, Added(r, e, w, l, id))
  {}
}
