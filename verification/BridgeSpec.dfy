/** What the bookmark bridge works on: the browser forest, the document and the two id maps,
    as values, with the predicates its contracts use. */
module BridgeSpec {
  import opened Forests
  import opened Documents
  import opened RootTables
  import opened ManagedTree

  /** The browser forest with the two id maps: document id to browser id and back. */
  datatype View = View(f: Forest, l2c: map<Id, Id>, c2l: map<Id, Id>)

  /** The two maps are inverse to each other; roots are never mapped. */
  ghost predicate Linked(l2c: map<Id, Id>, c2l: map<Id, Id>) {
    && (forall l {:trigger l2c[l]} :: l in l2c ==> !IsRoot(l) && l2c[l] in c2l && c2l[l2c[l]] == l)
    && (forall c {:trigger c2l[c]} :: c in c2l ==> c2l[c] in l2c && l2c[c2l[c]] == c)
  }

  /** From a document parent id to the browser's folder id. */
  function Native(r: Roots, l2c: map<Id, Id>, l: Id): Id {
    if l in r.toNative then r.toNative[l] else if l in l2c then l2c[l] else l
  }

  /** From a browser folder id to the document's parent id. */
  function Canon(r: Roots, c2l: map<Id, Id>, c: Id): Id {
    if c in r.toCanon then r.toCanon[c] else if c in c2l then c2l[c] else c
  }

  /** What `bookmarks.get` tells about a mapped node that the tree snapshot did not show. */
  predicate SeenInManagedTree(f: Forest, r: Roots, c2l: map<Id, Id>, c: Id) {
    c in f.par && (f.par[c] in r.ids || f.par[c] in c2l)
  }

  /** No mapped node outside the managed tree looks as if it were inside, by its parent alone. */
  ghost predicate MappedHere(r: Roots, v: View) {
    forall c :: c in v.c2l && c !in Managed(r, v.f) ==> !SeenInManagedTree(v.f, r, v.c2l, c)
  }

  /** A mapped node sits directly below the virtual root, where no pass looks for it or forgets it. */
  ghost predicate RootStray(v: View) {
    exists c :: c in v.c2l && c in v.f.par && v.f.par[c] == v.f.top
  }

  /** A node outside the managed tree, below a mapped one. */
  ghost predicate StrayBelowMapped(r: Roots, v: View, c: Id) {
    c !in Managed(r, v.f) && c in v.f.par && v.f.par[c] in v.c2l
  }

  /** In `order`, which lists the document's side of the pairs, a mapped node outside the managed tree comes
      behind the mapped node above it. */
  ghost predicate StraysTopDown(r: Roots, v: View, order: seq<Id>) {
    forall k {:trigger order[k]} :: 0 <= k < |order| && order[k] in v.l2c && StrayBelowMapped(r, v, v.l2c[order[k]]) ==>
      v.c2l[v.f.par[v.l2c[order[k]]]] in order[..k]
  }

  /** A node is kept on its own account when it is mapped to a wanted entry. */
  predicate Wanted(c2l: map<Id, Id>, keys: set<Id>, c: Id) {
    c in c2l && c2l[c] in keys
  }

  /** The managed nodes that are wanted, with all managed nodes above them. */
  ghost function Survivors(r: Roots, keys: set<Id>, v: View): set<Id> {
    set c | c in Managed(r, v.f) && WantedUp(r, keys, v, c)
  }

  ghost predicate WantedUp(r: Roots, keys: set<Id>, v: View, c: Id) {
    forall x :: x in Managed(r, v.f) && Under(v.f.par, c, x) ==> Wanted(v.c2l, keys, x)
  }

  /** Document keys and browser ids never coincide. */
  ghost predicate Apart(keys: set<Id>, r: Roots, v: View) {
    forall l :: l in keys ==> l !in v.f.par && l != v.f.top && l !in v.c2l && l !in r.ids
  }

  /** A bookmark is paired with a bookmark and a folder with a folder. */
  ghost predicate KindsMatch(doc: Doc, v: View) {
    forall l {:trigger doc[l]} :: l in doc && l in v.l2c && v.l2c[l] in v.f.info ==>
      (doc[l].url.None? <==> v.f.info[v.l2c[l]].url.None?)
  }

  /** The browser has the root containers that the document uses for entries outside `kept`. */
  ghost predicate RootsForNew(r: Roots, doc: Doc, kept: set<Id>, f: Forest) {
    forall l {:trigger doc[l]} :: l in doc && l !in kept && IsParentRoot(doc[l].parentId) ==>
      doc[l].parentId in r.toNative && r.toNative[doc[l].parentId] in f.par
  }

  /** The browser has the root containers the document uses. */
  ghost predicate RootsAvailable(r: Roots, doc: Doc, f: Forest) {
    RootsForNew(r, doc, {}, f)
  }

  ghost predicate SameInfo(doc: Doc, v: View, l: Id)
    requires l in doc
  {
    l in v.l2c && v.l2c[l] in v.f.info && v.f.info[v.l2c[l]] == Info(doc[l].title, doc[l].url)
  }

  /** The maps link the document's keys with the managed nodes one to one, and linked entries
      agree on title and URL. */
  ghost predicate Synced(r: Roots, doc: Doc, v: View) {
    && Linked(v.l2c, v.c2l) && v.l2c.Keys == doc.Keys && v.c2l.Keys == Managed(r, v.f)
    && forall l {:trigger doc[l]} :: l in doc ==> SameInfo(doc, v, l)
  }

  ghost predicate RightParent(r: Roots, doc: Doc, v: View, l: Id)
    requires l in doc
  {
    l in v.l2c && v.l2c[l] in v.f.par && v.f.par[v.l2c[l]] == Native(r, v.l2c, doc[l].parentId)
  }

  /** The managed tree is the document: same shape and contents, siblings in the order of their indices. */
  ghost predicate Mirrors(r: Roots, doc: Doc, v: View) {
    && Synced(r, doc, v)
    && (forall l {:trigger doc[l]} :: l in doc ==> RightParent(r, doc, v, l))
    && forall p, i, k ::
         p in v.f.kids && 0 <= i < k < |v.f.kids[p]| && v.f.kids[p][i] in v.c2l && v.f.kids[p][k] in v.c2l ==>
           doc[v.c2l[v.f.kids[p][i]]].index <= doc[v.c2l[v.f.kids[p][k]]].index
  }

  /** Outside the managed tree no node changed its parent or content, ... */
  ghost predicate NodesKept(m: set<Id>, f: Forest, g: Forest) {
    forall c {:trigger g.par[c]} {:trigger g.info[c]} {:trigger c in f.par} :: c in f.par && c in f.info && c !in m ==>
      c in g.par && c in g.info && g.par[c] == f.par[c] && g.info[c] == f.info[c]
  }

  /** ... and no other folder its child list. */
  ghost predicate ListsKept(m: set<Id>, f: Forest, g: Forest) {
    forall q {:trigger g.kids[q]} {:trigger q in f.kids} :: q in f.kids && q !in m ==>
      q in g.kids && g.kids[q] == f.kids[q]
  }

  /** Outside the managed tree nothing changed but the child lists of the folders in `but`. */
  ghost predicate OutsideKept(r: Roots, f: Forest, g: Forest, but: set<Id>) {
    g.top == f.top && NodesKept(Managed(r, f), f, g) && ListsKept(Managed(r, f) + Containers(r, f) + but, f, g)
  }

  /** Among the nodes that survive deletion, a bookmark is paired with a bookmark and a folder with a folder. */
  ghost predicate SurvivorKinds(r: Roots, doc: Doc, v: View) {
    forall l {:trigger doc[l]} ::
      l in doc && l in v.l2c && v.l2c[l] in Survivors(r, doc.Keys, v) && v.l2c[l] in v.f.info ==>
        (doc[l].url.None? <==> v.f.info[v.l2c[l]].url.None?)
  }

  /** What a pass needs of its starting point to bring a document into a browser. */
  ghost predicate Reconcilable(r: Roots, doc: Doc, v: View) {
    Grounded(doc) && SurvivorKinds(r, doc, v) && RootsAvailable(r, doc, v.f)
  }

  /** The entries whose pairs survive the deletions of a pass. */
  ghost function KeptEntries(r: Roots, keys: set<Id>, v: View): set<Id> {
    set l | l in v.l2c && v.l2c[l] in Survivors(r, keys, v)
  }

  /** The entries that have a node after the deletions of a pass: survivors, and stray nodes among those left mapped. */
  ghost function KeptKeys(r: Roots, keys: set<Id>, v: View, stays: set<Id>): set<Id> {
    set l | l in v.l2c
      && (v.l2c[l] in Survivors(r, keys, v) || (v.l2c[l] in stays && v.l2c[l] !in Managed(r, v.f)))
  }

  /** What a single pass needs to make the mapping and the contents agree with the document: only the entries it
      has to create need their root containers. */
  ghost predicate Fillable(r: Roots, doc: Doc, v: View) {
    SurvivorKinds(r, doc, v) && RootsForNew(r, doc, KeptEntries(r, doc.Keys, v), v.f)
  }

  lemma ReconcilableFillable(r: Roots, doc: Doc, v: View)
    requires Reconcilable(r, doc, v)
    ensures Fillable(r, doc, v)
  {
    hide Survivors, Grounded;
  }

  lemma KindsSurvive(r: Roots, doc: Doc, v: View)
    requires KindsMatch(doc, v)
    ensures SurvivorKinds(r, doc, v)
  {
    hide Managed;
  }

  /** The content a node has after an update request: a folder keeps refusing a URL, and an
      omitted URL changes nothing. */
  function Refreshed(i: Info, n: BNode): Info {
    if i.url.None? && n.url.Some? then i else Info(n.title, if n.url.Some? then n.url else i.url)
  }

  /** What every pass does to the pairs that survive its deletions: they stay, and their nodes get the entry's title and
      URL, as far as a bookmark stays a bookmark and a folder a folder. */
  ghost predicate SurvivorsStay(r: Roots, doc: Doc, s: View, t: View) {
    forall l {:trigger t.l2c[l]} {:trigger doc[l]} ::
      l in doc && l in s.l2c && s.l2c[l] in Survivors(r, doc.Keys, s) && s.l2c[l] in s.f.info ==>
      && l in t.l2c && t.l2c[l] == s.l2c[l] && t.l2c[l] in t.f.info
      && t.f.info[t.l2c[l]] == Refreshed(s.f.info[s.l2c[l]], doc[l])
  }

  /** An entry without a node that gets one: its chain of parents leads, through `n` more such entries that are folders,
      to a root container of the browser or to a folder that stands for an entry of `kept`. */
  ghost predicate Plantable(r: Roots, e: Doc, v: View, kept: set<Id>, l: Id, n: nat)
    decreases n
  {
    && l in e && l !in kept
    && var q := e[l].parentId;
       if IsRoot(q) then q != 0 && q in r.toNative && r.toNative[q] in v.f.par
       else if q in kept then q in v.l2c && v.l2c[q] in v.f.info && v.f.info[v.l2c[q]].url.None?
       else n > 0 && q in e && e[q].url.None? && Plantable(r, e, v, kept, q, n - 1)
  }

  ghost predicate CanPlant(r: Roots, e: Doc, v: View, kept: set<Id>, l: Id) {
    exists n: nat :: Plantable(r, e, v, kept, l, n)
  }

  /** What a single pass needs to map the document exactly and agree with it, cycles and all: surviving pairs are of one
      kind, and every other entry can be planted. */
  ghost predicate Fills(r: Roots, doc: Doc, v: View) {
    var live := KeptEntries(r, doc.Keys, v);
    SurvivorKinds(r, doc, v) && forall l :: l in doc ==> l in live || CanPlant(r, doc, v, live, l)
  }

  lemma PlantUnfold(r: Roots, e: Doc, v: View, kept: set<Id>, l: Id)
    requires l in e && l !in kept
    ensures var q := e[l].parentId;
      CanPlant(r, e, v, kept, l) <==>
        if IsRoot(q) then q != 0 && q in r.toNative && r.toNative[q] in v.f.par
        else if q in kept then q in v.l2c && v.l2c[q] in v.f.info && v.f.info[v.l2c[q]].url.None?
        else q in e && e[q].url.None? && CanPlant(r, e, v, kept, q)
  {
    var q := e[l].parentId;
    if CanPlant(r, e, v, kept, l) {
      var n: nat :| Plantable(r, e, v, kept, l, n);
      if !IsRoot(q) && q !in kept { assert Plantable(r, e, v, kept, q, n - 1); }
    }
    if IsRoot(q) || q in kept {
      assert Plantable(r, e, v, kept, l, 0) <==>
        if IsRoot(q) then q != 0 && q in r.toNative && r.toNative[q] in v.f.par
        else q in v.l2c && v.l2c[q] in v.f.info && v.f.info[v.l2c[q]].url.None?;
    } else if q in e && e[q].url.None? && CanPlant(r, e, v, kept, q) {
      var n: nat :| Plantable(r, e, v, kept, q, n);
      assert Plantable(r, e, v, kept, l, n + 1);
    }
  }

  /** The node of entry `q` can hold children: it is a folder that survives, or it will be created as one. */
  ghost predicate FolderFor(e: Doc, v: View, live: set<Id>, q: Id) {
    && q in e
    && if q in live then q in v.l2c && v.l2c[q] in v.f.info && v.f.info[v.l2c[q]].url.None? else e[q].url.None?
  }

  /** Entry `l` has a place in the browser: its chain of at most `n` parents leads through folders to a root container
      of the browser. `live` are the entries whose pairs survive. */
  ghost predicate Rooted(r: Roots, e: Doc, v: View, live: set<Id>, l: Id, n: nat)
    decreases n
  {
    && n > 0 && l in e
    && var q := e[l].parentId;
       if IsRoot(q) then q != 0 && q in r.toNative && r.toNative[q] in v.f.par
       else FolderFor(e, v, live, q) && Rooted(r, e, v, live, q, n - 1)
  }

  /** A folder that the pass will not move, or will create. */
  ghost predicate StandsFirm(r: Roots, e: Doc, v: View, live: set<Id>, kept: set<Id>, q: Id) {
    && FolderFor(e, v, live, q) && (q in kept ==> q in live)
    && (q in live ==> RightParent(r, e, v, q) && (IsRoot(e[q].parentId) || e[q].parentId in live))
  }

  /** Entry `l` has a place, and what there is on the way to it stands where the document wants it. */
  ghost predicate Anchored(r: Roots, e: Doc, v: View, live: set<Id>, kept: set<Id>, l: Id, n: nat)
    decreases n
  {
    && n > 0 && l in e
    && var q := e[l].parentId;
       if IsRoot(q) then q != 0 && q in r.toNative && r.toNative[q] in v.f.par
       else StandsFirm(r, e, v, live, kept, q) && Anchored(r, e, v, live, kept, q, n - 1)
  }

  ghost predicate HasAnchor(r: Roots, e: Doc, v: View, live: set<Id>, kept: set<Id>, l: Id) {
    exists n: nat :: Anchored(r, e, v, live, kept, l, n)
  }

  /** `a` comes before `b` in one folder; both stand for entries of `live` with the same parent. */
  ghost predicate LivePair(e: Doc, t: View, live: set<Id>, a: Id, b: Id) {
    && a in t.c2l && b in t.c2l && t.c2l[a] in e && t.c2l[b] in e && t.c2l[a] in live && t.c2l[b] in live
    && e[t.c2l[a]].parentId == e[t.c2l[b]].parentId
  }

  ghost predicate StayedOrArrived(r: Roots, e: Doc, s: View, t: View, l: Id)
    requires l in e
  {
    RightParent(r, e, t, l)
    || (l in s.l2c && l in t.l2c && s.l2c[l] in s.f.par && t.l2c[l] in t.f.par
        && t.f.par[t.l2c[l]] == s.f.par[s.l2c[l]])
  }

  /** How every pass moves the nodes that survive, whatever the rest of the document and of the mapping is like: nowhere
      but below the right parent; there, if the way to it stands; and then in index order. */
  ghost predicate Arranges(r: Roots, e: Doc, s: View, stays: set<Id>, t: View) {
    var live, kept := KeptEntries(r, e.Keys, s), KeptKeys(r, e.Keys, s, stays);
    && (forall l {:trigger e[l]} {:trigger t.l2c[l]} :: l in e && l in live ==> StayedOrArrived(r, e, s, t, l))
    && (forall l {:trigger e[l]} {:trigger t.l2c[l]} :: l in e && l in live && HasAnchor(r, e, s, live, kept, l) ==>
          RightParent(r, e, t, l))
    && forall p, i, k ::
         p in t.f.kids && 0 <= i < k < |t.f.kids[p]| && LivePair(e, t, live, t.f.kids[p][i], t.f.kids[p][k])
         && HasAnchor(r, e, s, live, kept, t.c2l[t.f.kids[p][i]]) ==>
           e[t.c2l[t.f.kids[p][i]]].index <= e[t.c2l[t.f.kids[p][k]]].index
  }

  /** The entries whose node is managed, which is what a clean purge leaves of the mapping. */
  ghost function MappedManaged(r: Roots, v: View): set<Id> {
    set l | l in v.l2c && v.l2c[l] in Managed(r, v.f)
  }

  /** The part of the document that a pass with a clean purge works with: orphans are left out. */
  ghost function Effective(r: Roots, doc: Doc, v: View): Doc {
    Pruned(doc, MappedManaged(r, v))
  }

  lemma EffectiveWhole(r: Roots, doc: Doc, v: View)
    requires Grounded(doc)
    ensures Effective(r, doc, v) == doc
  {
    hide Managed, Grounded, Pruned;
    GroundedWhole(doc, MappedManaged(r, v));
  }
}
