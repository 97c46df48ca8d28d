/** Step 3 of a reconcile pass: refreshing titles and URLs of the nodes that already existed, and
    collecting those nodes by the folder they belong to. */
module ContentPhase {
  import opened Forests
  import opened ForestOps
  import opened Browsers
  import opened Placement
  import opened Documents
  import opened RootTables
  import opened BridgeSpec

  /** The entry's node was part of the snapshot taken at the start of the pass. */
  predicate Existing(l2c: map<Id, Id>, current: set<Id>, l: Id) {
    l in l2c && l2c[l] in current
  }

  function IndexOf(e: Doc, c2l: map<Id, Id>): map<Id, int> {
    map c | c in c2l && c2l[c] in e :: e[c2l[c]].index
  }

  /** Contents after the entries outside `todo` were refreshed. */
  ghost predicate ContentInv(e: Doc, v: View, current: set<Id>, f: Forest, todo: set<Id>) {
    && f.top == v.f.top && f.par == v.f.par && f.kids == v.f.kids && f.info.Keys == v.f.info.Keys
    && forall c {:trigger f.info[c]} :: c in f.info ==>
         f.info[c] == if c in v.c2l && c in current && v.c2l[c] in e && v.c2l[c] !in todo
                      then Refreshed(v.f.info[c], e[v.c2l[c]]) else v.f.info[c]
  }

  ghost predicate Collected(e: Doc, v: View, current: set<Id>, todo: set<Id>, c: Id) {
    && c in v.c2l && c in current && v.c2l[c] in e && v.c2l[c] !in todo
    && (IsRoot(e[v.c2l[c]].parentId) || e[v.c2l[c]].parentId in v.l2c)
  }

  /** `target` maps exactly the collected nodes to the folder their entry asks for. */
  ghost predicate TargetInv(r: Roots, e: Doc, v: View, current: set<Id>, target: map<Id, Id>, todo: set<Id>) {
    && (forall c :: c in target <==> Collected(e, v, current, todo, c))
    && (forall c {:trigger target[c]} :: c in target ==> target[c] == Native(r, v.l2c, e[v.c2l[c]].parentId))
  }

  function Group(byFolder: map<Id, seq<Id>>, p: Id, c: Id): map<Id, seq<Id>> {
    byFolder[p := (if p in byFolder then byFolder[p] else []) + [c]]
  }

  lemma PlanStep(f: Forest, byFolder: map<Id, seq<Id>>, key: map<Id, int>, target: map<Id, Id>, p: Id, c: Id)
    requires PlanOk(f, byFolder, key, target) && c !in target && c in f.par && c in key
    ensures PlanOk(f, Group(byFolder, p, c), key, target[c := p])
  {
    var prev := if p in byFolder then byFolder[p] else [];
    var g := Group(byFolder, p, c);
    assert forall e :: e in prev ==> e in target && target[e] == p;
    Appended(prev, c);
    assert g[p] == prev + [c];
  }

  lemma PlanFrame(f: Forest, g: Forest, byFolder: map<Id, seq<Id>>, key: map<Id, int>, target: map<Id, Id>)
    requires PlanOk(f, byFolder, key, target) && g.par == f.par
    ensures PlanOk(g, byFolder, key, target)
  {}

  lemma ContentStep(e: Doc, v: View, current: set<Id>, f: Forest, todo: set<Id>, l: Id, g: Forest)
    requires Linked(v.l2c, v.c2l) && ContentInv(e, v, current, f, todo) && l in todo && l in e
    requires !Existing(v.l2c, current, l) ==> g == f
    requires Existing(v.l2c, current, l) ==>
      && v.l2c[l] in f.info
      && g == f.(info := f.info[v.l2c[l] := Refreshed(v.f.info[v.l2c[l]], e[l])])
    ensures ContentInv(e, v, current, g, todo - {l})
  {
    forall c | c in g.info
      ensures g.info[c] == if c in v.c2l && c in current && v.c2l[c] in e && v.c2l[c] !in todo - {l}
                           then Refreshed(v.f.info[c], e[v.c2l[c]]) else v.f.info[c]
    {
      if c in v.c2l && v.c2l[c] == l {
        assert v.l2c[l] == c;
      } else {
        assert g.info[c] == f.info[c];
      }
    }
  }

  lemma TargetStep(r: Roots, e: Doc, v: View, current: set<Id>, target: map<Id, Id>, todo: set<Id>, l: Id)
    requires Linked(v.l2c, v.c2l) && TargetInv(r, e, v, current, target, todo) && l in todo && l in e
    ensures Existing(v.l2c, current, l) ==> v.l2c[l] !in target
    ensures TargetInv(r, e, v, current,
      if Existing(v.l2c, current, l) && (IsRoot(e[l].parentId) || e[l].parentId in v.l2c)
      then target[v.l2c[l] := Native(r, v.l2c, e[l].parentId)] else target, todo - {l})
  {
    forall c ensures Collected(e, v, current, todo - {l}, c) <==>
      Collected(e, v, current, todo, c)
        || (Existing(v.l2c, current, l) && c == v.l2c[l] && (IsRoot(e[l].parentId) || e[l].parentId in v.l2c))
    {
      if c in v.c2l && v.c2l[c] == l { assert v.l2c[l] == c; }
      if Existing(v.l2c, current, l) && c == v.l2c[l] { assert v.c2l[c] == l; }
    }
  }

  /** No node of the snapshot differs from its entry. */
  ghost predicate NothingToRefresh(e: Doc, v: View, current: set<Id>) {
    forall l {:trigger e[l]} :: l in e && Existing(v.l2c, current, l) ==>
      v.l2c[l] in v.f.info && v.f.info[v.l2c[l]] == Info(e[l].title, e[l].url)
  }

  /** Facts about the moment step 3 starts that each of its iterations uses. */
  ghost predicate ContentReady(e: Doc, v: View, snap: Forest, current: set<Id>) {
    && Linked(v.l2c, v.c2l)
    && forall c {:trigger c in current} :: c in current && c in v.c2l ==>
         Ordinary(v.f, c) && c in v.f.info && c in snap.info && snap.info[c] == v.f.info[c]
  }

  method FixContent(b: Browser, r: Roots, e: Doc, ghost v: View, l2c: map<Id, Id>, c2l: map<Id, Id>, snap: Forest,
                    current: set<Id>, deleted: set<Id>)
    returns (byFolder: map<Id, seq<Id>>, ghost target: map<Id, Id>)
    requires b.Valid() && v == View(b.f, l2c, c2l) && ContentReady(e, v, snap, current)
    requires deleted !! c2l.Keys
    modifies b`f, b`log
    ensures b.Valid()
    ensures ContentInv(e, v, current, b.f, {})
    ensures PlanOk(b.f, byFolder, IndexOf(e, c2l), target) && TargetInv(r, e, v, current, target, {})
    ensures NothingToRefresh(e, v, current) ==> b.f == old(b.f) && b.log == old(b.log)
  {
    hide WF, PlanOk, ContentInv, TargetInv, Updated, Native, Refreshed;
    ghost var log0 := b.log;
    byFolder, target := map[], map[];
    var todo := e.Keys;
    ContentInit(r, e, v, current, IndexOf(e, c2l));
    while todo != {}
      invariant b.Valid() && todo <= e.Keys
      invariant ContentInv(e, v, current, b.f, todo)
      invariant PlanOk(b.f, byFolder, IndexOf(e, c2l), target) && TargetInv(r, e, v, current, target, todo)
      invariant NothingToRefresh(e, v, current) ==> b.f == v.f && b.log == log0
    {
      var l :| l in todo;
      ghost var f := b.f;
      TargetStep(r, e, v, current, target, todo, l);
      if l in l2c && l2c[l] !in deleted && l2c[l] in current {
        var c := l2c[l];
        MappedExisting(e, v, snap, current, f, todo, l);
        if snap.info[c].title != e[l].title || snap.info[c].url != e[l].url {
          var ok := b.Update(c, e[l].title, e[l].url);
        }
        UpdateEffect(e, v, f, b.f, c, e[l]);
        PlanFrame(f, b.f, byFolder, IndexOf(e, c2l), target);
        if IsRoot(e[l].parentId) || e[l].parentId in l2c {
          var p := Native(r, l2c, e[l].parentId);
          PlanStep(b.f, byFolder, IndexOf(e, c2l), target, p, c);
          byFolder := Group(byFolder, p, c);
          target := target[c := p];
        }
      }
      ContentStep(e, v, current, f, todo, l, b.f);
      todo := todo - {l};
    }
  }

  lemma ContentInit(r: Roots, e: Doc, v: View, current: set<Id>, key: map<Id, int>)
    ensures ContentInv(e, v, current, v.f, e.Keys)
    ensures PlanOk(v.f, map[], key, map[]) && TargetInv(r, e, v, current, map[], e.Keys)
  {}

  lemma MappedExisting(e: Doc, v: View, snap: Forest, current: set<Id>, f: Forest, todo: set<Id>, l: Id)
    requires ContentReady(e, v, snap, current) && ContentInv(e, v, current, f, todo)
    requires l in todo && l in e && Existing(v.l2c, current, l)
    ensures var c := v.l2c[l];
      c in v.c2l && v.c2l[c] == l && Ordinary(f, c) && c in f.info && c in v.f.info && f.info[c] == v.f.info[c]
      && c in snap.info && snap.info[c] == v.f.info[c]
  {}

  lemma UpdateEffect(e: Doc, v: View, f: Forest, g: Forest, c: Id, n: BNode)
    requires c in f.info && c in v.f.info && f.info[c] == v.f.info[c]
    requires if f.info[c].title == n.title && f.info[c].url == n.url then g == f
             else if n.url.Some? && f.info[c].url.None? then g == f else g == Updated(f, c, n.title, n.url)
    ensures g == f.(info := f.info[c := Refreshed(v.f.info[c], n)]) && g.par == f.par
  {
    assert f.info[c := f.info[c]] == f.info;
  }
}
