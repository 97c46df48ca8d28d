/** Step 1 of a reconcile pass: removing every managed node that is not wanted, with its subtree. */
module DeletePhase {
  import opened Forests
  import opened ForestOps
  import opened Browsers
  import opened Positions
  import opened RootTables
  import opened ManagedTree
  import opened BridgeSpec

  function ForgetNodes(v: View, gone: set<Id>): View
    requires forall l :: l in v.l2c ==> v.l2c[l] in v.c2l
  {
    v.(l2c := map l | l in v.l2c && v.l2c[l] !in gone :: v.l2c[l], c2l := v.c2l - gone)
  }

  lemma ForgetTwice(v: View, a: set<Id>, b: set<Id>)
    requires Linked(v.l2c, v.c2l)
    ensures Linked(ForgetNodes(v, a).l2c, ForgetNodes(v, a).c2l)
    ensures ForgetNodes(ForgetNodes(v, a), b) == ForgetNodes(v, a + b)
  {
    assert ForgetNodes(ForgetNodes(v, a), b).l2c == ForgetNodes(v, a + b).l2c;
    assert ForgetNodes(ForgetNodes(v, a), b).c2l == ForgetNodes(v, a + b).c2l;
  }

  lemma ForgetNothing(v: View)
    requires Linked(v.l2c, v.c2l)
    ensures ForgetNodes(v, {}) == v
  {
    assert ForgetNodes(v, {}).l2c == v.l2c;
    assert ForgetNodes(v, {}).c2l == v.c2l;
  }

  /** `gone` is closed downwards and every member is unwanted or lies below a member. */
  ghost predicate Doomed(v: View, m: set<Id>, keys: set<Id>, gone: set<Id>) {
    && gone <= m && ClosedDown(v.f, gone)
    && forall c {:trigger c in gone} :: c in gone && c in v.f.par ==> !Wanted(v.c2l, keys, c) || v.f.par[c] in gone
  }

  /** All unwanted nodes outside `todo` are gone. */
  ghost predicate Swept(v: View, m: set<Id>, keys: set<Id>, gone: set<Id>, todo: set<Id>) {
    forall c :: c in m && c !in todo && c !in gone ==> Wanted(v.c2l, keys, c)
  }

  /** The live subtree of `x` and the snapshot subtree differ only by nodes already gone. */
  lemma LiveSubtree(f: Forest, gone: set<Id>, x: Id, sub: set<Id>, below: set<Id>)
    requires WF(f) && ClosedDown(f, gone) && x in f.par && x !in gone
    requires IsSubtree((f.par - gone), x, sub) && IsSubtree(f.par, x, below)
    ensures gone + sub == gone + below
  {
    var par := f.par - gone;
    AcyclicSub(f.par, gone);
    var sub' := below - gone;
    assert IsSubtree(par, x, sub');
    forall c | c in par ensures c in sub <==> c in sub' {
      SubtreeIsUnder(par, x, sub, c);
      SubtreeIsUnder(par, x, sub', c);
    }
  }

  lemma DoomedStep(v: View, cs: set<Id>, m: set<Id>, keys: set<Id>, gone: set<Id>, x: Id, below: set<Id>)
    requires WF(v.f) && Doomed(v, m, keys, gone) && IsManaged(v.f, cs, m)
    requires x in m && !Wanted(v.c2l, keys, x) && IsSubtree(v.f.par, x, below)
    ensures Doomed(v, m, keys, gone + below)
  {
    ClosedSubtree(v.f, x, below);
    var rank :| Ranked(v.f.par, rank);
    forall c | c in below ensures c in m { BelowManaged(v.f, cs, m, x, below, rank, c); }
  }

  lemma {:induction false} BelowManaged(f: Forest, cs: set<Id>, m: set<Id>, x: Id, below: set<Id>, rank: map<Id, nat>,
                                        c: Id)
    requires IsManaged(f, cs, m) && x in m && IsSubtree(f.par, x, below) && Ranked(f.par, rank) && c in below
    ensures c in m
    decreases rank[c]
  {
    if c != x { BelowManaged(f, cs, m, x, below, rank, f.par[c]); }
  }

  /** What remains is exactly the managed nodes that are wanted all the way up. */
  ghost predicate KeptNodes(v: View, cs: set<Id>, m: set<Id>, keys: set<Id>, kept: set<Id>) {
    && kept <= m
    && forall c {:trigger v.f.par[c]} :: c in m && c in v.f.par ==>
         (c in kept <==> Wanted(v.c2l, keys, c) && (v.f.par[c] in cs || v.f.par[c] in kept))
  }

  lemma DeletionDone(v: View, cs: set<Id>, m: set<Id>, keys: set<Id>, gone: set<Id>)
    requires WF(v.f) && IsManaged(v.f, cs, m) && Linked(v.l2c, v.c2l) && cs !! m
    requires Doomed(v, m, keys, gone) && Swept(v, m, keys, gone, {})
    ensures KeptNodes(v, cs, m, keys, m - gone)
    ensures WF(Removed(v.f, gone)) && IsManaged(Removed(v.f, gone), cs, m - gone)
    ensures Linked(ForgetNodes(v, gone).l2c, ForgetNodes(v, gone).c2l)
    ensures m - gone <= ForgetNodes(v, gone).c2l.Keys
    ensures v.c2l.Keys <= m ==> ForgetNodes(v, gone).c2l.Keys == m - gone && ForgetNodes(v, gone).l2c.Keys <= keys
  {
    RemovedWF(v.f, gone);
    ForgetTwice(v, gone, {});
    var w := ForgetNodes(v, gone);
    forall c | c in m - gone ensures c in w.c2l && w.c2l[c] in keys { assert Wanted(v.c2l, keys, c); }
    if v.c2l.Keys <= m {
      forall l | l in w.l2c ensures l in keys {
        assert w.l2c[l] in w.c2l && w.c2l[w.l2c[l]] == l;
      }
    }
  }

  // ---- Facts used by the removal loop -----------------------------------------------------

  lemma DeletionStart(r: Roots, v: View, m: set<Id>, keys: set<Id>)
    requires Linked(v.l2c, v.c2l)
    ensures Doomed(v, m, keys, {}) && Swept(v, m, keys, {}, m)
    ensures v.f == Removed(v.f, {}) && v == ForgetNodes(v, {})
  {
    RemovedNothing(v.f);
    ForgetNothing(v);
  }

  lemma DeletableNow(r: Roots, v: View, m: set<Id>, keys: set<Id>, gone: set<Id>, c: Id)
    requires WF(v.f) && RootsOk(r, v.f) && m == Managed(r, v.f) && c in m && c !in gone
    requires Doomed(v, m, keys, gone)
    ensures c in v.f.par && Ordinary(Removed(v.f, gone), c)
  {
    hide Acyclic, Listed;
    ManagedIs(r, v.f);
    assert v.f.par[c] != v.f.top;
  }

  lemma DeleteStep(r: Roots, v: View, cs: set<Id>, m: set<Id>, keys: set<Id>, gone: set<Id>, c: Id, sub: set<Id>,
                   below: set<Id>)
    requires WF(v.f) && RootsOk(r, v.f) && m == Managed(r, v.f) && cs == Containers(r, v.f) && Linked(v.l2c, v.c2l)
    requires Doomed(v, m, keys, gone) && c in m && c !in gone && !Wanted(v.c2l - gone, keys, c)
    requires IsSubtree(Removed(v.f, gone).par, c, sub) && IsSubtree(v.f.par, c, below)
    ensures Removed(Removed(v.f, gone), sub) == Removed(v.f, gone + below)
    ensures Doomed(v, m, keys, gone + below)
    ensures Linked(ForgetNodes(v, gone).l2c, ForgetNodes(v, gone).c2l)
    ensures ForgetNodes(ForgetNodes(v, gone), below) == ForgetNodes(v, gone + below)
    ensures c in below
  {
    hide Acyclic, Listed, WF, Managed, RootsOk;
    ManagedIs(r, v.f);
    RemovedTwice(v.f, gone, sub);
    LiveSubtree(v.f, gone, c, sub, below);
    DoomedStep(v, cs, m, keys, gone, c, below);
    ForgetTwice(v, gone, below);
  }

  lemma ContainersApart(r: Roots, f: Forest)
    requires WF(f) && RootsOk(r, f)
    ensures Containers(r, f) !! Managed(r, f)
  {
    hide Acyclic, Listed;
    ManagedIs(r, f);
    forall c | c in Containers(r, f) ensures c !in Managed(r, f) {
      assert f.par[c] == f.top;
    }
  }

  lemma RemovedRoots(r: Roots, f: Forest, m: set<Id>, gone: set<Id>)
    requires RootsOk(r, f) && Containers(r, f) !! m && gone <= m
    ensures RootsOk(r, Removed(f, gone)) && Containers(r, Removed(f, gone)) == Containers(r, f)
  {
    var g := Removed(f, gone);
    forall c | c in r.ids && c in f.par ensures c !in gone { assert c in Containers(r, f); }
  }

  // ---- The survivors, defined by the chain above them -------------------------------------------

  lemma WantedUpStep(r: Roots, keys: set<Id>, v: View, c: Id)
    requires WF(v.f) && RootsOk(r, v.f) && c in Managed(r, v.f)
    ensures c in v.f.par
    ensures WantedUp(r, keys, v, c) <==>
      Wanted(v.c2l, keys, c) && (v.f.par[c] in Containers(r, v.f) || WantedUp(r, keys, v, v.f.par[c]))
  {
    ManagedIs(r, v.f);
    var p := v.f.par[c];
    hide RootsOk, Managed, Acyclic, Listed;
    forall x | x in Managed(r, v.f)
      ensures Under(v.f.par, c, x) <==> c == x || Under(v.f.par, p, x)
    {
      UnderUnfold(v.f.par, c, x);
    }
    if p in Containers(r, v.f) { ContainerAlone(r, v.f, p); }
  }

  /** No managed node lies above a root container. */
  lemma ContainerAlone(r: Roots, f: Forest, p: Id)
    requires WF(f) && RootsOk(r, f) && p in Containers(r, f)
    ensures forall x :: x in Managed(r, f) ==> !Under(f.par, p, x)
  {
    ContainersApart(r, f);
    assert f.par[p] == f.top;
    forall x | x in Managed(r, f) ensures !Under(f.par, p, x) {
      UnderUnfold(f.par, p, x);
      UnderUnfold(f.par, f.top, x);
      assert x in f.par;
    }
  }

  /** What deletion keeps are the survivors. */
  lemma KeptSurvivors(r: Roots, v: View, keys: set<Id>, kept: set<Id>)
    requires WF(v.f) && RootsOk(r, v.f) && KeptNodes(v, Containers(r, v.f), Managed(r, v.f), keys, kept)
    ensures kept == Survivors(r, keys, v)
  {
    var rank :| Ranked(v.f.par, rank);
    hide WF, RootsOk, Managed, Containers, WantedUp;
    forall c ensures c in kept <==> c in Survivors(r, keys, v) {
      if c in Managed(r, v.f) { KeptIsWantedUp(r, v, keys, kept, rank, c); }
    }
  }

  lemma {:induction false} KeptIsWantedUp(r: Roots, v: View, keys: set<Id>, kept: set<Id>, rank: map<Id, nat>, c: Id)
    requires WF(v.f) && RootsOk(r, v.f) && KeptNodes(v, Containers(r, v.f), Managed(r, v.f), keys, kept)
    requires Ranked(v.f.par, rank) && c in Managed(r, v.f) && c in v.f.par
    ensures c in kept <==> WantedUp(r, keys, v, c)
    decreases rank[c]
  {
    WantedUpStep(r, keys, v, c);
    ManagedIs(r, v.f);
    ContainersApart(r, v.f);
    hide WF, RootsOk, Managed, WantedUp, Containers;
    var p := v.f.par[c];
    if p !in Containers(r, v.f) { KeptIsWantedUp(r, v, keys, kept, rank, p); }
  }

  /** Purging does not touch the managed pairs, so it leaves the survivors as they are. */
  lemma PurgedSurvivors(r: Roots, keys: set<Id>, s: View, u: View)
    requires u.f == s.f
    requires forall c :: c in Managed(r, s.f) ==> (c in u.c2l <==> c in s.c2l) && (c in s.c2l ==> u.c2l[c] == s.c2l[c])
    ensures Survivors(r, keys, u) == Survivors(r, keys, s)
  {
    hide Managed;
    forall x | x in Managed(r, s.f) ensures Wanted(u.c2l, keys, x) == Wanted(s.c2l, keys, x) {}
  }

  /** When the mapped nodes are the managed nodes and only wanted entries are mapped, every node survives. */
  lemma AllSurvive(r: Roots, keys: set<Id>, v: View)
    requires v.c2l.Keys == Managed(r, v.f) && v.l2c.Keys <= keys && Linked(v.l2c, v.c2l)
    ensures Survivors(r, keys, v) == Managed(r, v.f)
  {
    hide Managed;
    forall x | x in Managed(r, v.f) ensures Wanted(v.c2l, keys, x) { assert v.c2l[x] in v.l2c; }
  }

  // ---- The purge, in any order of the pairs ------------------------------------------------------------

  /** The purge loop over the pairs of `order`. */
  ghost function PurgeAll(r: Roots, f: Forest, current: set<Id>, l2c: map<Id, Id>, c2l: map<Id, Id>, order: seq<Id>)
    : (map<Id, Id>, map<Id, Id>)
  {
    if order == [] then (l2c, c2l)
    else
      var (a, b) := PurgeAll(r, f, current, l2c, c2l, order[..|order| - 1]);
      var l := order[|order| - 1];
      if l in a && a[l] !in current && !SeenInManagedTree(f, r, b, a[l]) then (a - {l}, b - {a[l]}) else (a, b)
  }

  /** Whatever the order: the maps stay inverse, managed pairs stay, pairs of nodes that are gone or show no
      trace of the managed tree go, and nothing is added. */
  lemma {:induction false} PurgeKeeps(r: Roots, f: Forest, current: set<Id>, l2c: map<Id, Id>, c2l: map<Id, Id>,
                                      order: seq<Id>)
    requires Linked(l2c, c2l)
    ensures var (a, b) := PurgeAll(r, f, current, l2c, c2l, order);
      && Linked(a, b)
      && (forall c :: c in b ==> c in c2l && b[c] == c2l[c])
      && (forall c :: c in c2l && (c in current || c2l[c] !in order) ==> c in b)
      && (forall l :: l in order && l in l2c && l2c[l] !in current && !SeenInManagedTree(f, r, c2l, l2c[l]) ==> l !in a)
      && (forall l :: l in a ==> l in l2c && a[l] == l2c[l])
      && (forall l :: l in l2c && l2c[l] in b ==> l in a)
  {
    if order != [] {
      var before, l := order[..|order| - 1], order[|order| - 1];
      PurgeKeeps(r, f, current, l2c, c2l, before);
      assert order == before + [l];
      var (a, b) := PurgeAll(r, f, current, l2c, c2l, before);
      PurgeOne(r, f, current, l2c, c2l, before, a, b, l);
    }
  }

  ghost predicate PurgedOk(r: Roots, f: Forest, current: set<Id>, l2c: map<Id, Id>, c2l: map<Id, Id>, order: seq<Id>,
                           a: map<Id, Id>, b: map<Id, Id>) {
    && Linked(a, b)
    && (forall c :: c in b ==> c in c2l && b[c] == c2l[c])
    && (forall c :: c in c2l && (c in current || c2l[c] !in order) ==> c in b)
    && (forall l :: l in order && l in l2c && l2c[l] !in current && !SeenInManagedTree(f, r, c2l, l2c[l]) ==> l !in a)
    && (forall l :: l in a ==> l in l2c && a[l] == l2c[l])
    && (forall l :: l in l2c && l2c[l] in b ==> l in a)
  }

  lemma PurgeOne(r: Roots, f: Forest, current: set<Id>, l2c: map<Id, Id>, c2l: map<Id, Id>, before: seq<Id>, a: map<Id,
                 Id>, b: map<Id, Id>, l: Id)
    requires Linked(l2c, c2l) && PurgedOk(r, f, current, l2c, c2l, before, a, b)
    ensures if l in a && a[l] !in current && !SeenInManagedTree(f, r, b, a[l])
            then PurgedOk(r, f, current, l2c, c2l, before + [l], a - {l}, b - {a[l]})
            else PurgedOk(r, f, current, l2c, c2l, before + [l], a, b)
  {
    assert forall x :: x in before + [l] <==> x in before || x == l;
    hide Acyclic;
    if l in a && a[l] !in current && !SeenInManagedTree(f, r, b, a[l]) {
      var c0 := a[l];
      assert b[c0] == l && c2l[c0] == l;
      forall k | k in a - {l} ensures a[k] != c0 { assert b[a[k]] == k; }
      forall c | c in b - {c0} ensures b[c] != l { assert a[b[c]] == c; }
    }
  }

  /** After the purge in this order only managed nodes are mapped. */
  ghost predicate CleanPurge(r: Roots, v: View, order: seq<Id>) {
    PurgeAll(r, v.f, Managed(r, v.f), v.l2c, v.c2l, order).1.Keys <= Managed(r, v.f)
  }

  /** A clean purge forgets exactly the nodes outside the managed tree. */
  lemma PurgedHere(r: Roots, v: View, order: seq<Id>)
    requires Linked(v.l2c, v.c2l) && CleanPurge(r, v, order)
    ensures var (a, b) := PurgeAll(r, v.f, Managed(r, v.f), v.l2c, v.c2l, order);
      View(v.f, a, b) == ForgetNodes(v, v.c2l.Keys - Managed(r, v.f))
  {
    var m := Managed(r, v.f);
    hide Managed;
    PurgeKeeps(r, v.f, m, v.l2c, v.c2l, order);
    var (a, b) := PurgeAll(r, v.f, m, v.l2c, v.c2l, order);
    var w := ForgetNodes(v, v.c2l.Keys - m);
    assert b == w.c2l;
    forall l ensures l in a <==> l in w.l2c { if l in a { assert a[l] in b; } }
    assert a == w.l2c;
  }

  /** What every order leaves of the pairs outside the managed tree looked managed at first. */
  lemma StrayLooks(r: Roots, v: View, current: set<Id>, order: seq<Id>, a: map<Id, Id>, b: map<Id, Id>, c: Id)
    requires Linked(v.l2c, v.c2l) && SetOf(order) == v.l2c.Keys
    requires PurgedOk(r, v.f, current, v.l2c, v.c2l, order, a, b) && c in b && c !in current
    ensures c in v.c2l && SeenInManagedTree(v.f, r, v.c2l, c)
  {
    var l := b[c];
    assert l in a && v.l2c[l] == c;
    assert l in SetOf(order);
  }

  /** A stray node whose parent is a root is never forgotten. */
  lemma {:induction false} RootedStays(r: Roots, f: Forest, current: set<Id>, l2c: map<Id, Id>, c2l: map<Id, Id>,
                                       order: seq<Id>, c: Id)
    requires Linked(l2c, c2l) && c in c2l && c in f.par && f.par[c] in r.ids
    ensures c in PurgeAll(r, f, current, l2c, c2l, order).1
  {
    if order != [] {
      RootedStays(r, f, current, l2c, c2l, order[..|order| - 1], c);
      PurgeKeeps(r, f, current, l2c, c2l, order[..|order| - 1]);
    }
  }

  /** A stray node visited behind the mapped node above it, which was forgotten, is forgotten. */
  lemma {:induction false} TopDownForgets(r: Roots, v: View, order: seq<Id>, n: nat)
    requires WF(v.f) && RootsOk(r, v.f) && Linked(v.l2c, v.c2l) && n <= |order| && NoDup(order)
    requires SetOf(order) == v.l2c.Keys && !RootStray(v) && StraysTopDown(r, v, order)
    ensures forall l :: l in order[..n] && v.l2c[l] !in Managed(r, v.f) ==>
      v.l2c[l] !in PurgeAll(r, v.f, Managed(r, v.f), v.l2c, v.c2l, order[..n]).1
  {
    hide Managed, RootStray, WF, RootsOk;
    var m := Managed(r, v.f);
    forall l | l in order[..n] ensures l in v.l2c { assert l in SetOf(order); }
    if n > 0 {
      TopDownForgets(r, v, order, n - 1);
      PurgeKeeps(r, v.f, m, v.l2c, v.c2l, order[..n - 1]);
      PurgeKeeps(r, v.f, m, v.l2c, v.c2l, order[..n]);
      PurgeNext(r, v.f, m, v.l2c, v.c2l, order, n - 1);
      var (a, b) := PurgeAll(r, v.f, m, v.l2c, v.c2l, order[..n - 1]);
      var l := order[n - 1];
      if v.l2c[l] !in m { NotSeenNow(r, v, order, n - 1, b); }
    }
  }

  lemma NotSeenNow(r: Roots, v: View, order: seq<Id>, k: nat, b: map<Id, Id>)
    requires WF(v.f) && RootsOk(r, v.f) && Linked(v.l2c, v.c2l) && k < |order|
    requires order[k] in v.l2c && v.l2c[order[k]] !in Managed(r, v.f) && !RootStray(v) && StraysTopDown(r, v, order)
    requires (forall c :: c in b ==> c in v.c2l) && (forall l :: l in order[..k] ==> l in v.l2c)
    requires forall l :: l in order[..k] && v.l2c[l] !in Managed(r, v.f) ==> v.l2c[l] !in b
    ensures !SeenInManagedTree(v.f, r, b, v.l2c[order[k]])
  {
    ManagedIs(r, v.f);
    hide Managed, Acyclic, Listed;
    var c := v.l2c[order[k]];
    if c in v.f.par {
      var p := v.f.par[c];
      assert c in v.c2l && p != v.f.top;
      assert p in v.c2l ==> v.l2c[v.c2l[p]] == p;
    }
  }

  /** Whether the purge in a given order is clean: exactly when no mapped node sits directly below the virtual
      root and every other stray node comes behind the stray node above it. */
  lemma CleanExact(r: Roots, v: View, order: seq<Id>)
    requires WF(v.f) && RootsOk(r, v.f) && Linked(v.l2c, v.c2l) && NoDup(order) && SetOf(order) == v.l2c.Keys
    ensures CleanPurge(r, v, order) <==> !RootStray(v) && StraysTopDown(r, v, order)
  {
    hide Managed, RootStray, WF, RootsOk, StraysTopDown;
    PurgeKeeps(r, v.f, Managed(r, v.f), v.l2c, v.c2l, order);
    assert order[..|order|] == order;
    if !RootStray(v) && StraysTopDown(r, v, order) {
      TopDownForgets(r, v, order, |order|);
      var (a, b) := PurgeAll(r, v.f, Managed(r, v.f), v.l2c, v.c2l, order);
      forall c | c in b ensures c in Managed(r, v.f) {
        assert v.l2c[v.c2l[c]] == c;
        assert v.c2l[c] in SetOf(order);
      }
    }
    if CleanPurge(r, v, order) {
      if RootStray(v) { RootStrayStays(r, v, order); }
      CleanTopDown(r, v, order);
    }
  }

  /** A stray node that looks managed and is visited first stays. */
  lemma {:induction false} FirstStays(r: Roots, f: Forest, current: set<Id>, l2c: map<Id, Id>, c2l: map<Id, Id>,
                                      order: seq<Id>)
    requires Linked(l2c, c2l) && order != [] && order[0] in l2c && NoDup(order)
    requires SeenInManagedTree(f, r, c2l, l2c[order[0]])
    ensures l2c[order[0]] in PurgeAll(r, f, current, l2c, c2l, order).1
  {
    var n := |order| - 1;
    PurgeKeeps(r, f, current, l2c, c2l, order[..n]);
    if n > 0 {
      FirstStays(r, f, current, l2c, c2l, order[..n]);
      var (a, b) := PurgeAll(r, f, current, l2c, c2l, order[..n]);
      assert order[n] in a ==> b[a[order[n]]] == order[n];
      assert c2l[l2c[order[0]]] == order[0];
    } else {
      assert order[..0] == [];
    }
  }

  lemma RootStrayStays(r: Roots, v: View, order: seq<Id>)
    requires WF(v.f) && RootsOk(r, v.f) && Linked(v.l2c, v.c2l) && RootStray(v)
    ensures !CleanPurge(r, v, order)
  {
    ManagedIs(r, v.f);
    hide Managed, Acyclic, Listed;
    var c :| c in v.c2l && c in v.f.par && v.f.par[c] == v.f.top;
    RootedStays(r, v.f, Managed(r, v.f), v.l2c, v.c2l, order, c);
    assert c !in Managed(r, v.f);
  }

  /** A stray node visited before the mapped node above it stays. */
  lemma {:induction false} EarlyStays(r: Roots, f: Forest, current: set<Id>, l2c: map<Id, Id>, c2l: map<Id, Id>,
                                      order: seq<Id>, k: nat)
    requires Linked(l2c, c2l) && k < |order| && NoDup(order) && order[k] in l2c && l2c[order[k]] in f.par
    requires f.par[l2c[order[k]]] in c2l && c2l[f.par[l2c[order[k]]]] !in order[..k]
    ensures l2c[order[k]] in PurgeAll(r, f, current, l2c, c2l, order).1
  {
    var n := |order| - 1;
    var before := order[..n];
    PurgeKeeps(r, f, current, l2c, c2l, before);
    if k < n {
      assert before[..k] == order[..k];
      EarlyStays(r, f, current, l2c, c2l, before, k);
      var (a, b) := PurgeAll(r, f, current, l2c, c2l, before);
      assert order[n] in a ==> b[a[order[n]]] == order[n];
      assert c2l[l2c[order[k]]] == order[k];
    } else {
      assert order[n] !in before;
    }
  }

  lemma CleanTopDown(r: Roots, v: View, order: seq<Id>)
    requires Linked(v.l2c, v.c2l) && NoDup(order) && CleanPurge(r, v, order)
    ensures StraysTopDown(r, v, order)
  {
    hide Managed;
    forall k | 0 <= k < |order| && order[k] in v.l2c && StrayBelowMapped(r, v, v.l2c[order[k]])
      ensures v.c2l[v.f.par[v.l2c[order[k]]]] in order[..k]
    {
      if v.c2l[v.f.par[v.l2c[order[k]]]] !in order[..k] {
        EarlyStays(r, v.f, Managed(r, v.f), v.l2c, v.c2l, order, k);
      }
    }
  }

  lemma {:induction false} Listing(s: set<Id>) returns (q: seq<Id>)
    ensures NoDup(q) && SetOf(q) == s
  {
    q := [];
    if s != {} {
      var x :| x in s;
      var rest := Listing(s - {x});
      Appended(rest, x);
      q := rest + [x];
      assert SetOf(q) == SetOf(rest) + {x};
    }
  }

  lemma PrependNoDup(x: Id, q: seq<Id>)
    requires NoDup(q) && x !in q
    ensures NoDup([x] + q) && SetOf([x] + q) == SetOf(q) + {x}
  {
    NoDupConcat([x], q);
    assert forall c :: c in [x] + q <==> c == x || c in q;
  }

  /** Whether the purge is clean in whatever order the pairs are visited: exactly when no mapped node outside
      the managed tree has a root or a mapped node as its parent. */
  lemma PurgeExact(r: Roots, v: View)
    requires Linked(v.l2c, v.c2l)
    ensures (forall order :: NoDup(order) && SetOf(order) == v.l2c.Keys ==> CleanPurge(r, v, order)) <==>
      MappedHere(r, v)
  {
    hide Managed;
    if MappedHere(r, v) {
      forall order | NoDup(order) && SetOf(order) == v.l2c.Keys ensures CleanPurge(r, v, order) {
        PurgeKeeps(r, v.f, Managed(r, v.f), v.l2c, v.c2l, order);
        var (a, b) := PurgeAll(r, v.f, Managed(r, v.f), v.l2c, v.c2l, order);
        forall c | c in b ensures c in Managed(r, v.f) {
          if c !in Managed(r, v.f) { StrayLooks(r, v, Managed(r, v.f), order, a, b, c); }
        }
      }
    } else {
      var c :| c in v.c2l && c !in Managed(r, v.f) && SeenInManagedTree(v.f, r, v.c2l, c);
      var l := v.c2l[c];
      assert v.l2c[l] == c;
      var rest := Listing(v.l2c.Keys - {l});
      assert l !in rest by { assert l !in SetOf(rest); }
      PrependNoDup(l, rest);
      var order := [l] + rest;
      assert SetOf(order) == v.l2c.Keys;
      FirstStays(r, v.f, Managed(r, v.f), v.l2c, v.c2l, order);
    }
  }

  lemma PurgeNothing(r: Roots, f: Forest, current: set<Id>, l2c: map<Id, Id>, c2l: map<Id, Id>)
    ensures PurgeAll(r, f, current, l2c, c2l, []) == (l2c, c2l)
  {}

  lemma PurgeNext(r: Roots, f: Forest, current: set<Id>, l2c: map<Id, Id>, c2l: map<Id, Id>, order: seq<Id>, i: nat)
    requires i < |order|
    ensures var (a, b) := PurgeAll(r, f, current, l2c, c2l, order[..i]); var l := order[i];
      PurgeAll(r, f, current, l2c, c2l, order[..i + 1]) ==
        if l in a && a[l] !in current && !SeenInManagedTree(f, r, b, a[l]) then (a - {l}, b - {a[l]}) else (a, b)
  {
    assert order[..i + 1][..i] == order[..i];
  }

  lemma PurgeOutcome(r: Roots, v: View, current: set<Id>, order: seq<Id>, a: map<Id, Id>, b: map<Id, Id>)
    requires Linked(v.l2c, v.c2l) && SetOf(order) == v.l2c.Keys
    requires (a, b) == PurgeAll(r, v.f, current, v.l2c, v.c2l, order)
    ensures Linked(a, b) && forall c :: c in b ==> c in v.c2l && b[c] == v.c2l[c]
    ensures forall c :: c in v.c2l && (c in current || (c in v.f.par && v.f.par[c] in r.ids)) ==> c in b
    ensures forall c :: c in b && c !in current ==> SeenInManagedTree(v.f, r, v.c2l, c)
    ensures current == Managed(r, v.f) ==>
      (b.Keys <= current <==> CleanPurge(r, v, order)) &&
      (b.Keys <= current ==> View(v.f, a, b) == ForgetNodes(v, v.c2l.Keys - current))
  {
    hide Managed;
    PurgeKeeps(r, v.f, current, v.l2c, v.c2l, order);
    forall c | c in b && c !in current ensures SeenInManagedTree(v.f, r, v.c2l, c) {
      StrayLooks(r, v, current, order, a, b, c);
    }
    forall c | c in v.c2l && c in v.f.par && v.f.par[c] in r.ids ensures c in b {
      RootedStays(r, v.f, current, v.l2c, v.c2l, order, c);
    }
    if current == Managed(r, v.f) && b.Keys <= current { PurgedHere(r, v, order); }
  }

  /** Where only managed nodes are mapped, every order is clean. */
  lemma CleanAlready(r: Roots, v: View, order: seq<Id>)
    requires Linked(v.l2c, v.c2l) && v.c2l.Keys <= Managed(r, v.f)
    ensures CleanPurge(r, v, order)
  {
    hide Managed;
    PurgeKeeps(r, v.f, Managed(r, v.f), v.l2c, v.c2l, order);
  }
}
