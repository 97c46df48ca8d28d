/** Passes put together: clients that reconcile again and again, as they do whenever a remote delta arrives, and
    two devices that share a document. */
module Passes {
  import opened Forests
  import opened Browsers
  import opened Positions
  import opened Documents
  import opened RootTables
  import opened ManagedTree
  import opened BridgeSpec
  import opened DeletePhase
  import opened CreatePhase
  import opened PassLemmas
  import opened Convergence
  import opened Capture
  import opened OfflineChanges
  import opened Settled
  import opened RoundTrip
  import opened ReconcileLemmas
  import opened Bridges

  lemma RunMore(r: Roots, doc: Doc, run: seq<View>, t: View)
    requires run != [] && PassesOn(r, doc, run) && WF(t.f) && RootsOk(r, t.f)
    requires Reconciles(r, Effective(r, doc, run[|run| - 1]), run[|run| - 1], t)
    ensures PassesOn(r, doc, run + [t])
  {
    hide Reconciles, WF, RootsOk, Effective;
    var more := run + [t];
    forall i | 0 <= i < |more| - 1 ensures Reconciles(r, Effective(r, doc, more[i]), more[i], more[i + 1]) {
      if i + 1 < |run| { assert Reconciles(r, Effective(r, doc, run[i]), run[i], run[i + 1]); }
    }
  }

  lemma CleanAgain(r: Roots, doc: Doc, s: View, t: View, order: seq<Id>)
    requires Reconciles(r, doc, s, t)
    ensures CleanPurge(r, t, order)
  {
    hide Managed, OutsideKept, CleanPurge, Linked, Delivers, Synced, Fills, Fillable, Mirrors, ValidDoc, Grounded;
    CleanAlready(r, t, order);
  }

  lemma SameStrays(r: Roots, s: View, t: View)
    requires Keeps(r, s, t)
    ensures RootStray(t) <==> RootStray(s)
  {
    hide OutsideKept, RootStray;
  }

  /** Any number of passes on an unchanged document. `order` is the insertion order of the pairs at the start. If
      the first purge is clean, all are. */
  method ReconcileTimes(b: Bridge, order: seq<Id>, n: nat) returns (ghost run: seq<View>)
    requires b.Valid() && NoDup(order) && SetOf(order) == b.l2c.Keys
    modifies b`l2c, b`c2l, b`stored, b.browser
    ensures b.Valid() && |run| == n + 1 && run[0] == old(b.V()) && run[n] == b.V()
    ensures forall i :: 0 <= i < n ==> Keeps(b.roots, run[i], run[i + 1])
    ensures RootStray(b.V()) <==> RootStray(old(b.V()))
    ensures CleanPurge(b.roots, old(b.V()), order) ==> PassesOn(b.roots, b.doc, run)
  {
    hide WF, RootsOk, Linked, Apart, IdsBelow, Managed, Reconciles, Reconcilable, Mirrors, Keeps, RootStray, CleanPurge,
         Grounded, DistinctSiblings, Effective, Delivers, Pruned, PurgeAll, Synced, Fills, Fillable;
    ghost var clean := CleanPurge(b.roots, b.V(), order);
    run := [b.V()];
    var pairs := order;
    var i := 0;
    while i < n
      invariant 0 <= i <= n && b.Valid() && NoDup(pairs) && SetOf(pairs) == b.l2c.Keys
      invariant |run| == i + 1 && run[0] == old(b.V()) && run[i] == b.V()
      invariant forall k :: 0 <= k < i ==> Keeps(b.roots, run[k], run[k + 1])
      invariant RootStray(b.V()) <==> RootStray(old(b.V()))
      invariant clean ==> PassesOn(b.roots, b.doc, run) && CleanPurge(b.roots, b.V(), pairs)
    {
      b.Reconcile(pairs);
      SameStrays(b.roots, run[i], b.V());
      pairs := Enumerate(b.l2c.Keys);
      if clean {
        CleanAgain(b.roots, Effective(b.roots, b.doc, run[i]), run[i], b.V(), pairs);
        RunMore(b.roots, b.doc, run, b.V());
      }
      run := run + [b.V()];
      i := i + 1;
    }
  }

  /** Convergence, over the methods themselves, for any document and from whatever is mapped. A mapped node directly
      below the virtual root keeps any document from ever being shown. Otherwise, if the pairs of stray nodes come top
      down, `n` passes bring an entry up to `n` levels deep to its place exactly when it has one, whatever the rest of
      the document is like, with siblings in order; and max(2, depth) passes or more show `p`, the document without its
      orphans, exactly when it has no cycle and the starting point allowed it. No change is counted then, with distinct
      sibling indices. Orphans that the first mapping shelters take more passes, see `OrphansEntries`. */
  method Converge(b: Bridge, order: seq<Id>, n: nat) returns (added: nat, removed: nat, modified: nat)
    requires b.Valid() && NoDup(order) && SetOf(order) == b.l2c.Keys && n >= 2
    modifies b`l2c, b`c2l, b`stored, b.browser
    ensures b.Valid()
    ensures RootStray(old(b.V())) ==> forall p :: !Mirrors(b.roots, p, b.V())
    ensures var p := Effective(b.roots, b.doc, old(b.V()));
      StraysTopDown(b.roots, old(b.V()), order) && !RootStray(old(b.V())) && ParentClosed(p, {}, p.Keys) ==>
        EntriesArrived(b.roots, p, old(b.V()), b.V(), n) && SiblingsArrived(b.roots, p, old(b.V()), b.V(), n)
    ensures var p := Effective(b.roots, b.doc, old(b.V()));
      StraysTopDown(b.roots, old(b.V()), order) && ParentClosed(p, {}, p.Keys)
        && (Grounded(p) ==> DepthAtMost(p, n)) ==>
        (Mirrors(b.roots, p, b.V()) <==> Reconcilable(b.roots, p, old(b.V())) && !RootStray(old(b.V())))
    ensures var p := Effective(b.roots, b.doc, old(b.V()));
      ValidDoc(p) && Mirrors(b.roots, p, b.V()) ==> added == 0 && removed == 0 && modified == 0
  {
    hide WF, RootsOk, Linked, Apart, IdsBelow, Managed, Reconcilable, Mirrors, RootStray, CleanPurge, ValidDoc,
         Grounded, DepthAtMost, Keeps, ModifiedEntries, Reordered, Tied, ParentClosed, DistinctSiblings, PassesOn,
         StraysTopDown, Effective, EntriesArrived, SiblingsArrived;
    CleanExact(b.roots, b.V(), order);
    ghost var s, p := b.V(), Effective(b.roots, b.doc, b.V());
    ghost var run := ReconcileTimes(b, order, n);
    if PassesOn(b.roots, b.doc, run) && ParentClosed(p, {}, p.Keys) {
      PrunedEntries(b.roots, b.doc, run, n, n);
      if Grounded(p) ==> DepthAtMost(p, n) { PrunedConverges(b.roots, b.doc, run, n, n); }
    }
    if RootStray(b.V()) {
      forall q ensures !Mirrors(b.roots, q, b.V()) {
        if Mirrors(b.roots, q, b.V()) { MirrorsNoStray(b.roots, q, b.V()); }
      }
    }
    added, removed, modified := b.ComputeOfflineChanges();
    if ValidDoc(p) && Mirrors(b.roots, p, b.V()) {
      EffectivePart(b.roots, b.doc, s);
      NothingCountedNow(b.roots, b.doc, p, b.V());
    }
  }

  lemma EffectivePart(r: Roots, doc: Doc, v: View)
    ensures var p := Effective(r, doc, v); p.Keys <= doc.Keys && forall l :: l in p ==> p[l] == doc[l]
  {
    hide MappedManaged, Pruned;
    PrunedClosed(doc, MappedManaged(r, v));
  }

  /** Where `p` is shown, nothing is counted. */
  lemma NothingCountedNow(r: Roots, doc: Doc, p: Doc, v: View)
    requires WF(v.f) && RootsOk(r, v.f) && ValidDoc(p) && Mirrors(r, p, v)
    requires p.Keys <= doc.Keys && forall l :: l in p ==> p[l] == doc[l]
    ensures var m := Managed(r, v.f);
      && (set c | c in m && c !in v.c2l) == {} && (set l | l in v.l2c && v.l2c[l] !in m) == {}
      && |ModifiedEntries(r, m, doc, v)| + |Reordered(r, m, doc, v) + Tied(r, m, doc, v)| == 0
  {
    hide WF, RootsOk, Managed, Grounded, DistinctSiblings, Mirrors, ModifiedEntries, Reordered, Tied;
    ValidParts(p);
    MirroredCounts(r, p, v);
    MirrorKeys(r, p, v);
    OrphansUncounted(r, doc, p, v);
    CountsAre(Managed(r, v.f), v);
    assert Reordered(r, Managed(r, v.f), doc, v) + Tied(r, Managed(r, v.f), doc, v) == {};
  }

  lemma MirrorsNoStray(r: Roots, doc: Doc, v: View)
    requires WF(v.f) && RootsOk(r, v.f) && Mirrors(r, doc, v)
    ensures !RootStray(v)
  {
    ManagedApart(r, v.f);
    hide Managed, RightParent, SameInfo, Acyclic, Listed, RootsOk;
  }

  /** A browser that shows the document, or what is left of it without orphans: whatever the order of the pairs, one
      more pass makes no browser call and changes nothing, and no change is counted. */
  method PassAgain(b: Bridge, order: seq<Id>) returns (added: nat, removed: nat, modified: nat)
    requires b.Valid() && NoDup(order) && SetOf(order) == b.l2c.Keys
    requires ValidDoc(Effective(b.roots, b.doc, b.V())) && Mirrors(b.roots, Effective(b.roots, b.doc, b.V()), b.V())
    modifies b`l2c, b`c2l, b`stored, b.browser
    ensures b.Valid() && b.V() == old(b.V()) && b.browser.log == old(b.browser.log)
    ensures added == 0 && removed == 0 && modified == 0
  {
    hide WF, RootsOk, Linked, Apart, IdsBelow, Managed, Mirrors, ValidDoc, Keeps, Reconciles, CleanPurge, Delivers,
         Effective, Pruned, PurgeAll, Grounded, Synced, Fills, Fillable, ModifiedEntries, Reordered, Tied, ParentClosed,
         DistinctSiblings;
    b.Reconcile(order);
    EffectivePart(b.roots, b.doc, b.V());
    NothingCountedNow(b.roots, b.doc, Effective(b.roots, b.doc, b.V()), b.V());
    added, removed, modified := b.ComputeOfflineChanges();
  }

  /** Ids of device B and its root tables do not clash with the keys device A will hand out. */
  ghost predicate ElsewhereApart(a: Bridge, b: Browser, r: Roots)
    reads a, a.browser, b
  {
    && (forall c :: c in b.f.par ==> c < a.browser.next) && b.f.top < a.browser.next
    && (forall c :: c in r.ids ==> c < a.browser.next && c < b.next)
    && a.browser.next + |Managed(a.roots, a.browser.f)| <= b.next
  }

  /** The cross-device round trip, over the methods themselves: device A seeds a document from its tree, and device
      B, which has no managed bookmarks, reconciles it twice. Their trees are isomorphic exactly when B has the
      root containers that A's bookmarks use. */
  method ShareWithDevice(a: Bridge, browserB: Browser, rB: Roots) returns (b: Bridge)
    requires a.Valid() && a.doc == map[] && a.l2c == map[] && a.browser != browserB
    requires browserB.Valid() && RootsOk(rB, browserB.f) && Managed(rB, browserB.f) == {}
    requires ElsewhereApart(a, browserB, rB)
    modifies a`doc, a`l2c, a`c2l, a`stored, a.browser`next, browserB
    ensures a.Valid() && b.Valid() && b.browser == browserB && b.roots == rB && b.doc == a.doc
    ensures Captured(a.roots, a.doc, a.V())
    ensures Isomorphic(a.roots, rB, a.V(), b.V()) <==> RootsAvailable(rB, a.doc, old(browserB.f))
  {
    hide WF, RootsOk, Linked, Managed, Reconciles, Reconcilable, Mirrors, ValidDoc, Grounded, Isomorphic,
         RootsAvailable, Run, PassesOn, Captured, CleanPurge, Keeps, RootStray, Effective;
    var count, made := a.Bootstrap();
    MadeKeys(a.roots, a.doc, a.V(), made);
    b := new Bridge(browserB, rB, a.doc);
    CleanAlready(rB, b.V(), []);
    ghost var run := ReconcileTimes(b, [], 2);
    CapturedSettled(a.roots, a.doc, a.V());
    ValidParts(a.doc);
    EffectiveWhole(rB, a.doc, run[0]);
    GroundedClosed(a.doc, {});
    SettledRun(rB, a.doc, run, 2);
    assert run[..3] == run;
    CrossDevice(a.roots, rB, a.doc, a.V(), run, 2);
  }

  /** Ids of the two browsers do not clash with the keys device A will hand out. */
  ghost predicate BrowsersApart(a: Browser, b: Browser)
    reads a, b
  {
    && (forall c :: c in b.f.par ==> c < a.next) && b.f.top < a.next
    && 8 <= a.next && 8 <= b.next && a.next + |a.f.par.Keys| <= b.next
  }

  /** The same from two browsers alone, each with the tables found for it: what is in A's toolbar, other and mobile
      bookmarks is recorded below "1", "2" and "3" and ends up, in order, in those of B, whichever browsers they are,
      exactly when B has those that A uses. */
  method ShareBrowsers(browserA: Browser, browserB: Browser) returns (a: Bridge, b: Bridge)
    requires browserA != browserB && browserA.Valid() && browserB.Valid() && BrowsersApart(browserA, browserB)
    requires BrowserTree(browserA.f) && BrowserTree(browserB.f)
    requires forall k :: 1 <= k <= 3 ==> !ShelfUsed(browserB.f, k)
    modifies browserA`next, browserB
    ensures a.Valid() && b.Valid() && a.browser == browserA && b.browser == browserB && browserA.f == old(browserA.f)
    ensures forall k :: 1 <= k <= 3 ==> Labelled(a.doc, a.V(), k)
    ensures Isomorphic(a.roots, b.roots, a.V(), b.V()) <==> ShelvesThere(browserA.f, old(browserB.f))
    ensures ShelvesThere(browserA.f, old(browserB.f)) ==>
      forall k :: 1 <= k <= 3 ==> SameShelf(a.V(), b.V(), old(browserB.f), k)
  {
    hide WF, RootsOk, Standing, BrowserTree, Linked, Managed, Mirrors, ValidDoc, Isomorphic, RootsAvailable, Captured,
         ShelfUsed, SameShelf, ShelvesThere, Labelled;
    ghost var g := browserB.f;
    var rA := InitBrowserRoots(browserA.f);
    var rB := InitBrowserRoots(browserB.f);
    EmptyShelves(rB, g);
    ManagedCount(rA, browserA.f);
    a := new Bridge(browserA, rA, map[]);
    b := ShareWithDevice(a, browserB, rB);
    ShelvesNeeded(rA, rB, a.doc, a.V(), g);
    forall k | 1 <= k <= 3 ensures Labelled(a.doc, a.V(), k) { ShelfLabels(rA, a.doc, a.V(), k); }
    if ShelvesThere(browserA.f, g) {
      forall k | 1 <= k <= 3 ensures SameShelf(a.V(), b.V(), g, k) {
        ShelfKept(rA, rB, g, a.V(), b.V(), k) by { ShelfThere(browserA.f, g, k); }
      }
    }
  }

  lemma ShelfThere(f: Forest, g: Forest, k: Id)
    requires ShelvesThere(f, g) && 1 <= k <= 3
    ensures ShelfUsed(f, k) ==> Shelf(g, k) in g.par
  {}

  lemma ManagedCount(r: Roots, f: Forest)
    ensures |Managed(r, f)| <= |f.par.Keys|
  {
    SubsetSize(Managed(r, f), f.par.Keys);
  }

  lemma MadeKeys(r: Roots, doc: Doc, v: View, made: View)
    requires Captured(r, doc, made)
    ensures doc.Keys == made.l2c.Keys
  {
    CapturedMaps(r, doc, made);
  }
}
