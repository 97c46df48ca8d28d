/** The bookmark bridge: one reconcile pass over a browser, step by step. */
module Bridges {
  import opened Forests
  import opened ForestOps
  import opened Browsers
  import opened Positions
  import opened Placement
  import opened Documents
  import opened RootTables
  import opened ManagedTree
  import opened BridgeSpec
  import opened DeletePhase
  import opened CreatePhase
  import opened ContentPhase
  import opened PassLemmas
  import opened ReconcileLemmas
  import opened Arranging
  import opened Convergence
  import opened Capture
  import opened LocalMerge
  import opened OfflineChanges
  import opened ImportMerge

  class Bridge {
    const browser: Browser
    var roots: Roots
    var doc: Doc
    /** Document id to browser id, and back. */
    var l2c: map<Id, Id>
    var c2l: map<Id, Id>
    /** The mapping as last persisted. */
    var stored: map<Id, Id>

    ghost function V(): View
      reads this, browser
    {
      View(browser.f, l2c, c2l)
    }

    ghost predicate Valid()
      reads this, browser
    {
      && browser.Valid() && RootsOk(roots, browser.f) && Linked(l2c, c2l)
      && IdsBelow(browser.next, doc.Keys + l2c.Keys + c2l.Keys + roots.ids)
      && Apart(doc.Keys + l2c.Keys, roots, V())
    }

    constructor (b: Browser, r: Roots, d: Doc)
      requires b.Valid() && RootsOk(r, b.f)
      requires IdsBelow(b.next, d.Keys + r.ids) && Apart(d.Keys, r, View(b.f, map[], map[]))
      ensures Valid() && browser == b && roots == r && doc == d && l2c == map[] && c2l == map[] && stored == map[]
    {
      hide WF, RootsOk;
      browser, roots, doc, l2c, c2l, stored := b, r, d, map[], map[], map[];
    }

    /** Step 0: forgets mapped nodes that are no longer in the managed tree. `order` lists the pairs by their
        document ids, in the order in which they were inserted. Managed pairs stay, and so do nodes directly below
        a root; pairs whose node is gone, or has neither a root nor a mapped node as its parent, go. When the purge
        is clean, exactly the managed nodes stay mapped (see `CleanExact` and `PurgeExact`). */
    method PurgeStale(current: set<Id>, order: seq<Id>)
      requires browser.Valid() && Linked(l2c, c2l) && NoDup(order) && SetOf(order) == l2c.Keys
      modifies this`l2c, this`c2l
      ensures (l2c, c2l) == PurgeAll(roots, browser.f, current, old(l2c), old(c2l), order)
      ensures Linked(l2c, c2l) && forall c :: c in c2l ==> c in old(c2l) && c2l[c] == old(c2l)[c]
      ensures forall c :: c in old(c2l) && c in current ==> c in c2l
      ensures forall c :: c in old(c2l) && c in browser.f.par && browser.f.par[c] in roots.ids ==> c in c2l
      ensures forall c :: c in c2l && c !in current ==> SeenInManagedTree(browser.f, roots, old(c2l), c)
      ensures current == Managed(roots, browser.f) && CleanPurge(roots, old(V()), order) ==>
        c2l.Keys <= current && V() == ForgetNodes(old(V()), old(c2l).Keys - current)
    {
      hide Managed, PurgeAll;
      ghost var v := V();
      var i := 0;
      PurgeNothing(roots, browser.f, current, l2c, c2l);
      assert order[..0] == [];
      while i < |order|
        invariant 0 <= i <= |order|
        invariant (l2c, c2l) == PurgeAll(roots, browser.f, current, v.l2c, v.c2l, order[..i])
      {
        PurgeNext(roots, browser.f, current, v.l2c, v.c2l, order, i);
        PurgeKeeps(roots, browser.f, current, v.l2c, v.c2l, order[..i]);
        var l := order[i];
        if l in l2c {
          var c := l2c[l];
          if c !in current && !SeenInManagedTree(browser.f, roots, c2l, c) {
            l2c := l2c - {l};
            c2l := c2l - {c};
          }
        }
        i := i + 1;
      }
      assert order[..i] == order;
      PurgeOutcome(roots, v, current, order, l2c, c2l);
    }

    /** Step 1: removes every managed node whose entry is not wanted, with its subtree, and forgets
        the mappings of everything removed. */
    method DeleteUndesired(snap: Forest, current: set<Id>, keys: set<Id>) returns (deleted: set<Id>)
      requires browser.Valid() && RootsOk(roots, snap) && snap == browser.f
      requires current == Managed(roots, snap) && Linked(l2c, c2l)
      modifies this`l2c, this`c2l, browser`f, browser`log
      ensures browser.Valid() && Sound(roots, V()) && Containers(roots, browser.f) == Containers(roots, snap)
      ensures deleted <= current && c2l.Keys == old(c2l).Keys - deleted && browser.f == Removed(snap, deleted)
      ensures V() == ForgetNodes(old(V()), deleted).(f := Removed(snap, deleted))
      ensures old(c2l).Keys <= current ==> Covering(roots, V()) && c2l.Keys == current - deleted && l2c.Keys <= keys
      ensures KeptNodes(old(V()), Containers(roots, snap), current, keys, current - deleted)
      ensures (forall c :: c in current ==> Wanted(old(c2l), keys, c)) ==>
        deleted == {} && V() == old(V()) && browser.log == old(browser.log)
    {
      hide WF, Removed, KeptNodes, Containers, Managed, Doomed, Ordinary;
      ghost var v, cs, log0 := V(), Containers(roots, snap), browser.log;
      deleted := {};
      var todo := current;
      DeletionStart(roots, v, current, keys);
      while todo != {}
        invariant browser.Valid() && todo <= current
        invariant Doomed(v, current, keys, deleted) && Swept(v, current, keys, deleted, todo)
        invariant browser.f == Removed(snap, deleted)
        invariant View(snap, l2c, c2l) == ForgetNodes(v, deleted)
        invariant (forall c :: c in current ==> Wanted(v.c2l, keys, c)) ==> deleted == {} && browser.log == log0
      {
        var c :| c in todo;
        todo := todo - {c};
        if c !in deleted && !Wanted(c2l, keys, c) {
          DeletableNow(roots, v, current, keys, deleted, c);
          var ok, gone := browser.RemoveTree(c);
          var below := Descendants(snap, c);
          DeleteStep(roots, v, cs, current, keys, deleted, c, gone, below + {c});
          l2c, c2l := (map l | l in l2c && l2c[l] !in below + {c} :: l2c[l]), c2l - (below + {c});
          deleted := deleted + (below + {c});
        }
      }
      DeletionResult(roots, v, current, keys, deleted);
    }

    /** One iteration of step 2: creates the entry if its parent has a folder in the browser. */
    method CreateEntry(e: Doc, l: Id, ghost v: View, ghost known: set<Id>, ghost n0: Id)
      requires browser.Valid() && CreateInv(roots, e, v, V(), known, n0, browser.next)
      requires ParentsKnown(e, known) && l in e && l !in l2c
      modifies this`l2c, this`c2l, this`stored, browser
      ensures browser.Valid() && CreateInv(roots, e, v, V(), known, n0, browser.next)
      ensures old(l2c).Keys <= l2c.Keys <= old(l2c).Keys + {l}
      ensures HasFolder(roots, e, old(V()), l) <==> l in l2c
    {
      hide WF, CreateInv, Native, ParentsKnown, Created, CanHold, HasFolder;
      ghost var w := V();
      CreateFacts(roots, e, v, w, known, n0, browser.next);
      var p := Native(roots, l2c, e[l].parentId);
      FolderFacts(roots, e, w, l);
      if !IsVirtualRoot(roots, p) && (p in roots.ids || p in c2l) {
        var created := browser.Create(p, e[l].title, e[l].url);
        if created.Some? {
          CreateStep(roots, e, v, w, known, n0, l, created.value);
          l2c := l2c[l := created.value];
          c2l := c2l[created.value := l];
          // Saved after each creation, so that an interrupted pass does not create twice.
          stored := l2c;
        }
      }
    }

    /** Step 2: creates the wanted entries that are not mapped, parents first. Created are exactly those whose chain of
        parents leads through folders to a root container or to a folder that is mapped already; the others are
        skipped. */
    method CreateMissing(e: Doc, ghost known: set<Id>)
      requires browser.Valid() && CreateInv(roots, e, V(), V(), known, browser.next, browser.next)
      requires ParentsKnown(e, known)
      modifies this`l2c, this`c2l, this`stored, browser
      ensures browser.Valid() && CreateInv(roots, e, old(V()), V(), known, old(browser.next), browser.next)
      ensures forall l :: l in l2c <==> l in old(l2c) || CanPlant(roots, e, old(V()), old(l2c).Keys, l)
      ensures e.Keys <= old(l2c.Keys) ==> V() == old(V()) && browser.log == old(browser.log)
    {
      hide WF, TopoSorted, Reaches, CreateInv, Native, ParentsKnown, HasFolder, Missing, Planted, CanPlant;
      ghost var v, n0 := V(), browser.next;
      var alreadyMapped := {0, 1, 2, 3} + l2c.Keys;
      var missing := Missing(e, l2c.Keys);
      var order := Enumerate(missing.Keys);
      var toCreate := TopoSort(order, missing, alreadyMapped);
      TopoMembers(order, missing, alreadyMapped, toCreate);
      MissingMembers(e, l2c.Keys);
      CreateInOrder(e, order, toCreate, known);
      CreateFinish(roots, e, v, V(), known, n0, browser.next);
      PlantedAll(roots, e, v, V(), toCreate);
      NoneMissing(e, v.l2c.Keys, toCreate);
    }

    method CreateInOrder(e: Doc, ghost order: seq<Id>, toCreate: seq<Id>, ghost known: set<Id>)
      requires browser.Valid() && CreateInv(roots, e, V(), V(), known, browser.next, browser.next)
      requires ParentsKnown(e, known)
      requires TopoSorted(order, Missing(e, l2c.Keys), {0, 1, 2, 3} + l2c.Keys, toCreate) && NoDup(toCreate)
      requires forall k :: 0 <= k < |toCreate| ==> toCreate[k] in e && toCreate[k] !in l2c
      modifies this`l2c, this`c2l, this`stored, browser
      ensures browser.Valid() && CreateInv(roots, e, old(V()), V(), known, old(browser.next), browser.next)
      ensures Planted(roots, e, old(V()), V(), SetOf(toCreate))
      ensures |toCreate| == 0 ==> V() == old(V()) && browser.log == old(browser.log)
    {
      hide WF, TopoSorted, CreateInv, ParentsKnown, HasFolder, Missing, Planted, CanPlant, Sound, Covering, Grown;
      ghost var v, n0, log0 := V(), browser.next, browser.log;
      var i := 0;
      PlantedNone(roots, e, v);
      assert SetOf(toCreate[..0]) == {};
      while i < |toCreate|
        invariant 0 <= i <= |toCreate|
        invariant browser.Valid() && CreateInv(roots, e, v, V(), known, n0, browser.next)
        invariant forall k :: i <= k < |toCreate| ==> toCreate[k] !in l2c
        invariant Planted(roots, e, v, V(), SetOf(toCreate[..i]))
        invariant |toCreate| == 0 ==> V() == v && browser.log == log0
      {
        var l := toCreate[i];
        ghost var w := V();
        CreateFacts(roots, e, v, w, known, n0, browser.next);
        CreateFinish(roots, e, v, w, known, n0, browser.next);
        FolderIff(roots, e, v, w, known, order, toCreate, i);
        PrefixSet(toCreate, i);
        CreateEntry(e, l, v, known, n0);
        PlantedStep(roots, e, v, w, V(), SetOf(toCreate[..i]), l);
        i := i + 1;
      }
      assert toCreate[..i] == toCreate;
    }

    /** Steps 0 to 2, for any document and any mapping: the purge leaves the pairs of `x.stays`, pruning the entries of
        `effective`; `x` records the states in between. See `Stocked` for the pairs there are afterwards, and `Prepared`
        for what a clean purge adds. */
    method Prepare(order: seq<Id>)
        returns (effective: Doc, snap: Forest, current: set<Id>, deleted: set<Id>, ghost x: Stage)
      requires Valid() && NoDup(order) && SetOf(order) == l2c.Keys
      modifies this`l2c, this`c2l, this`stored, browser
      ensures browser.Valid() && Begun(roots, x) && Stocked(roots, x) && x.s == old(V()) && x.w == V()
      ensures snap == x.s.f && current == x.current && deleted == x.deleted && effective == x.e
      ensures var (a, b) := PurgeAll(roots, x.s.f, x.current, old(l2c), old(c2l), order);
        effective == Pruned(doc, a.Keys) && x.stays == b.Keys
      ensures IdsBelow(browser.next, doc.Keys + l2c.Keys + c2l.Keys + roots.ids)
      ensures Apart(doc.Keys + l2c.Keys, roots, V())
      ensures CleanPurge(roots, old(V()), order) ==> Prepared(roots, x) && effective == Effective(roots, doc, old(V()))
      ensures CleanPurge(roots, old(V()), order) <==> x.stays <= current
      ensures Synced(roots, effective, old(V())) ==> V() == old(V()) && browser.log == old(browser.log)
    {
      hide WF, Covering, Sound, Grown, Managed, CreateInv, Linked, RootsOk, Apart, Prepared, Begun, Stocked, CanPlant,
           Pruned, Synced, KeptNodes, Removed, ForgetNodes, CleanPurge, PurgeAll, RootStraysIn, Wanted, Containers,
           Restrict, ParentClosed, SeenInManagedTree, ParentsKnown, StraysSeen, MappedManaged;
      ghost var s, known, log0, n0 := V(), doc.Keys + l2c.Keys, browser.log, browser.next;
      snap := browser.f;
      var visit := CollectManaged(roots, snap);
      current := set c | c in visit;
      assert current == SetOf(visit);
      PurgeStale(current, order);
      ghost var u := V();
      PurgedPart(roots, s, u, order);
      effective := PruneOrphans(doc, l2c.Keys);
      PrunedClosed(doc, l2c.Keys);
      deleted := DeleteUndesired(snap, current, effective.Keys);
      ghost var v := V();
      PreparedDelete(roots, doc, s, u, v, current, deleted, effective, known, n0);
      SyncedStart(roots, s, u, effective);
      CreateMissing(effective, known);
      x := Stage(s, u.c2l.Keys, current, deleted, effective, v, V());
      StageDone(roots, doc, x, u, order, known, n0, browser.next);
    }

    /** Steps 3 and 4: contents, then parents and order. */
    method Arrange(effective: Doc, snap: Forest, current: set<Id>, deleted: set<Id>, ghost x: Stage)
      requires browser.Valid() && Begun(roots, x) && V() == x.w
      requires snap == x.s.f && current == x.current && deleted == x.deleted && effective == x.e
      requires Synced(roots, effective, x.s) ==> x.w == x.s
      requires Stocked(roots, x) && Linked(x.s.l2c, x.s.c2l)
      modifies browser`f, browser`log
      ensures browser.Valid() && Sound(roots, V())
      ensures exists f, target, folders :: ArrangedFrom(roots, x, f, browser.f, target, folders)
      ensures Prepared(roots, x) ==> Covering(roots, V())
      ensures Arranges(roots, x.e, x.s, x.stays, V())
      ensures Prepared(roots, x) && ValidDoc(x.e) && Mirrors(roots, x.e, x.s) ==>
        V() == x.s && browser.log == old(browser.log)
    {
      hide WF, Prepared, Covering, ContentReady, ContentInv, TargetInv, PlanOk, Shuffled, Untouched, Synced, Mirrors,
           ValidDoc, AllServed, AllInPlace, NothingToRefresh, SameParents, Begun, Stocked, Sound, Arranges, Linked;
      ghost var mirrored := Prepared(roots, x) && ValidDoc(x.e) && Mirrors(roots, x.e, x.s);
      StageReady(roots, x);
      BegunFacts(roots, x);
      if mirrored {
        MirrorSynced(roots, effective, x.s);
        MirrorFresh(roots, effective, x.s, x.current);
      }
      var byFolder, target := FixContent(browser, roots, effective, x.w, l2c, c2l, snap, current, deleted);
      ghost var f := browser.f;
      if mirrored { NothingToArrange(roots, effective, x, f, byFolder, target); }
      PlanParents(roots, x, f, target);
      ContentFrame(effective, x.w, current, f);
      FixPositions(browser, snap, byFolder, IndexOf(effective, c2l), target);
      PositionsCovering(roots, effective, x.w, current, f, browser.f, target);
      FoldersUsed(f, byFolder, IndexOf(effective, c2l), target);
      assert ArrangedFrom(roots, x, f, browser.f, target, byFolder.Keys);
      if Prepared(roots, x) { PreparedCovers(roots, x); }
      ArrangesDone(roots, x, f, browser.f, byFolder, target);
    }

    /** One pass. `order` lists the pairs in the order in which they were inserted. For any document and whatever is
        mapped, it leaves the maps inverse and everything outside the managed tree as it was, but for the child lists of
        mapped folders there (`Keeps`), and it brings in the document as far as it is no orphan and can be planted
        (`Delivers`). After a clean purge (see `CleanExact`) the maps cover exactly the managed nodes and nothing
        outside changes (`Reconciles`); maps and contents then agree with the document without its orphans if and only
        if it `Fills`. A tree that shows it already is left alone. */
    method Reconcile(order: seq<Id>)
      requires Valid() && NoDup(order) && SetOf(order) == l2c.Keys
      modifies this`l2c, this`c2l, this`stored, browser
      ensures Valid() && stored == l2c
      ensures Keeps(roots, old(V()), V())
      ensures var (a, b) := PurgeAll(roots, old(browser.f), Managed(roots, old(browser.f)), old(l2c), old(c2l), order);
        Delivers(roots, Pruned(doc, a.Keys), old(V()), b.Keys, V())
      ensures CleanPurge(roots, old(V()), order) ==>
        Reconciles(roots, Effective(roots, doc, old(V())), old(V()), V())
      ensures var p := Effective(roots, doc, old(V()));
        Synced(roots, p, V()) <==> CleanPurge(roots, old(V()), order) && Fills(roots, p, old(V()))
      ensures var p := Effective(roots, doc, old(V()));
        ValidDoc(p) && Mirrors(roots, p, old(V())) ==> V() == old(V()) && browser.log == old(browser.log)
    {
      hide Managed, WF, Covering, Sound, Begun, Stocked, Prepared, ArrangedFrom, Reconcilable, Reconciles, Keeps,
           Delivers, Arranges, Mirrors, Synced, Grounded, ValidDoc, RootsOk, Linked, Apart, IdsBelow, CleanPurge,
           Containers, Fills, Effective, Pruned, PurgeAll, ParentClosed;
      ghost var s := V();
      ghost var p := Effective(roots, doc, s);
      ghost var mirrored := ValidDoc(p) && Mirrors(roots, p, s);
      if mirrored {
        ValidParts(p);
        GroundedClosed(p, {});
        MirrorsReady(roots, p, s, order);
      }
      var effective, snap, current, deleted, x := Prepare(order);
      ghost var w := V();
      Arrange(effective, snap, current, deleted, x);
      stored := l2c;
      SoundLinked(roots, V());
      ghost var f, target, folders :| ArrangedFrom(roots, x, f, browser.f, target, folders);
      PassKeeps(roots, x, f, browser.f, target, folders);
      PassDelivers(roots, x, f, browser.f, target, folders);
      StageApart(roots, x, f, browser.f, target, folders, doc.Keys + l2c.Keys);
      assert x.current == Managed(roots, s.f) by { BegunFacts(roots, x); }
      if CleanPurge(roots, s, order) {
        PassReconciles(roots, x, f, browser.f, target, folders);
        FilledIff(roots, p, s, V());
      } else {
        UncleanLeft(roots, x, f, browser.f, target, folders, p);
      }
    }

    // ---- From the browser to the document --------------------------------------------------------

    /** Step 1 of the merge: an entry for every managed node that is not mapped, parents first. */
    method AddNewNodes(visit: seq<Id>)
      requires Valid() && NoDup(visit) && SetOf(visit) == Managed(roots, browser.f)
      requires ParentsFirst(browser.f, Containers(roots, browser.f), visit)
      modifies this`doc, this`l2c, this`c2l, browser`next
      ensures Valid() && AddInv(roots, old(doc), old(V()), doc, V(), Managed(roots, browser.f))
    {
      hide AddInv, WF, RootsOk, KeysOk, Managed, Containers, ParentsFirst, Listable, ParentSettled, ToNode, Linked;
      ghost var d0, v0 := doc, V();
      AddStart(roots, d0, v0);
      KeysParts(roots, doc, V(), browser.next);
      assert SetOf(visit[..0]) == {};
      var i := 0;
      while i < |visit|
        invariant 0 <= i <= |visit| && browser.Valid()
        invariant AddInv(roots, d0, v0, doc, V(), SetOf(visit[..i])) && KeysOk(roots, doc, V(), browser.next)
      {
        var c := visit[i];
        PrefixSet(visit, i);
        SeenMapped(roots, d0, v0, doc, V(), SetOf(visit[..i]));
        WalkSettled(roots, browser.f, visit, i, c2l);
        if c in c2l {
          AddKnown(roots, d0, v0, doc, V(), SetOf(visit[..i]), c);
        } else {
          ghost var v := V();
          ListableHas(browser.f, c);
          var node := ToNode(roots, browser.f, c2l, c);
          var l := browser.Fresh();
          KeysAdded(roots, doc, v, l, c, node);
          AddStep(roots, d0, v0, doc, v, SetOf(visit[..i]), c, l);
          l2c := l2c[l := c];
          c2l := c2l[c := l];
          doc := doc[l := node];
        }
        i := i + 1;
      }
      assert visit[..i] == visit;
      SeenMapped(roots, d0, v0, doc, V(), SetOf(visit[..i]));
      KeysParts(roots, doc, V(), browser.next);
    }

    /** Step 2 of the merge: drops mapped entries whose node is gone. */
    method DropDead(current: set<Id>) returns (ghost gone: set<Id>)
      requires Valid()
      modifies this`doc, this`l2c, this`c2l
      ensures Valid() && DropInv(old(doc), old(V()), current, doc, V(), gone)
      ensures forall l :: l in doc && l in l2c ==> l2c[l] in current
    {
      hide DropInv, WF, RootsOk, KeysOk, Linked;
      ghost var d1, v1 := doc, V();
      gone := {};
      DropStart(d1, v1, current);
      DropFacts(d1, v1, current, doc, V(), gone);
      var todo := doc.Keys;
      while todo != {}
        invariant browser.Valid() && DropInv(d1, v1, current, doc, V(), gone) && todo <= d1.Keys
        invariant forall l :: l in doc && l in l2c && l !in todo ==> l2c[l] in current
      {
        var l :| l in todo;
        todo := todo - {l};
        DropFacts(d1, v1, current, doc, V(), gone);
        if l in l2c && l2c[l] !in current {
          DropStep(d1, v1, current, doc, V(), gone, l);
          c2l := c2l - {l2c[l]};
          doc := doc - {l};
          l2c := l2c - {l};
          gone := gone + {l};
        }
      }
      DropFacts(d1, v1, current, doc, V(), gone);
      KeysParts(roots, d1, v1, browser.next);
      KeysSmaller(roots, d1, v1, browser.next, doc, V());
      KeysParts(roots, doc, V(), browser.next);
    }

    /** Step 3 of the merge: rewrites the entries whose node changed. */
    method UpdateChanged(current: set<Id>)
      requires Valid() && current == Managed(roots, browser.f)
      modifies this`doc
      ensures Valid() && UpdateInv(roots, old(doc), V(), current, doc, {})
    {
      hide UpdateInv, WF, RootsOk, Linked, Managed, ToNode, Listable;
      ghost var d2 := doc;
      UpdateStart(roots, d2, V(), current);
      var todo := doc.Keys;
      while todo != {}
        invariant browser.Valid() && UpdateInv(roots, d2, V(), current, doc, todo) && todo <= doc.Keys
      {
        var l :| l in todo;
        ghost var d := doc;
        UpdateFacts(roots, d2, V(), current, d, todo);
        if l in l2c && l2c[l] in current {
          ManagedListable(roots, browser.f, l2c[l]);
          ListableHas(browser.f, l2c[l]);
          var node := ToNode(roots, browser.f, c2l, l2c[l]);
          if !SameEntry(doc[l], node) { doc := doc[l := node]; }
        }
        UpdateStep(roots, d2, V(), current, d, todo, l, doc);
        todo := todo - {l};
      }
      UpdateFacts(roots, d2, V(), current, doc, todo);
    }

    /** Captures the browser's current state in the document. When the mapping covers exactly the
        document, the result is an exact record of the managed tree. */
    method MergeLocalChanges()
      requires Valid()
      modifies this`doc, this`l2c, this`c2l, this`stored, browser`next
      ensures Valid() && stored == l2c
      ensures old(l2c.Keys) == old(doc.Keys) ==> Captured(roots, doc, V())
      ensures forall l :: l in old(doc) && l !in old(l2c) ==> l in doc && doc[l] == old(doc)[l]
      ensures forall l :: l in old(l2c) && old(l2c)[l] in Managed(roots, browser.f) ==>
        l in l2c && l2c[l] == old(l2c)[l]
      ensures forall c :: c in Managed(roots, browser.f) ==> NodeMerged(roots, old(doc), old(V()), doc, V(), c)
      ensures forall l :: l in old(doc) && l in old(l2c) && old(l2c)[l] !in Managed(roots, browser.f) ==> l !in doc
      ensures forall l :: l in doc && l !in old(doc) ==>
        l in l2c && l2c[l] in Managed(roots, browser.f) && l2c[l] !in old(c2l)
      ensures KindsSane(old(doc)) ==> KindsSane(doc)
    {
      hide AddInv, DropInv, UpdateInv, WF, RootsOk, Linked, Managed, Captured, KindsSane, Apart, IdsBelow, NodeMerged;
      ghost var d0, v0 := doc, V();
      var visit := CollectManaged(roots, browser.f);
      AddNewNodes(visit);
      var current := set c | c in visit;
      assert current == SetOf(visit);
      ghost var d1, v1 := doc, V();
      ghost var gone := DropDead(current);
      ghost var d2 := doc;
      UpdateChanged(current);
      stored := l2c;
      MergeResult(roots, d0, v0, d1, v1, gone, d2, V(), doc);
    }

    /** Counts the changes made while offline: the managed nodes that are not mapped, the pairs whose node is not
        managed, the entries that differ from their node, and the folders whose order differs; with equal indices in a
        folder it may or may not be counted. With a mapping that covers exactly the document and distinct sibling
        indices, all counts are zero exactly when the managed tree already is the document. */
    method ComputeOfflineChanges() returns (added: nat, removed: nat, modified: nat)
      requires Valid()
      ensures added == |set c | c in Managed(roots, browser.f) && c !in c2l|
      ensures removed == |set l | l in l2c && l2c[l] !in Managed(roots, browser.f)|
      ensures var m := Managed(roots, browser.f);
        |ModifiedEntries(roots, m, doc, V())| + |Reordered(roots, m, doc, V())| <= modified
        <= |ModifiedEntries(roots, m, doc, V())| + |Reordered(roots, m, doc, V()) + Tied(roots, m, doc, V())|
      ensures DistinctSiblings(doc) ==>
        modified == |ModifiedEntries(roots, Managed(roots, browser.f), doc, V())|
          + |Reordered(roots, Managed(roots, browser.f), doc, V())|
      ensures DistinctSiblings(doc) && l2c.Keys == doc.Keys ==>
        (added == 0 && removed == 0 && modified == 0 <==> Mirrors(roots, doc, V()) && ParentClosed(doc, {}, doc.Keys))
    {
      hide WF, RootsOk, Linked, Managed, ModifiedEntries, UnchangedEntries, Reordered, Tied, Mirrors, DistinctSiblings,
           Grouped, PlacesApart, ParentClosed, IsReordered, TiedFolder, Listable, Unmapped, Gone;
      var v := View(browser.f, l2c, c2l);
      var visit := CollectManaged(roots, browser.f);
      var current := set c | c in visit;
      assert current == SetOf(visit);
      added := CountAdded(visit, c2l);
      removed := CountRemoved(l2c, current);
      CountsAre(current, v);
      var byLoro, byChrome;
      forall c | c in current ensures Listable(v.f, c) { ManagedListable(roots, v.f, c); }
      modified, byLoro, byChrome := CompareEntries(roots, current, doc, v);
      UnchangedKeys(roots, doc, v);
      UnchangedApart(roots, doc, v) by { assert Apart(l2c.Keys, roots, v); }
      var n := CompareOrders(doc, v, byLoro, byChrome, UnchangedEntries(roots, current, doc, v));
      ReorderedFolders(roots, current, doc, v, byLoro);
      modified := modified + n;
      if DistinctSiblings(doc) {
        NoTies(roots, current, doc, v);
        NothingIff(roots, doc, v, added, removed, modified);
        if l2c.Keys == doc.Keys { NothingToMergeIff(roots, doc, v); }
      }
    }

    /** Seeds an empty document from the browser's tree (first install). The document always becomes an exact
        record; it is one under the bridge's own mapping exactly when the mapping was empty before. */
    method Bootstrap() returns (count: nat, ghost made: View)
      requires Valid()
      modifies this`doc, this`l2c, this`c2l, this`stored, browser`next
      ensures stored == l2c && count == |Managed(roots, browser.f)|
      ensures l2c == old(l2c) + made.l2c && c2l == old(c2l) + made.c2l
      ensures old(doc) == map[] ==> Captured(roots, doc, made) && KindsSane(doc)
      ensures old(doc) == map[] ==> (Captured(roots, doc, V()) <==> old(l2c) == map[])
      ensures old(l2c) == map[] ==> Valid()
      ensures browser.next == old(browser.next) + count
      ensures forall l :: l in made.l2c ==> old(browser.next) <= l < browser.next
    {
      hide AddInv, WF, RootsOk, KeysOk, Managed, Containers, ParentsFirst, Linked, Captured, Apart, IdsBelow, KindsSane;
      ghost var d0, was, n0 := doc, V(), browser.next;
      var visit := CollectManaged(roots, browser.f);
      KeysParts(roots, doc, V(), browser.next);
      BootStart(roots, d0, V(), browser.next);
      count, made := Seed(visit);
      stored := l2c;
      CardinalityOf(visit);
      SeenMapped(roots, d0, View(was.f, map[], map[]), doc, made, SetOf(visit));
      KeysParts(roots, doc, made, browser.next);
      MadeBelow(roots, doc, made, browser.next);
      EmptyInverse(was.l2c, was.c2l);
      if was.l2c == map[] { assert made == V(); }
      if d0 == map[] {
        AllRecorded(roots, doc, made, browser.f);
        OnlyNewKeys(roots, doc, made, was.l2c, n0, V());
      }
    }

    /** The loop of the bootstrap: an entry and a pair for every collected node. */
    method Seed(visit: seq<Id>) returns (count: nat, ghost made: View)
      requires browser.Valid() && RootsOk(roots, browser.f) && NoDup(visit)
      requires ParentsFirst(browser.f, Containers(roots, browser.f), visit)
      requires KeysOk(roots, doc, V(), browser.next) && Linked(l2c, c2l)
      modifies this`doc, this`l2c, this`c2l, browser`next
      ensures browser.Valid() && count == |visit| && browser.next == old(browser.next) + count
      ensures SeedInv(roots, old(doc), old(V()), old(browser.next), doc, made, V(), browser.next, SetOf(visit))
    {
      hide SeedInv, WF, RootsOk, KeysOk, Containers, ParentsFirst, Listable, ToNode, Linked;
      made := View(browser.f, map[], map[]);
      count := 0;
      SeedStart(roots, doc, V(), browser.next);
      assert SetOf(visit[..0]) == {};
      var i := 0;
      while i < |visit|
        invariant 0 <= i <= |visit| && browser.Valid() && count == i && browser.next == old(browser.next) + i
        invariant SeedInv(roots, old(doc), old(V()), old(browser.next), doc, made, V(), browser.next, SetOf(visit[..i]))
      {
        var c := visit[i];
        SeedStep(roots, old(doc), old(V()), old(browser.next), doc, made, V(), browser.next, visit, i);
        ListableHas(browser.f, c);
        var node := ToNode(roots, browser.f, c2l, c);
        var l := browser.Fresh();
        l2c := l2c[l := c];
        c2l := c2l[c := l];
        made := View(browser.f, made.l2c[l := c], made.c2l[c := l]);
        doc := doc[l := node];
        i := i + 1;
        count := count + 1;
      }
      assert visit[..i] == visit;
    }

    /** One visited node of the import: it is known, skipped as a duplicate, given a server folder, or added. */
    method ImportNode(excluding: bool, server: Doc, serverUrls: set<string>, max: map<Id, int>, next: map<Id, int>,
                      visit: seq<Id>, i: nat, ghost v0: View)
        returns (next': map<Id, int>)
      requires browser.Valid() && RootsOk(roots, browser.f) && NoDup(visit) && SetOf(visit) == Managed(roots, browser.f)
      requires ParentsFirst(browser.f, Containers(roots, browser.f), visit) && SiblingsInOrder(browser.f, visit)
      requires i < |visit| && serverUrls == Urls(server)
      requires ImportInv(roots, excluding, server, v0, max, next, doc, V(), SetOf(visit[..i]))
      requires KeysOk(roots, doc, V(), browser.next)
      modifies this`doc, this`l2c, this`c2l, browser`next
      ensures browser.Valid()
      ensures ImportInv(roots, excluding, server, v0, max, next', doc, V(), SetOf(visit[..i + 1]))
      ensures KeysOk(roots, doc, V(), browser.next)
      ensures forall l :: l in doc && l !in old(doc) ==> l in l2c && l2c[l] in Managed(roots, browser.f)
      ensures forall l :: l in old(doc) ==> l in doc
      ensures forall l :: l in old(l2c) ==> l in l2c && l2c[l] == old(l2c)[l]
      ensures c2l.Keys <= old(c2l.Keys) + Managed(roots, browser.f)
    {
      hide ImportInv, WF, RootsOk, KeysOk, Managed, Containers, ParentsFirst, Listable, ParentSettled, ToNode, Linked,
           ImportFrame, Visited, Canon, NoDup, NotThere, Urls, HasUrl;
      var c := visit[i];
      ghost var seen := SetOf(visit[..i]);
      PrefixSet(visit, i);
      FrameOf(roots, excluding, server, v0, max, next, doc, V(), seen);
      ImportSettled(roots, excluding, server, V(), visit, i);
      ListableHas(browser.f, c);
      ParentHere(roots, browser.f, visit, i, excluding, server, V());
      next' := next;
      var v := View(browser.f, l2c, c2l);
      var url := browser.f.info[c].url;
      if url.Some? { UrlListed(server, url.value); }
      if c in c2l || (url.Some? && excluding && url.value in serverUrls) {
        ImportKnown(roots, excluding, server, v0, max, next, doc, v, seen, c);
      } else {
        var candidates := if url.None? && excluding then Matching(roots, server, v, c) else {};
        if candidates != {} {
          var l :| l in candidates;
          KeyNotRoot(roots, doc, v, browser.next, l);
          ClaimedKeys(roots, doc, v, browser.next, c, l);
          ImportClaim(roots, excluding, server, v0, max, next, doc, v, seen, c, l);
          l2c := l2c[l := c];
          c2l := c2l[c := l];
        } else {
          ghost var l;
          SeenBefore(browser.f, visit, i);
          next', l := ImportAdd(excluding, server, max, next, c, seen, v0);
        }
      }
    }

    /** A new entry behind all its siblings. */
    method ImportAdd(excluding: bool, server: Doc, max: map<Id, int>, next: map<Id, int>, c: Id, ghost seen: set<Id>,
                     ghost v0: View)
        returns (next': map<Id, int>, ghost l: Id)
      requires browser.Valid() && RootsOk(roots, browser.f) && NeedsEntry(roots, excluding, server, V(), c)
      requires ImportInv(roots, excluding, server, v0, max, next, doc, V(), seen)
      requires KeysOk(roots, doc, V(), browser.next)
      requires forall x :: x in seen ==> Before(browser.f, x, c)
      modifies this`doc, this`l2c, this`c2l, browser`next
      ensures browser.Valid()
      ensures ImportInv(roots, excluding, server, v0, max, next', doc, V(), seen + {c})
      ensures KeysOk(roots, doc, V(), browser.next)
      ensures l !in old(doc) && l !in old(l2c) && l in doc && doc == old(doc)[l := doc[l]] && l2c == old(l2c)[l := c]
      ensures c2l == old(c2l)[c := l]
    {
      hide ImportInv, WF, RootsOk, KeysOk, Managed, Containers, ParentSettled, ToNode, Canon, NotThere, HasUrl,
           Matching;
      var v := View(browser.f, l2c, c2l);
      ListableHas(browser.f, c);
      var parent := Canon(roots, c2l, browser.f.par[c]);
      var index := NextOf(max, next, parent);
      var node := ToNode(roots, browser.f, c2l, c).(index := index);
      var id := browser.Fresh();
      l := id;
      ManagedPar(roots, browser.f, c);
      KeysAdded(roots, doc, v, l, c, node);
      NodeParent(roots, browser.f, c2l, c);
      if excluding { NoneMatching(roots, server, v, c, node); }
      ImportNew(roots, excluding, server, v0, max, next, doc, v, seen, c, l, node);
      next' := next[parent := index + 1];
      l2c := l2c[id := c];
      c2l := c2l[c := id];
      doc := doc[id := node];
    }

    /** Brings the browser's bookmarks into a document that came from the server. */
    method MergeImport(excludeDuplicates: bool)
      requires Valid()
      modifies this`doc, this`l2c, this`c2l, this`stored, browser`next
      ensures Valid() && stored == l2c
      ensures forall l :: l in old(doc) ==> l in doc && doc[l] == old(doc)[l]
      ensures forall l :: l in old(l2c) ==> l in l2c && l2c[l] == old(l2c)[l]
      ensures ImportedWell(roots, old(doc), old(V()), doc, V()) && AppendedBehind(old(doc), doc)
      ensures Claims(roots, excludeDuplicates, old(doc), old(V()), V()) && Reused(excludeDuplicates, old(doc), doc, V())
      ensures OrderKept(old(doc), doc, V())
      ensures l2c.Keys <= old(l2c.Keys) + doc.Keys
      ensures c2l.Keys <= old(c2l.Keys) + Managed(roots, browser.f)
      ensures forall c :: c in Managed(roots, browser.f) ==>
        c in c2l || Duplicate(excludeDuplicates, old(doc), browser.f, c)
      ensures old(l2c) == map[] ==> UrlsKept(Managed(roots, browser.f), browser.f, doc)
      ensures old(l2c) == map[] && Showable(roots, old(doc), browser.f) ==> Reconcilable(roots, doc, V())
    {
      hide ImportInv, WF, RootsOk, KeysOk, Managed, Containers, ParentsFirst, Linked, ImportFrame, ImportedWell,
           AppendedBehind, Claims, Reused, OrderKept, SiblingsInOrder, Duplicate, KindsSane, ValidDoc, RootsAvailable,
           Reconcilable, NoDup, IdsBelow, Apart;
      var server := doc;
      ghost var v0 := V();
      var serverUrls := Urls(server);
      var max := MaxIndices(server);
      var next: map<Id, int> := map[];
      var visit := CollectManaged(roots, browser.f);
      KeysParts(roots, doc, V(), browser.next);
      ImportStart(roots, excludeDuplicates, server, v0, max);
      assert SetOf(visit[..0]) == {};
      var i := 0;
      while i < |visit|
        invariant 0 <= i <= |visit| && browser.Valid() && KeysOk(roots, doc, V(), browser.next)
        invariant ImportInv(roots, excludeDuplicates, server, v0, max, next, doc, V(), SetOf(visit[..i]))
        invariant forall l :: l in doc && l !in server ==> l in l2c && l2c[l] in Managed(roots, browser.f)
        invariant c2l.Keys <= old(c2l.Keys) + Managed(roots, browser.f)
      {
        next := ImportNode(excludeDuplicates, server, serverUrls, max, next, visit, i, v0);
        i := i + 1;
      }
      assert visit[..i] == visit;
      stored := l2c;
      FrameOf(roots, excludeDuplicates, server, v0, max, next, doc, V(), SetOf(visit));
      ImportResult(roots, excludeDuplicates, server, v0, max, next, doc, V());
      KeysParts(roots, doc, V(), browser.next);
    }

    /** How many URLs only the browser has, and how many only the document. */
    method ComputeLocalImportDiff() returns (localOnly: nat, serverOnly: nat)
      requires Valid()
      ensures var m := Managed(roots, browser.f);
        var local := set c | c in m && c in browser.f.info
          && browser.f.info[c].url.Some? :: browser.f.info[c].url.value;
        var server := set l | l in doc && doc[l].url.Some? :: doc[l].url.value;
        localOnly == |local - server| && serverOnly == |server - local|
      ensures localOnly == 0 <==> UrlsKept(Managed(roots, browser.f), browser.f, doc)
    {
      var visit := CollectManaged(roots, browser.f);
      var chromeUrls :=
        set c | c in visit && c in browser.f.info && browser.f.info[c].url.Some? :: browser.f.info[c].url.value;
      assert chromeUrls == BrowserUrls(Managed(roots, browser.f), browser.f) by { WalkUrls(roots, browser.f, visit); }
      var serverUrls := Urls(doc);
      localOnly := |chromeUrls - serverUrls|;
      serverOnly := |serverUrls - chromeUrls|;
      NoneLeft(chromeUrls, serverUrls);
      KeptExactly(Managed(roots, browser.f), browser.f, doc);
    }
  }
}
