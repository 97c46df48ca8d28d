/** The sync protocol and the bridge together: from the edits of many devices to the trees their browsers show. */
module EndToEnd {
  import opened Forests
  import opened Documents
  import opened RootTables
  import opened BridgeSpec
  import opened Convergence
  import opened RoundTrip
  import Sync = SyncState
  import Theorems = SyncTheorems

  /** What a device does with its document: it reconciles, time after time. */
  datatype Device = Device(client: nat, roots: Roots, run: seq<View>)

  function First(x: Device): View
    requires x.run != []
  {
    x.run[0]
  }

  function Last(x: Device): View
    requires x.run != []
  {
    x.run[|x.run| - 1]
  }

  /** The bookmarks of all operations ever made on any device. */
  ghost function Everything(s: Sync.State, bookmarks: Sync.Ops -> Doc): Doc {
    bookmarks(Sync.AllOps(s.enqueued))
  }

  /** The device has pulled to the end of the log and reconciled the bookmarks of its document since. */
  ghost predicate CaughtUp(s: Sync.State, bookmarks: Sync.Ops -> Doc, x: Device) {
    && x.client in s.clients && Theorems.AtEnd(s, s.clients[x.client])
    && x.run != [] && PassesOn(x.roots, bookmarks(s.clients[x.client].doc.value), x.run)
  }

  /** The device's mapping shelters no orphans, and it reconciled max(2, depth) times or more. */
  ghost predicate OftenEnough(doc: Doc, x: Device) {
    x.run != [] && var p := Effective(x.roots, doc, First(x));
      ParentClosed(p, {}, p.Keys) && |x.run| > 2 && (Grounded(p) ==> DepthAtMost(p, |x.run| - 1))
  }

  /** Then it is the same part of the document on every device. */
  lemma SamePart(doc: Doc, x: Device)
    requires OftenEnough(doc, x)
    ensures Effective(x.roots, doc, First(x)) == Pruned(doc, {})
  {
    hide Grounded, Pruned, MappedManaged, ParentClosed;
    PrunedStays(doc, MappedManaged(x.roots, First(x)), {});
  }

  /** From edits to trees, in every guarded run of the protocol, with all queues drained and whatever the bookmarks are
      as a function of the operations: a device that has pulled to the end of the log shows the bookmarks of all
      operations ever made on any device, without orphans, after max(2, depth) passes, if and only if its tree was
      reconcilable with them; and entry by entry it shows what has a place in its browser. */
  lemma ShowsAllEdits(run: seq<Sync.State>, steps: seq<Sync.Step>, i: nat, bookmarks: Sync.Ops -> Doc, x: Device)
    requires Sync.GuardedRun(run, steps) && i < |run| && Theorems.Drained(run[i]) && CaughtUp(run[i], bookmarks, x)
    requires OftenEnough(Everything(run[i], bookmarks), x)
    ensures var p := Pruned(Everything(run[i], bookmarks), {});
      && (Mirrors(x.roots, p, Last(x)) <==> Reconcilable(x.roots, p, First(x)))
      && EntriesArrived(x.roots, p, First(x), Last(x), |x.run| - 1)
      && SiblingsArrived(x.roots, p, First(x), Last(x), |x.run| - 1)
  {
    hide EntriesArrived, SiblingsArrived, ParentClosed, Grounded, DepthAtMost, PassesOn, Mirrors, Reconcilable,
         Theorems.AtEnd, Theorems.Drained, Sync.GuardedRun, WF, RootsOk, Pruned, Effective;
    Theorems.Quiescence(run, steps, i, x.client);
    var n := |x.run| - 1;
    SamePart(Everything(run[i], bookmarks), x);
    PrunedConverges(x.roots, Everything(run[i], bookmarks), x.run, n, n);
    PrunedEntries(x.roots, Everything(run[i], bookmarks), x.run, n, n);
  }

  /** Hence any two such devices with reconcilable trees show isomorphic trees, whatever their root tables, if siblings
      have distinct indices. */
  lemma DevicesAgree(run: seq<Sync.State>, steps: seq<Sync.Step>, i: nat, bookmarks: Sync.Ops -> Doc, a: Device,
                     b: Device)
    requires Sync.GuardedRun(run, steps) && i < |run| && Theorems.Drained(run[i])
    requires CaughtUp(run[i], bookmarks, a) && CaughtUp(run[i], bookmarks, b)
    requires var doc := Everything(run[i], bookmarks);
      OftenEnough(doc, a) && OftenEnough(doc, b) && DistinctSiblings(Pruned(doc, {}))
    requires var p := Pruned(Everything(run[i], bookmarks), {});
      Reconcilable(a.roots, p, First(a)) && Reconcilable(b.roots, p, First(b))
    ensures Isomorphic(a.roots, b.roots, Last(a), Last(b))
  {
    hide OftenEnough, Reconcilable, Isomorphic, Mirrors, EntriesArrived, SiblingsArrived, Theorems.Drained,
         Theorems.AtEnd, Sync.GuardedRun, Pruned, Grounded, DistinctSiblings, WF, RootsOk;
    var doc := Everything(run[i], bookmarks);
    ShowsAllEdits(run, steps, i, bookmarks, a);
    ShowsAllEdits(run, steps, i, bookmarks, b);
    ReconcilableGrounded(a.roots, Pruned(doc, {}), First(a));
    hide CaughtUp;
    SameDocument(a.roots, b.roots, Pruned(doc, {}), Last(a), Last(b));
  }
}
