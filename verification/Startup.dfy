/** How the background worker puts the bridge's operations together. */
module Startup {
  import opened Forests
  import opened Positions
  import opened Documents
  import opened RootTables
  import opened ManagedTree
  import opened BridgeSpec
  import opened DeletePhase
  import opened CreatePhase
  import opened Capture
  import opened LocalMerge
  import opened OfflineChanges
  import opened ImportMerge
  import opened PassLemmas
  import opened Convergence
  import opened Settled
  import opened Bridges

  /** A start from a local snapshot when the server has nothing new: changes made while signed out are
      captured in the document, and the reconcile that follows leaves the browser alone. */
  method ResumeOffline(b: Bridge)
    requires b.Valid() && b.l2c.Keys == b.doc.Keys
    modifies b`doc, b`l2c, b`c2l, b`stored, b.browser
    ensures b.Valid() && b.browser.f == old(b.browser.f) && b.browser.log == old(b.browser.log)
    ensures Captured(b.roots, b.doc, b.V()) && NothingToMerge(b.roots, b.doc, b.V())
  {
    hide Captured, Mirrors, NothingToMerge, WF, RootsOk, Linked, Apart, Managed, NodeMerged, KindsSane, ValidDoc,
         Grounded, Effective, Pruned, PurgeAll, Delivers, Keeps, Reconciles, Synced, Fills, CleanPurge, Reconcilable;
    b.MergeLocalChanges();
    CapturedSettled(b.roots, b.doc, b.V());
    ValidParts(b.doc);
    EffectiveWhole(b.roots, b.doc, b.V());
    var order := Enumerate(b.l2c.Keys);
    b.Reconcile(order);
  }

  /** The check for changes that no event reported: count, and merge if anything is counted. With a mapping
      that covers exactly the document, nothing is left to merge afterwards. */
  method DetectLocalChanges(b: Bridge) returns (merged: bool)
    requires b.Valid()
    modifies b`doc, b`l2c, b`c2l, b`stored, b.browser`next
    ensures b.Valid()
    ensures !merged ==> b.doc == old(b.doc) && b.l2c == old(b.l2c) && b.c2l == old(b.c2l)
    ensures old(b.l2c) != map[] && old(b.l2c.Keys) == old(b.doc.Keys) && DistinctSiblings(old(b.doc)) ==>
      NothingToMerge(b.roots, b.doc, b.V()) && Mirrors(b.roots, b.doc, b.V())
        && (merged ==> Captured(b.roots, b.doc, b.V()))
  {
    hide Captured, Mirrors, Reconcilable, NothingToMerge, WF, RootsOk, Linked, Apart, IdsBelow, Managed, NodeMerged,
         KindsSane, AddedNodes, RemovedEntries, ModifiedEntries, Reordered, ParentClosed, DistinctSiblings;
    merged := false;
    if b.l2c == map[] { return; }
    var added, removed, modified := b.ComputeOfflineChanges();
    if added > 0 || removed > 0 || modified > 0 {
      b.MergeLocalChanges();
      merged := true;
      if old(b.l2c.Keys) == old(b.doc.Keys) { CapturedSettled(b.roots, b.doc, b.V()); }
    } else if b.l2c.Keys == b.doc.Keys && DistinctSiblings(b.doc) {
      NothingCounted(b.roots, b.doc, b.V());
    }
  }

  /** A good starting point for an import: no mapping yet, and a document that can be shown. */
  ghost predicate FreshImport(b: Bridge)
    reads b, b.browser
  {
    b.l2c == map[] && Showable(b.roots, b.doc, b.browser.f)
  }

  /** Resolving an import conflict by merging: nothing of the server's document is lost or changed, and after
      the pass that follows the browser shows the whole document and still every URL it had. */
  method ImportAndReconcile(b: Bridge, excludeDuplicates: bool)
    requires b.Valid()
    modifies b`doc, b`l2c, b`c2l, b`stored, b.browser
    ensures b.Valid()
    ensures forall l :: l in old(b.doc) ==> l in b.doc && b.doc[l] == old(b.doc)[l]
    ensures old(FreshImport(b)) ==> Grounded(b.doc) && Synced(b.roots, b.doc, b.V())
    ensures DistinctSiblings(old(b.doc)) ==> DistinctSiblings(b.doc)
    ensures old(FreshImport(b)) ==>
      forall c ::
        c in Managed(b.roots, old(b.browser.f)) && c in old(b.browser.f.info) && old(b.browser.f.info)[c].url.Some? ==>
          Shown(b.roots, b.browser.f, old(b.browser.f.info)[c].url.value)
  {
    hide Captured, Mirrors, WF, RootsOk, Linked, Apart, IdsBelow, Managed, KindsSane, Grounded, DistinctSiblings,
         RootsAvailable, KindsMatch, UrlsKept, Shown, ImportedWell, AppendedBehind, Claims, Reused, OrderKept,
         Duplicate, Keeps, Synced, CleanPurge, Delivers, Reconciles, Effective, Pruned, PurgeAll, Fills, Fillable,
         SurvivorKinds;
    ghost var first := FreshImport(b);
    b.MergeImport(excludeDuplicates);
    if DistinctSiblings(old(b.doc)) { DistinctKept(old(b.doc), b.doc); }
    var order := Enumerate(b.l2c.Keys);
    if first {
      EmptyInverse(old(b.l2c), old(b.c2l));
      CleanAlready(b.roots, b.V(), order);
      ReconcilableFillable(b.roots, b.doc, b.V());
      EffectiveWhole(b.roots, b.doc, b.V());
    }
    ghost var before := b.V();
    b.Reconcile(order);
    if first {
      FillableSynced(b.roots, b.doc, before, b.V()) by { ReconcilableGrounded(b.roots, b.doc, before); }
      SyncedUrls(b.roots, old(b.browser.f), b.doc, b.V());
    }
  }

  lemma FillableSynced(r: Roots, doc: Doc, s: View, t: View)
    requires Reconciles(r, doc, s, t) && Grounded(doc) && Fillable(r, doc, s)
    ensures Synced(r, doc, t)
  {
    hide Delivers, OutsideKept, Managed, Fillable, Grounded, Mirrors, ValidDoc, Synced;
  }

  /** A managed bookmark has the URL. */
  ghost predicate Shown(r: Roots, f: Forest, url: string) {
    exists c :: c in Managed(r, f) && c in f.info && f.info[c].url == Some(url)
  }

  lemma SyncedUrls(r: Roots, f: Forest, doc: Doc, v: View)
    requires Synced(r, doc, v) && UrlsKept(Managed(r, f), f, doc)
    ensures forall c :: c in Managed(r, f) && c in f.info && f.info[c].url.Some? ==> Shown(r, v.f, f.info[c].url.value)
  {
    hide Managed;
    forall c | c in Managed(r, f) && c in f.info && f.info[c].url.Some? ensures Shown(r, v.f, f.info[c].url.value) {
      var l :| l in doc && doc[l].url == Some(f.info[c].url.value);
      assert SameInfo(doc, v, l) && v.l2c[l] in v.c2l;
    }
  }
}
