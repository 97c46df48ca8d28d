/** What holds between passes: a mirrored tree shows no changes, and a captured one needs no pass. */
module Settled {
  import opened Forests
  import opened Documents
  import opened RootTables
  import opened ManagedTree
  import opened BridgeSpec
  import opened Capture
  import opened OfflineChanges

  /** When the managed tree is a grounded document, no change is counted. */
  lemma MirroredCounts(r: Roots, doc: Doc, v: View)
    requires WF(v.f) && RootsOk(r, v.f) && Grounded(doc) && Mirrors(r, doc, v)
    ensures NothingToMerge(r, doc, v)
  {
    hide WF, RootsOk, Grounded, Mirrors, NothingToMerge;
    GroundedClosed(doc, {});
    NothingCounted(r, doc, v);
  }

  /** After a capture nothing is left to merge, and a pass finds its work done. */
  lemma CapturedSettled(r: Roots, doc: Doc, v: View)
    requires Captured(r, doc, v)
    ensures ValidDoc(doc) && Mirrors(r, doc, v) && Reconcilable(r, doc, v) && NothingToMerge(r, doc, v)
  {
    hide WF, RootsOk, ValidDoc, Grounded, Mirrors, Captured, NothingToMerge, Managed, Linked, KindsMatch,
         RootsAvailable;
    hide SurvivorKinds;
    CapturedMirrors(r, doc, v);
    CapturedValid(r, doc, v);
    CapturedMaps(r, doc, v);
    CapturedRootsOk(r, doc, v);
    ValidParts(doc);
    MirroredCounts(r, doc, v);
  }

  lemma CapturedRootsOk(r: Roots, doc: Doc, v: View)
    requires Captured(r, doc, v)
    ensures WF(v.f) && RootsOk(r, v.f)
  {}
}
