/** Lemmas that connect the steps of a reconcile pass with its contract. */
module ReconcileLemmas {
  import opened Forests
  import opened ForestOps
  import opened Positions
  import opened Placement
  import opened Documents
  import opened RootTables
  import opened ManagedTree
  import opened BridgeSpec
  import opened DeletePhase
  import opened CreatePhase
  import opened ContentPhase
  import opened PassLemmas

  /** A pass after its first three steps: it found `s` with the managed nodes `current`; the purge left the pairs of
      `stays`; deletion left `v`; creation for the entries `e` left `w`. */
  datatype Stage = Stage(s: View, stays: set<Id>, current: set<Id>, deleted: set<Id>, e: Doc, v: View, w: View)

  /** What holds then, whatever was mapped. */
  ghost predicate Begun(r: Roots, x: Stage) {
    && WF(x.s.f) && RootsOk(r, x.s.f) && x.current == Managed(r, x.s.f) && x.deleted <= x.current
    && x.stays <= x.s.c2l.Keys && RootStraysIn(x.s, x.stays) && StraysSeen(r, x.s, x.current, x.stays)
    && x.v.f == Removed(x.s.f, x.deleted) && WF(x.v.f) && x.v.c2l.Keys == x.stays - x.deleted
    && Sound(r, x.w) && Containers(r, x.w.f) == Containers(r, x.s.f) && Grown(r, x.e, x.v, x.w)
    && forall c :: c in x.w.c2l && c !in x.v.c2l ==> c !in x.current
  }

  ghost predicate RootStraysIn(s: View, stays: set<Id>) {
    forall c :: c in s.c2l && c in s.f.par && s.f.par[c] == s.f.top ==> c in stays
  }

  ghost predicate StraysSeen(r: Roots, s: View, current: set<Id>, stays: set<Id>) {
    forall c :: c in stays && c !in current ==> SeenInManagedTree(s.f, r, s.c2l, c)
  }

  /** Which pairs there are then: those of the survivors and of the stray nodes the purge left, and those of the entries
      that could be planted. */
  ghost predicate Stocked(r: Roots, x: Stage) {
    && Linked(x.v.l2c, x.v.c2l) && PairsKept(KeptKeys(r, x.e.Keys, x.s, x.stays), x.s, x.v)
    && forall l :: l in x.w.l2c <==> l in x.v.l2c || CanPlant(r, x.e, x.v, x.v.l2c.Keys, l)
  }

  /** What holds in addition after a clean purge. */
  ghost predicate Prepared(r: Roots, x: Stage) {
    && x.stays <= x.current && Covering(r, x.w) && x.v.c2l.Keys == x.current - x.deleted
    && Split(x.v, x.w, x.current) && x.w.l2c.Keys <= x.e.Keys
    && (Grounded(x.e) && Fillable(r, x.e, x.s) ==> KindsMatch(x.e, x.w) && x.w.l2c.Keys == x.e.Keys)
  }

  /** What steps 3 and 4 do to any document's tree. */
  ghost predicate ArrangedFrom(r: Roots, x: Stage, f: Forest, g: Forest, target: map<Id, Id>, folders: set<Id>) {
    && ContentInv(x.e, x.w, x.current, f, {}) && TargetInv(r, x.e, x.w, x.current, target, {})
    && Shuffled(f, g, target, {}) && Untouched(f, g, folders, target) && WF(f)
    && forall q :: q in folders ==> q in target.Values
  }

  // ---- Deletion ----------------------------------------------------------------------------------

  lemma DeletionResult(r: Roots, v: View, m: set<Id>, keys: set<Id>, gone: set<Id>)
    requires WF(v.f) && RootsOk(r, v.f) && m == Managed(r, v.f) && Linked(v.l2c, v.c2l)
    requires Doomed(v, m, keys, gone) && Swept(v, m, keys, gone, {})
    ensures var w := View(Removed(v.f, gone), ForgetNodes(v, gone).l2c, ForgetNodes(v, gone).c2l);
      && Sound(r, w) && Containers(r, w.f) == Containers(r, v.f)
      && (v.c2l.Keys <= m ==> Covering(r, w) && w.c2l.Keys == m - gone && w.l2c.Keys <= keys)
    ensures KeptNodes(v, Containers(r, v.f), m, keys, m - gone)
    ensures gone <= m
  {
    ManagedIs(r, v.f);
    ContainersApart(r, v.f);
    DeletionDone(v, Containers(r, v.f), m, keys, gone);
    RemovedRoots(r, v.f, m, gone);
  }

  /** The pairs left after deletion are those of `kept`. */
  ghost predicate PairsKept(kept: set<Id>, s: View, v: View) {
    forall l {:trigger v.l2c[l]} {:trigger s.l2c[l]} ::
      (l in v.l2c <==> l in s.l2c && l in kept) && (l in v.l2c ==> v.l2c[l] == s.l2c[l])
  }

  lemma KeptPairs(r: Roots, s: View, u: View, v: View, current: set<Id>, deleted: set<Id>, keys: set<Id>)
    requires WF(s.f) && RootsOk(r, s.f) && Linked(s.l2c, s.c2l) && current == Managed(r, s.f) && u.f == s.f
    requires Linked(u.l2c, u.c2l) && (forall c :: c in u.c2l ==> c in s.c2l && u.c2l[c] == s.c2l[c])
    requires forall c :: c in s.c2l && c in current ==> c in u.c2l
    requires KeptNodes(u, Containers(r, s.f), current, keys, current - deleted) && deleted <= current
    requires v.l2c == ForgetNodes(u, deleted).l2c && v.c2l == ForgetNodes(u, deleted).c2l
    ensures PairsKept(KeptKeys(r, keys, s, u.c2l.Keys), s, v) && Linked(v.l2c, v.c2l)
  {
    hide Managed, KeptNodes, WF, RootsOk, WantedUp;
    KeptSurvivors(r, u, keys, current - deleted);
    PurgedSurvivors(r, keys, s, u);
    ForgetTwice(u, deleted, {});
    assert Survivors(r, keys, s) == current - deleted;
    hide Survivors;
    forall l
      ensures l in v.l2c <==> l in s.l2c && l in KeptKeys(r, keys, s, u.c2l.Keys)
      ensures l in v.l2c ==> v.l2c[l] == s.l2c[l]
    {
      KeptPair(s, u, l);
      if l in s.l2c && s.l2c[l] in Survivors(r, keys, s) { assert s.l2c[l] in s.c2l && s.l2c[l] in u.c2l; }
    }
  }

  lemma KeptPair(s: View, u: View, l: Id)
    requires Linked(s.l2c, s.c2l) && Linked(u.l2c, u.c2l)
    requires forall c :: c in u.c2l ==> c in s.c2l && u.c2l[c] == s.c2l[c]
    ensures l in u.l2c <==> l in s.l2c && s.l2c[l] in u.c2l
    ensures l in u.l2c ==> u.l2c[l] == s.l2c[l]
  {
    if l in u.l2c { assert u.c2l[u.l2c[l]] == l && s.c2l[u.l2c[l]] == l; }
    if l in s.l2c && s.l2c[l] in u.c2l { assert u.c2l[s.l2c[l]] == s.c2l[s.l2c[l]] == l; }
  }

  /** Without stray nodes the pairs are those of the survivors. */
  lemma KeptAre(r: Roots, x: Stage)
    requires Begun(r, x) && Stocked(r, x) && x.stays <= x.current && Linked(x.s.l2c, x.s.c2l)
    ensures KeptEntries(r, x.e.Keys, x.s) == x.v.l2c.Keys
  {
    BegunParts(r, x);
    hide Begun, Survivors, Managed, WF, RootsOk, Sound, Grown, Removed, Containers, CanPlant, Linked;
    forall l ensures l in KeptEntries(r, x.e.Keys, x.s) <==> l in x.v.l2c {
      assert l in x.v.l2c <==> l in x.s.l2c && l in KeptKeys(r, x.e.Keys, x.s, x.stays);
    }
  }

  lemma SyncedWanted(r: Roots, doc: Doc, s: View)
    requires Synced(r, doc, s)
    ensures s.c2l.Keys == Managed(r, s.f) && doc.Keys <= s.l2c.Keys
    ensures forall c :: c in Managed(r, s.f) ==> Wanted(s.c2l, doc.Keys, c)
  {
    forall c | c in s.c2l ensures Wanted(s.c2l, doc.Keys, c) { var l := s.c2l[c]; }
  }

  /** The purge keeps a part of the pairs, and all pairs from a synced state. */
  lemma PurgedPart(r: Roots, s: View, u: View, order: seq<Id>)
    requires WF(s.f) && RootsOk(r, s.f) && Linked(s.l2c, s.c2l) && SetOf(order) == s.l2c.Keys && u.f == s.f
    requires (u.l2c, u.c2l) == PurgeAll(r, s.f, Managed(r, s.f), s.l2c, s.c2l, order)
    ensures Linked(u.l2c, u.c2l) && u.l2c.Keys <= s.l2c.Keys && u.c2l.Keys <= s.c2l.Keys && RootStraysIn(s, u.c2l.Keys)
    ensures CleanPurge(r, s, order) ==>
      u.c2l.Keys <= Managed(r, s.f) && u == ForgetNodes(s, s.c2l.Keys - Managed(r, s.f))
    ensures u.c2l.Keys <= Managed(r, s.f) ==> CleanPurge(r, s, order) && u.l2c.Keys == MappedManaged(r, s)
    ensures forall c :: c in u.c2l ==> c in s.c2l && u.c2l[c] == s.c2l[c]
    ensures forall c :: c in s.c2l && c in Managed(r, s.f) ==> c in u.c2l
    ensures s.c2l.Keys == Managed(r, s.f) ==> u == s
    ensures StraysSeen(r, s, Managed(r, s.f), u.c2l.Keys)
  {
    hide Managed, PurgeAll, WF;
    PurgeOutcome(r, s, Managed(r, s.f), order, u.l2c, u.c2l);
    forall l | l in u.l2c ensures l in s.l2c && s.l2c[l] == u.l2c[l] && u.l2c[l] in u.c2l {
      assert u.c2l[u.l2c[l]] == l && s.c2l[u.l2c[l]] == l;
    }
    forall l | l in s.l2c && s.l2c[l] in u.c2l ensures l in u.l2c { assert u.c2l[s.l2c[l]] == l; }
    if u.c2l.Keys <= Managed(r, s.f) {
      forall l ensures l in u.l2c <==> l in MappedManaged(r, s) {
        if l in s.l2c { assert s.l2c[l] in s.c2l; }
      }
    }
    if s.c2l.Keys == Managed(r, s.f) {
      CleanAlready(r, s, order);
      assert s.c2l.Keys - Managed(r, s.f) == {};
      ForgetNothing(s);
    }
  }

  /** After deletion creation may start; from a synced state nothing has changed. */
  lemma PreparedDelete(r: Roots, doc: Doc, s: View, u: View, v: View, current: set<Id>, deleted: set<Id>,
                       effective: Doc, known: set<Id>, n: Id)
    requires Apart(known, r, s) && IdsBelow(n, doc.Keys + s.l2c.Keys + s.c2l.Keys + r.ids)
    requires known == doc.Keys + s.l2c.Keys
    requires Linked(u.l2c, u.c2l) && u.l2c.Keys <= s.l2c.Keys && u.c2l.Keys <= s.c2l.Keys && RootsOk(r, s.f)
    requires effective == Restrict(doc, effective.Keys) && ParentClosed(doc, u.l2c.Keys, effective.Keys)
    requires v.f == Removed(s.f, deleted) && v.l2c == ForgetNodes(u, deleted).l2c
    requires v.c2l == ForgetNodes(u, deleted).c2l
    requires Sound(r, v)
    ensures CreateInv(r, effective, v, v, known, n, n) && ParentsKnown(effective, known)
  {
    hide Sound, RootsOk, CreateInv, Linked, Removed, ParentClosed, IsRoot;
    ForgottenSubset(u, deleted);
    ApartShrinks(known, r, s, u, v, deleted);
    CreateStart(r, effective, v, known, n) by { assert IdsBelow(n, v.c2l.Keys + known + r.ids); }
    KnownParents(r, doc, s, u, effective, known);
  }

  lemma ForgottenSubset(v: View, gone: set<Id>)
    requires Linked(v.l2c, v.c2l)
    ensures ForgetNodes(v, gone).l2c.Keys <= v.l2c.Keys && ForgetNodes(v, gone).c2l.Keys <= v.c2l.Keys
  {}

  lemma ApartShrinks(known: set<Id>, r: Roots, s: View, u: View, v: View, deleted: set<Id>)
    requires Apart(known, r, s) && v.f == Removed(s.f, deleted) && v.c2l.Keys <= u.c2l.Keys <= s.c2l.Keys
    ensures Apart(known, r, v)
  {}

  lemma KnownParents(r: Roots, doc: Doc, s: View, u: View, effective: Doc, known: set<Id>)
    requires Apart(known, r, s) && known == doc.Keys + s.l2c.Keys && u.l2c.Keys <= s.l2c.Keys
    requires effective == Restrict(doc, effective.Keys) && ParentClosed(doc, u.l2c.Keys, effective.Keys)
    requires RootsOk(r, s.f)
    ensures ParentsKnown(effective, known)
  {
    RootIds(r, s.f);
  }

  // ---- Creation ------------------------------------------------------------------------------------

  /** The link maps and contents of `v` are parts of those of `s`. */
  ghost predicate PartOf(s: View, v: View) {
    && v.f.top == s.f.top
    && (forall l {:trigger v.l2c[l]} {:trigger l in v.l2c} :: l in v.l2c ==> l in s.l2c && v.l2c[l] == s.l2c[l])
    && (forall c {:trigger v.f.info[c]} {:trigger c in v.f.info} :: c in v.f.info ==>
          c in s.f.info && v.f.info[c] == s.f.info[c])
    && (forall c {:trigger v.f.par[c]} {:trigger c in v.f.par} :: c in v.f.par ==>
          c in s.f.par && v.f.par[c] == s.f.par[c])
  }

  lemma StockedPart(r: Roots, x: Stage)
    requires Begun(r, x) && Stocked(r, x)
    ensures PartOf(x.s, x.v)
  {
    hide Managed, RootsOk, WF, Sound, Grown, Containers, KeptKeys, CanPlant, Linked;
  }

  /** After deletion the kinds match if they match on the survivors. */
  lemma PartKinds(r: Roots, x: Stage)
    requires PartOf(x.s, x.v) && KeptEntries(r, x.e.Keys, x.s) == x.v.l2c.Keys && SurvivorKinds(r, x.e, x.s)
    ensures KindsMatch(x.e, x.v)
  {
    hide Survivors;
    forall l | l in x.e && l in x.v.l2c && x.v.l2c[l] in x.v.f.info
      ensures x.e[l].url.None? <==> x.v.f.info[x.v.l2c[l]].url.None?
    {
      assert l in KeptEntries(r, x.e.Keys, x.s);
    }
  }

  /** From a synced state the first two steps find nothing to do. */
  lemma SyncedStart(r: Roots, s: View, u: View, effective: Doc)
    requires s.c2l.Keys == Managed(r, s.f) ==> u == s
    ensures Synced(r, effective, s) ==>
      u == s && effective.Keys <= s.l2c.Keys && forall c :: c in Managed(r, s.f) ==> Wanted(u.c2l, effective.Keys, c)
  {
    hide Synced, Managed, Wanted;
    if Synced(r, effective, s) { SyncedWanted(r, effective, s); }
  }

  lemma BegunAll(r: Roots, x: Stage, known: set<Id>, n0: Id, n: Id)
    requires CreateInv(r, x.e, x.v, x.w, known, n0, n)
    requires WF(x.s.f) && RootsOk(r, x.s.f) && x.current == Managed(r, x.s.f) && x.deleted <= x.current
    requires IdsBelow(n0, x.current)
    requires x.stays <= x.s.c2l.Keys && RootStraysIn(x.s, x.stays) && StraysSeen(r, x.s, x.current, x.stays)
    requires x.v.f == Removed(x.s.f, x.deleted) && x.v.c2l.Keys == x.stays - x.deleted
    requires Containers(r, x.v.f) == Containers(r, x.s.f)
    ensures Begun(r, x)
    ensures IdsBelow(n, known + x.w.c2l.Keys + r.ids) && Apart(known, r, x.w)
    ensures x.w.l2c.Keys <= x.v.l2c.Keys + x.e.Keys
  {
    hide RootsOk, Grown, Managed, Linked, Containers, Removed, CreateInv, Apart, Sound, WF, KindsMatch;
    CreateFinish(r, x.e, x.v, x.w, known, n0, n);
    CreateFacts(r, x.e, x.v, x.w, known, n0, n);
    SoundShape(r, x.v);
    CreateIds(r, x.e, x.v, x.w, known, n0, n);
    forall c | c in x.w.c2l && c !in x.v.c2l ensures c !in x.current { assert n0 <= c; }
  }

  lemma PreparedAll(r: Roots, x: Stage, known: set<Id>, n0: Id, n: Id)
    requires CreateInv(r, x.e, x.v, x.w, known, n0, n) && Begun(r, x) && Stocked(r, x) && Linked(x.s.l2c, x.s.c2l)
    requires Covering(r, x.v) && x.stays <= x.current && x.v.c2l.Keys == x.current - x.deleted
    requires x.v.l2c.Keys <= x.e.Keys
    ensures Prepared(r, x)
  {
    hide WF, RootsOk, Grounded, KindsMatch, RootsForNew, RootsAvailable, Grown, Covering, Managed, Linked, Containers,
         Removed, CreateInv, Split, SurvivorKinds, Begun, Stocked, Sound, Fillable;
    CreateFinish(r, x.e, x.v, x.w, known, n0, n);
    CreateFacts(r, x.e, x.v, x.w, known, n0, n);
    BegunSplit(r, x);
    if Grounded(x.e) && Fillable(r, x.e, x.s) { PreparedDocument(r, x); }
  }

  lemma PreparedDocument(r: Roots, x: Stage)
    requires Begun(r, x) && Stocked(r, x) && Linked(x.s.l2c, x.s.c2l) && x.stays <= x.current
    requires Fillable(r, x.e, x.s) && Covering(r, x.v) && Grounded(x.e)
    requires KindsMatch(x.e, x.v) ==> KindsMatch(x.e, x.w)
    ensures KindsMatch(x.e, x.w) && x.e.Keys <= x.w.l2c.Keys
  {
    hide WF, RootsOk, Grounded, KindsMatch, RootsForNew, Covering, Managed, Linked, Containers, Removed, Begun, Stocked,
         PartOf, SurvivorKinds, KeptEntries, CanPlant, Sound, Grown;
    StockedPart(r, x);
    KeptAre(r, x);
    PartKinds(r, x);
    RootsAtStage(r, x);
    AllPlanted(r, x.e, x.v);
    StockedKeys(r, x);
  }

  lemma StockedKeys(r: Roots, x: Stage)
    requires Stocked(r, x)
    ensures forall l :: l in x.w.l2c <==> l in x.v.l2c || CanPlant(r, x.e, x.v, x.v.l2c.Keys, l)
  {
    hide Linked, KeptKeys, CanPlant;
  }

  lemma RootsAtStage(r: Roots, x: Stage)
    requires Begun(r, x)
    ensures Containers(r, x.v.f) == Containers(r, x.s.f)
    ensures forall kept :: RootsForNew(r, x.e, kept, x.v.f) <==> RootsForNew(r, x.e, kept, x.s.f)
  {
    ManagedApart(r, x.s.f);
    BegunParts(r, x);
    RemovedRoots(r, x.s.f, x.current, x.deleted) by { ContainersApart(r, x.s.f); }
    hide Begun, RootsOk, Grown, Managed, Removed, WF, Sound, RootsForNew, Containers;
    forall kept ensures RootsForNew(r, x.e, kept, x.v.f) <==> RootsForNew(r, x.e, kept, x.s.f) {
      SameRoots(r, x.e, kept, x.s.f, x.v.f);
    }
  }

  /** The state after step 2. */
  lemma StageDone(r: Roots, doc: Doc, x: Stage, u: View, order: seq<Id>, known: set<Id>, n0: Id, n: Id)
    requires Linked(u.l2c, u.c2l) && Linked(x.s.l2c, x.s.c2l)
    requires x.stays == u.c2l.Keys && x.v == ForgetNodes(u, x.deleted).(f := Removed(x.s.f, x.deleted))
    requires CreateInv(r, x.e, x.v, x.w, known, n0, n) && known == doc.Keys + x.s.l2c.Keys && x.e.Keys <= doc.Keys
    requires WF(x.s.f) && RootsOk(r, x.s.f)
    requires x.current == Managed(r, x.s.f) && x.deleted <= x.current && IdsBelow(n0, x.s.f.par.Keys)
    requires u.f == x.s.f && (u.l2c, u.c2l) == PurgeAll(r, x.s.f, x.current, x.s.l2c, x.s.c2l, order)
    requires SetOf(order) == x.s.l2c.Keys
    requires x.v.c2l.Keys == x.stays - x.deleted && Containers(r, x.v.f) == Containers(r, x.s.f)
    requires KeptNodes(u, Containers(r, x.s.f), x.current, x.e.Keys, x.current - x.deleted)
    requires x.stays <= x.current ==>
      Covering(r, x.v) && x.v.c2l.Keys == x.current - x.deleted && x.v.l2c.Keys <= x.e.Keys
    requires forall l :: l in x.w.l2c <==> l in x.v.l2c || CanPlant(r, x.e, x.v, x.v.l2c.Keys, l)
    ensures Begun(r, x) && Stocked(r, x) && (CleanPurge(r, x.s, order) ==> Prepared(r, x))
    ensures CleanPurge(r, x.s, order) <==> x.stays <= x.current
    ensures IdsBelow(n, doc.Keys + x.w.l2c.Keys + x.w.c2l.Keys + r.ids) && Apart(doc.Keys + x.w.l2c.Keys, r, x.w)
  {
    hide WF, RootsOk, Grounded, KindsMatch, RootsForNew, Grown, Covering, Managed, Linked, Containers, Removed,
         CreateInv, ForgetNodes, PairsKept, Begun, Prepared, Sound, PurgeAll, KeptNodes, RootStraysIn, Apart,
         CleanPurge, StraysSeen, KeptKeys, CanPlant, MappedManaged;
    PurgedPart(r, x.s, u, order);
    ManagedApart(r, x.s.f);
    BegunAll(r, x, known, n0, n);
    ForgottenSubset(u, x.deleted);
    ApartSubset(r, x.w, doc.Keys + x.w.l2c.Keys, known);
    KeptPairs(r, x.s, u, x.v, x.current, x.deleted, x.e.Keys);
    if x.stays <= x.current { PreparedAll(r, x, known, n0, n); }
  }

  lemma ApartSubset(r: Roots, w: View, keys: set<Id>, known: set<Id>)
    requires Apart(known, r, w) && keys <= known
    ensures Apart(keys, r, w)
  {}

  lemma CreateIds(r: Roots, e: Doc, v: View, w: View, known: set<Id>, n0: Id, n: Id)
    requires CreateInv(r, e, v, w, known, n0, n)
    ensures IdsBelow(n, w.c2l.Keys + known + r.ids)
  {}

  lemma BegunSplit(r: Roots, x: Stage)
    requires Begun(r, x) && x.v.c2l.Keys == x.current - x.deleted
    ensures Split(x.v, x.w, x.current)
  {
    hide WF, Sound, Grown, Managed, Removed, RootsOk, Containers;
  }

  lemma BegunFacts(r: Roots, x: Stage)
    requires Begun(r, x)
    ensures WF(x.s.f) && RootsOk(r, x.s.f) && x.current == Managed(r, x.s.f) && Sound(r, x.w)
    ensures Containers(r, x.w.f) == Containers(r, x.s.f) && x.current !! r.ids && x.v.f == Removed(x.s.f, x.deleted)
  {
    hide WF, Sound, Grown, Managed, Removed, RootsOk;
    ManagedApart(r, x.s.f);
  }

  lemma ManagedApart(r: Roots, f: Forest)
    requires WF(f) && RootsOk(r, f)
    ensures Managed(r, f) !! r.ids && f.top !in Managed(r, f)
    ensures forall c :: c in Managed(r, f) ==>
      c in f.par && Ordinary(f, c) && (f.par[c] in Containers(r, f) || f.par[c] in Managed(r, f))
  {
    ContainersApart(r, f);
    ManagedIs(r, f);
    hide Managed, Acyclic, Listed;
    forall c | c in Containers(r, f) ensures f.par[c] == f.top {}
  }

  // ---- Contents and plan ------------------------------------------------------------------------

  /** A mapped snapshot node is as it was in the snapshot when step 3 starts. */
  lemma SnapshotNode(r: Roots, x: Stage, c: Id)
    requires Begun(r, x) && c in x.current && c in x.w.c2l
    ensures Ordinary(x.w.f, c) && c in x.w.f.info && c in x.s.f.info && x.s.f.info[c] == x.w.f.info[c]
    ensures c !in x.deleted
    ensures c in x.s.f.par && x.w.f.par[c] == x.s.f.par[c] && c in x.v.c2l
    ensures x.w.f.par[c] in Containers(r, x.s.f) || x.w.f.par[c] in x.current
  {
    ManagedApart(r, x.s.f);
    hide Managed, RootsOk, Containers, Linked, Acyclic, Listed;
    assert c in x.v.c2l && c !in x.deleted;
    assert c in x.v.f.par && c in x.v.f.info;
  }

  lemma StageReady(r: Roots, x: Stage)
    requires Begun(r, x)
    ensures ContentReady(x.e, x.w, x.s.f, x.current) && x.deleted !! x.w.c2l.Keys && WF(x.s.f) && Sound(r, x.w)
  {
    hide Begun, WF, Ordinary, RootsOk;
    BegunFacts(r, x);
    forall c | c in x.current && c in x.w.c2l
      ensures Ordinary(x.w.f, c) && c in x.w.f.info && c in x.s.f.info && x.s.f.info[c] == x.w.f.info[c]
    {
      SnapshotNode(r, x, c);
    }
    forall c | c in x.w.c2l ensures c !in x.deleted {
      if c in x.current { SnapshotNode(r, x, c); } else { BegunDeleted(r, x); }
    }
  }

  lemma BegunDeleted(r: Roots, x: Stage)
    requires Begun(r, x)
    ensures x.deleted <= x.current
  {}

  lemma PlanParents(r: Roots, x: Stage, f: Forest, target: map<Id, Id>)
    requires Begun(r, x)
    requires ContentInv(x.e, x.w, x.current, f, {}) && TargetInv(r, x.e, x.w, x.current, target, {})
    ensures SameParents(x.s.f, f, target)
  {
    hide Begun;
    forall c | c in target ensures c in x.s.f.par && c in f.par && x.s.f.par[c] == f.par[c] {
      assert Collected(x.e, x.w, x.current, {}, c);
      SnapshotNode(r, x, c);
    }
  }

  /** Where the tree already mirrors a well-formed document, steps 3 and 4 have nothing to do. */
  lemma NothingToArrange(r: Roots, doc: Doc, x: Stage, f: Forest, byFolder: map<Id, seq<Id>>, target: map<Id, Id>)
    requires Begun(r, x) && Prepared(r, x) && x.e == doc && ValidDoc(doc) && Mirrors(r, doc, x.s)
    requires x.w == x.s && TargetInv(r, doc, x.w, x.current, target, {})
    requires PlanOk(f, byFolder, IndexOf(doc, x.w.c2l), target)
    ensures AllInPlace(x.s.f, byFolder, IndexOf(doc, x.w.c2l))
  {
    hide Begun, TargetInv, PlanOk, ValidDoc, Mirrors, Covering, Split, Fillable, Reconcilable;
    MirrorInPlace(r, doc, x.w, x.current, f, byFolder, target);
  }

  lemma MirrorSynced(r: Roots, doc: Doc, s: View)
    requires Mirrors(r, doc, s)
    ensures Synced(r, doc, s)
  {}

  lemma MirrorFresh(r: Roots, doc: Doc, s: View, current: set<Id>)
    requires Synced(r, doc, s)
    ensures NothingToRefresh(doc, s, current)
  {
    forall l | l in doc && Existing(s.l2c, current, l)
      ensures s.l2c[l] in s.f.info && s.f.info[s.l2c[l]] == Info(doc[l].title, doc[l].url)
    {
      assert SameInfo(doc, s, l);
    }
  }

  lemma FoldersUsed(f: Forest, byFolder: map<Id, seq<Id>>, key: map<Id, int>, target: map<Id, Id>)
    requires PlanOk(f, byFolder, key, target)
    ensures forall q :: q in byFolder.Keys ==> q in target.Values
  {
    forall q | q in byFolder.Keys ensures q in target.Values {
      var e := byFolder[q][0];
      assert e in byFolder[q] && target[e] == q;
    }
  }

  // ---- Everything outside the managed tree --------------------------------------------------

  lemma UnmanagedKids(r: Roots, f: Forest, q: Id)
    requires WF(f) && RootsOk(r, f) && q in f.kids && q !in Managed(r, f) && q !in Containers(r, f)
    ensures forall c :: c in f.kids[q] ==> c !in Managed(r, f)
  {
    ManagedIs(r, f);
    hide Managed, RootsOk, Containers, Acyclic;
    forall c | c in f.kids[q] ensures c !in Managed(r, f) { assert f.par[c] == q; }
  }

  lemma RemovedOutside(r: Roots, f: Forest, gone: set<Id>)
    requires WF(f) && RootsOk(r, f) && gone <= Managed(r, f)
    ensures OutsideKept(r, f, Removed(f, gone), {})
  {
    hide Managed, RootsOk, Containers, WF;
    forall q | q in f.kids && q !in Managed(r, f) + Containers(r, f)
      ensures q in Removed(f, gone).kids && Removed(f, gone).kids[q] == f.kids[q]
    {
      UnmanagedKids(r, f, q);
      WithoutNone(f.kids[q], gone);
    }
  }

  /** A folder that is neither managed nor mapped after the purge. */
  ghost predicate Distant(r: Roots, x: Stage, q: Id) {
    q in x.s.f.kids && q !in x.current && q !in Containers(r, x.s.f) && q !in x.stays
  }

  lemma DistantUnmapped(r: Roots, x: Stage, q: Id)
    requires Begun(r, x) && Distant(r, x, q)
    ensures q !in x.w.c2l && q !in Containers(r, x.w.f)
  {
    BegunParts(r, x);
    hide Begun, RootsOk, Managed, Sound, Grown, Removed, Containers, Acyclic, Listed;
    if q in x.w.c2l && q !in x.v.c2l {
      NewNode(r, x.e, x.v, x.w, q);
      RemovedNode(x.s.f, x.deleted, q);
      SoundShape(r, x.w);
    }
  }

  lemma RemovedNode(f: Forest, gone: set<Id>, q: Id)
    requires Shape(f) && q in f.kids && q !in gone
    ensures q in Removed(f, gone).par || q == f.top
  {}

  /** Every new node sits below a root container or a mapped node. */
  ghost predicate NewBelow(v: View, w: View, cs: set<Id>) {
    forall c {:trigger w.f.par[c]} :: c in w.f.par && c !in v.f.par ==>
      c in w.c2l && (w.f.par[c] in cs || w.f.par[c] in w.c2l)
  }

  lemma NewNode(r: Roots, e: Doc, v: View, w: View, c: Id)
    requires Sound(r, w) && Grown(r, e, v, w) && c in w.c2l && c !in v.c2l
    ensures c in w.f.par && c !in v.f.par && w.f.par[c] != w.f.top && w.f.par[c] in w.f.par && FreshNode(r, e, v, w, c)
    ensures w.f.par[c] in Containers(r, w.f) || w.f.par[c] in w.c2l
  {
    assert FreshNode(r, e, v, w, c) by { hide Sound, Extends, FreshNode; }
    hide Grown;
    FreshParent(r, e, v, w, c);
  }

  lemma FreshParent(r: Roots, e: Doc, v: View, w: View, c: Id)
    requires Sound(r, w) && c in w.c2l && FreshNode(r, e, v, w, c)
    ensures w.f.par[c] != w.f.top && w.f.par[c] in w.f.par
    ensures w.f.par[c] in Containers(r, w.f) || w.f.par[c] in w.c2l
  {
    hide Acyclic, Listed;
    assert w.f.par[c] in w.f.kids;
  }

  lemma GrownBelow(r: Roots, e: Doc, v: View, w: View)
    requires Sound(r, w) && Grown(r, e, v, w)
    ensures Extends(v.f, w.f) && NewBelow(v, w, Containers(r, w.f))
  {
    hide FreshNode, Extends, Sound, Containers;
    var cs := Containers(r, w.f);
    assert forall c {:trigger w.f.par[c]} :: c in w.f.par && c !in v.f.par ==> c in w.c2l && c !in v.c2l;
    forall c {:trigger w.f.par[c]} | c in w.f.par && c !in v.f.par ensures w.f.par[c] in cs || w.f.par[c] in w.c2l {
      NewNode(r, e, v, w, c);
    }
  }

  lemma NoExtraKid(v: View, w: View, cs: set<Id>, q: Id, c: Id)
    requires Extends(v.f, w.f) && NewBelow(v, w, cs) && WF(v.f) && Listed(w.f)
    requires q in v.f.kids && q in w.f.kids && q !in w.c2l && q !in cs && c in w.f.kids[q]
    ensures c in v.f.kids[q]
  {
    hide Acyclic;
    assert w.f.par[c] == q;
    assert c in v.f.par && v.f.par[c] == q;
  }

  /** Creating nodes leaves the child lists of unmapped folders outside the managed tree alone. */
  lemma SameKids(v: View, w: View, cs: set<Id>, q: Id)
    requires Extends(v.f, w.f) && NewBelow(v, w, cs) && WF(v.f) && WF(w.f)
    requires q in v.f.kids && q !in w.c2l && q !in cs
    ensures q in w.f.kids && w.f.kids[q] == v.f.kids[q]
  {
    assert q in w.f.kids && v.f.kids[q] <= w.f.kids[q] && NoDup(w.f.kids[q]);
    hide Extends, NewBelow, Acyclic, Shape;
    forall c | c in w.f.kids[q] ensures c in v.f.kids[q] { NoExtraKid(v, w, cs, q, c); }
    hide WF, Listed;
    PrefixFull(v.f.kids[q], w.f.kids[q]);
  }

  lemma PrefixFull(a: seq<Id>, b: seq<Id>)
    requires a <= b && NoDup(b) && forall c :: c in b ==> c in a
    ensures a == b
  {
    if |a| < |b| { BeyondPrefix(a, b); }
  }

  lemma BeyondPrefix(a: seq<Id>, b: seq<Id>)
    requires a <= b && NoDup(b) && |a| < |b|
    ensures b[|a|] in b && b[|a|] !in a
  {}

  lemma StageOutside(r: Roots, x: Stage)
    requires Begun(r, x)
    ensures OutsideKept(r, x.s.f, x.w.f, x.stays)
  {
    hide RootsOk, Containers, FreshNode, WF, Grown, Managed, Sound, Removed, Distant, Begun;
    BegunParts(r, x);
    SoundShape(r, x.w);
    RemovedOutside(r, x.s.f, x.deleted);
    GrownBelow(r, x.e, x.v, x.w);
    forall q | q in x.s.f.kids && q !in x.current + Containers(r, x.s.f) + x.stays
      ensures q in x.w.f.kids && x.w.f.kids[q] == x.s.f.kids[q]
    {
      assert Distant(r, x, q) by { IsDistant(r, x, q); }
      DistantUnmapped(r, x, q);
      SameKids(x.v, x.w, Containers(r, x.w.f), q);
    }
  }

  lemma IsDistant(r: Roots, x: Stage, q: Id)
    requires q in x.s.f.kids && q !in x.current + Containers(r, x.s.f) + x.stays
    ensures Distant(r, x, q)
  {}

  lemma BegunParts(r: Roots, x: Stage)
    requires Begun(r, x)
    ensures WF(x.s.f) && RootsOk(r, x.s.f) && x.current == Managed(r, x.s.f) && x.deleted <= x.current && WF(x.v.f)
    ensures x.v.f == Removed(x.s.f, x.deleted) && Sound(r, x.w) && Grown(r, x.e, x.v, x.w) && x.stays <= x.s.c2l.Keys
    ensures x.v.c2l.Keys == x.stays - x.deleted && Containers(r, x.w.f) == Containers(r, x.s.f)
    ensures x.w.f.top == x.s.f.top
  {
    hide WF, RootsOk, Managed, Sound, FreshNode;
  }

  lemma ArrangedTop(r: Roots, x: Stage, f: Forest, g: Forest, target: map<Id, Id>, folders: set<Id>)
    requires ArrangedFrom(r, x, f, g, target, folders)
    ensures g.top == x.w.f.top && g.par.Keys == x.w.f.par.Keys && g.info.Keys == x.w.f.info.Keys
    ensures f.kids == x.w.f.kids && f.par == x.w.f.par && f.top == x.w.f.top
    ensures forall c :: c in target ==> c in x.w.c2l && c in x.current
  {
    forall c | c in target ensures c in x.w.c2l && c in x.current { assert Collected(x.e, x.w, x.current, {}, c); }
  }

  /** Steps 3 and 4 keep parent and content of a node that is not in the snapshot's managed tree. */
  lemma OutsideNode(r: Roots, x: Stage, f: Forest, g: Forest, target: map<Id, Id>, folders: set<Id>, c: Id)
    requires ArrangedFrom(r, x, f, g, target, folders) && c in x.w.f.par && c !in x.current
    ensures c in g.par && g.par[c] == x.w.f.par[c]
    ensures c in x.w.f.info ==> c in g.info && g.info[c] == x.w.f.info[c]
  {
    hide WF, Untouched;
    assert c !in target;
    assert Reached(f, g, target, {}, c);
    if c in x.w.f.info { assert f.info[c] == x.w.f.info[c]; }
  }

  lemma TargetOutside(r: Roots, x: Stage, f: Forest, target: map<Id, Id>, q: Id, c: Id)
    requires Begun(r, x) && TargetInv(r, x.e, x.w, x.current, target, {}) && Distant(r, x, q) && c in target
    requires f.par == x.w.f.par && f.kids == x.w.f.kids && f.top == x.w.f.top
    ensures c in f.par && f.par[c] != q && (CanHold(f, target[c]) ==> target[c] != q)
  {
    hide Begun, Native;
    BegunFacts(r, x);
    DistantUnmapped(r, x, q);
    assert Collected(x.e, x.w, x.current, {}, c);
    SnapshotNode(r, x, c);
    hide RootsOk, WF, Sound;
    if CanHold(f, target[c]) { NativeManaged(r, x.w, x.e[x.w.c2l[c]].parentId); }
  }

  lemma FolderTarget(r: Roots, x: Stage, f: Forest, g: Forest, target: map<Id, Id>, folders: set<Id>, q: Id)
    requires ArrangedFrom(r, x, f, g, target, folders) && q in folders
    ensures exists c :: c in target && target[c] == q
  {
    hide WF, ContentInv, TargetInv, Shuffled, Untouched;
    assert q in target.Values;
  }

  lemma DistantQuiet(r: Roots, x: Stage, f: Forest, g: Forest, target: map<Id, Id>, folders: set<Id>, q: Id)
    requires ArrangedFrom(r, x, f, g, target, folders) && Begun(r, x) && Distant(r, x, q) && q in x.w.f.kids
    ensures q in g.kids && g.kids[q] == x.w.f.kids[q]
  {
    ArrangedTop(r, x, f, g, target, folders);
    hide Begun, WF, Native, Containers, TargetInv, ContentInv, Shuffled, Distant;
    forall c | c in target ensures c in f.par && f.par[c] != q && (CanHold(f, target[c]) ==> target[c] != q) {
      TargetOutside(r, x, f, target, q, c);
    }
    if q in folders { FolderTarget(r, x, f, g, target, folders, q); }
    assert Quiet(f, folders, target, q);
  }

  /** What every pass keeps of the tree outside. */
  lemma PassOutside(r: Roots, x: Stage, f: Forest, g: Forest, target: map<Id, Id>, folders: set<Id>)
    requires Begun(r, x) && ArrangedFrom(r, x, f, g, target, folders)
    ensures OutsideKept(r, x.s.f, g, x.stays)
  {
    hide ArrangedFrom, RootsOk, Containers, Begun, Managed, WF, Distant;
    StageOutside(r, x);
    BegunFacts(r, x);
    ArrangedTop(r, x, f, g, target, folders);
    forall c | c in x.s.f.par && c in x.s.f.info && c !in x.current
      ensures c in g.par && c in g.info && g.par[c] == x.s.f.par[c] && g.info[c] == x.s.f.info[c]
    {
      assert x.w.f.par[c] == x.s.f.par[c];
      OutsideNode(r, x, f, g, target, folders, c);
    }
    forall q | q in x.s.f.kids && q !in x.current + Containers(r, x.s.f) + x.stays
      ensures q in g.kids && g.kids[q] == x.s.f.kids[q]
    {
      assert x.w.f.kids[q] == x.s.f.kids[q];
      IsDistant(r, x, q);
      DistantQuiet(r, x, f, g, target, folders, q);
    }
  }

  // ---- Nodes directly below the virtual root ---------------------------------------------------------

  lemma RootStrayKept(r: Roots, x: Stage, g: Forest, c: Id)
    requires Begun(r, x) && OutsideKept(r, x.s.f, g, x.stays)
    requires c in x.s.c2l && c in x.s.f.par && x.s.f.par[c] == x.s.f.top
    ensures c in x.w.c2l && c in g.par && g.par[c] == g.top
  {
    ManagedApart(r, x.s.f);
    hide Managed, RootsOk, Containers, ListsKept, Acyclic, Listed, Extends, FreshNode;
    assert c !in x.current && c in x.v.c2l;
  }

  lemma RootStrayBefore(r: Roots, x: Stage, f: Forest, g: Forest, target: map<Id, Id>, folders: set<Id>, c: Id)
    requires Begun(r, x) && ArrangedFrom(r, x, f, g, target, folders)
    requires c in x.w.c2l && c in g.par && g.par[c] == g.top
    ensures c in x.s.c2l && c in x.s.f.par && x.s.f.par[c] == x.s.f.top
  {
    ArrangedTop(r, x, f, g, target, folders);
    BegunParts(r, x);
    if c in x.current {
      SnapshotNode(r, x, c);
      MovedBelow(r, x, f, g, target, folders, c);
    } else {
      OutsideNode(r, x, f, g, target, folders, c);
      OldNode(r, x, c);
    }
  }

  lemma MovedBelow(r: Roots, x: Stage, f: Forest, g: Forest, target: map<Id, Id>, folders: set<Id>, c: Id)
    requires ArrangedFrom(r, x, f, g, target, folders) && c in x.w.f.par && x.w.f.par[c] != x.w.f.top
    ensures c in g.par && g.par[c] != g.top
  {
    hide WF, Untouched, TargetInv;
    assert Reached(f, g, target, {}, c);
  }

  lemma OldNode(r: Roots, x: Stage, c: Id)
    requires Begun(r, x) && c in x.w.c2l && c in x.w.f.par && x.w.f.par[c] == x.w.f.top
    ensures c in x.s.c2l && c in x.s.f.par && x.s.f.par[c] == x.s.f.top
  {
    hide Managed, RootsOk, Containers, Acyclic, Listed;
    if c !in x.v.c2l { NewNode(r, x.e, x.v, x.w, c); }
    assert c in x.v.f.par;
  }

  lemma RootStrays(r: Roots, x: Stage, f: Forest, g: Forest, target: map<Id, Id>, folders: set<Id>)
    requires Begun(r, x) && ArrangedFrom(r, x, f, g, target, folders) && OutsideKept(r, x.s.f, g, x.stays)
    ensures RootStray(View(g, x.w.l2c, x.w.c2l)) <==> RootStray(x.s)
  {
    hide Begun, ArrangedFrom, OutsideKept;
    var t := View(g, x.w.l2c, x.w.c2l);
    if RootStray(x.s) {
      var c :| c in x.s.c2l && c in x.s.f.par && x.s.f.par[c] == x.s.f.top;
      RootStrayKept(r, x, g, c);
      assert c in t.c2l && c in t.f.par && t.f.par[c] == t.f.top;
    }
    if RootStray(t) {
      var c :| c in t.c2l && c in t.f.par && t.f.par[c] == t.f.top;
      RootStrayBefore(r, x, f, g, target, folders, c);
      assert c in x.s.c2l && c in x.s.f.par && x.s.f.par[c] == x.s.f.top;
    }
  }

  // ---- The outcome of a pass --------------------------------------------------------------------------

  lemma StageApart(r: Roots, x: Stage, f: Forest, g: Forest, target: map<Id, Id>, folders: set<Id>, keys: set<Id>)
    requires ArrangedFrom(r, x, f, g, target, folders) && Apart(keys, r, x.w)
    ensures Apart(keys, r, View(g, x.w.l2c, x.w.c2l))
  {
    ArrangedTop(r, x, f, g, target, folders);
  }

  lemma SameContainers(r: Roots, x: Stage, f: Forest, g: Forest, target: map<Id, Id>, folders: set<Id>)
    requires Begun(r, x) && ArrangedFrom(r, x, f, g, target, folders)
    ensures Containers(r, g) == Containers(r, x.s.f)
  {
    ArrangedTop(r, x, f, g, target, folders);
    BegunFacts(r, x);
  }

  /** Every pass, whatever was mapped. */
  lemma PassKeeps(r: Roots, x: Stage, f: Forest, g: Forest, target: map<Id, Id>, folders: set<Id>)
    requires Begun(r, x) && ArrangedFrom(r, x, f, g, target, folders)
    ensures Keeps(r, x.s, View(g, x.w.l2c, x.w.c2l))
  {
    hide Begun, ArrangedFrom, NodesKept, RootStray, Managed, Containers, WF, RootsOk, Sound, Grown, Removed;
    SameContainers(r, x, f, g, target, folders);
    PassOutside(r, x, f, g, target, folders);
    RootStrays(r, x, f, g, target, folders);
    BegunParts(r, x);
  }

  lemma CleanOutside(r: Roots, x: Stage, g: Forest)
    requires Begun(r, x) && Prepared(r, x) && OutsideKept(r, x.s.f, g, x.stays)
    ensures OutsideKept(r, x.s.f, g, {})
  {
    hide WF, RootsOk, Managed, NodesKept, Containers, Sound, Covering, Grown, Removed, Fillable, RootsAvailable,
         KindsMatch, Grounded;
  }

  lemma CleanMaps(r: Roots, x: Stage, g: Forest)
    requires Begun(r, x) && Prepared(r, x) && Covering(r, View(g, x.w.l2c, x.w.c2l))
    ensures x.w.c2l.Keys == Managed(r, g) && x.w.l2c.Keys <= x.e.Keys && Linked(x.w.l2c, x.w.c2l)
  {
    hide WF, RootsOk, Managed, Grown, Removed, Fillable, RootsAvailable, KindsMatch, Grounded, IsManaged;
    CoveringLinked(r, View(g, x.w.l2c, x.w.c2l));
    ManagedEq(r, g, x.w.c2l.Keys);
  }

  lemma PreparedCovers(r: Roots, x: Stage)
    requires Prepared(r, x)
    ensures Covering(r, x.w)
  {
    hide Grounded, KindsMatch, Fillable, Covering;
  }

  lemma SoundLinked(r: Roots, v: View)
    requires Sound(r, v)
    ensures Linked(v.l2c, v.c2l) && RootsOk(r, v.f)
  {}

  // ---- The pairs that survive, and the new ones --------------------------------------------------------

  lemma SurvivorMapped(r: Roots, x: Stage, l: Id)
    requires Begun(r, x) && Stocked(r, x) && l in x.s.l2c && x.s.l2c[l] in Survivors(r, x.e.Keys, x.s)
    requires Linked(x.s.l2c, x.s.c2l)
    ensures l in x.w.l2c && x.w.l2c[l] == x.s.l2c[l] && l in x.e
    ensures x.s.l2c[l] in x.current && x.s.l2c[l] in x.w.c2l && x.w.c2l[x.s.l2c[l]] == l
  {
    var c := x.s.l2c[l];
    assert c in x.current && l in x.e by {
      SurvivorWanted(r, x.e.Keys, x.s, l);
      hide Sound, WF, RootsOk, Grown, Managed;
    }
    BegunParts(r, x);
    SoundShape(r, x.w);
    hide Begun, Sound, WF, RootsOk, Managed, Survivors, CanPlant, Removed, Containers, Extends, FreshNode;
    assert l in KeptKeys(r, x.e.Keys, x.s, x.stays);
    assert x.v.l2c[l] == c;
    assert x.w.l2c[l] == c;
  }

  lemma SurvivorWanted(r: Roots, keys: set<Id>, s: View, l: Id)
    requires Linked(s.l2c, s.c2l) && l in s.l2c && s.l2c[l] in Survivors(r, keys, s)
    ensures s.l2c[l] in Managed(r, s.f) && l in keys
  {
    hide Managed;
    UnderUnfold(s.f.par, s.l2c[l], s.l2c[l]);
  }

  lemma SurvivorStays(r: Roots, x: Stage, f: Forest, g: Forest, target: map<Id, Id>, folders: set<Id>, l: Id)
    requires Begun(r, x) && Stocked(r, x) && ArrangedFrom(r, x, f, g, target, folders) && Linked(x.s.l2c, x.s.c2l)
    requires l in x.s.l2c && x.s.l2c[l] in Survivors(r, x.e.Keys, x.s) && x.s.l2c[l] in x.s.f.info
    ensures l in x.e && l in x.w.l2c && x.w.l2c[l] == x.s.l2c[l] && x.w.l2c[l] in g.info
    ensures g.info[x.w.l2c[l]] == Refreshed(x.s.f.info[x.s.l2c[l]], x.e[l])
  {
    hide Begun, Stocked, Survivors, TargetInv, Untouched;
    SurvivorMapped(r, x, l);
    SnapshotNode(r, x, x.s.l2c[l]);
  }

  lemma AllStay(r: Roots, x: Stage, f: Forest, g: Forest, target: map<Id, Id>, folders: set<Id>)
    requires Begun(r, x) && Stocked(r, x) && ArrangedFrom(r, x, f, g, target, folders) && Linked(x.s.l2c, x.s.c2l)
    ensures SurvivorsStay(r, x.e, x.s, View(g, x.w.l2c, x.w.c2l))
  {
    hide Begun, Stocked, Survivors, ArrangedFrom, Refreshed;
    forall l | l in x.e && l in x.s.l2c && x.s.l2c[l] in Survivors(r, x.e.Keys, x.s) && x.s.l2c[l] in x.s.f.info
      ensures l in x.w.l2c && x.w.l2c[l] == x.s.l2c[l] && x.w.l2c[l] in g.info
      ensures g.info[x.w.l2c[l]] == Refreshed(x.s.f.info[x.s.l2c[l]], x.e[l])
    {
      SurvivorStays(r, x, f, g, target, folders, l);
    }
  }

  /** Planting depends on the root containers and on the folders of `kept` alone. */
  ghost predicate SameGround(r: Roots, s: View, v: View, kept: set<Id>) {
    && (forall q :: IsParentRoot(q) && q in r.toNative ==> (r.toNative[q] in s.f.par <==> r.toNative[q] in v.f.par))
    && (forall q {:trigger v.l2c[q]} {:trigger q in kept} :: q in kept ==>
          && q in s.l2c && q in v.l2c && v.l2c[q] == s.l2c[q] && (v.l2c[q] in v.f.info <==> v.l2c[q] in s.f.info)
          && (v.l2c[q] in v.f.info ==> v.f.info[v.l2c[q]] == s.f.info[v.l2c[q]]))
  }

  lemma {:induction false} PlantSame(r: Roots, e: Doc, s: View, v: View, kept: set<Id>, l: Id, n: nat)
    requires SameGround(r, s, v, kept)
    ensures Plantable(r, e, v, kept, l, n) <==> Plantable(r, e, s, kept, l, n)
    decreases n
  {
    if n > 0 && l in e { PlantSame(r, e, s, v, kept, e[l].parentId, n - 1); }
  }

  lemma SamePlants(r: Roots, e: Doc, s: View, v: View, kept: set<Id>)
    requires SameGround(r, s, v, kept)
    ensures forall l :: CanPlant(r, e, v, kept, l) <==> CanPlant(r, e, s, kept, l)
  {
    hide SameGround;
    forall l ensures CanPlant(r, e, v, kept, l) <==> CanPlant(r, e, s, kept, l) {
      forall n: nat ensures Plantable(r, e, v, kept, l, n) <==> Plantable(r, e, s, kept, l, n) {
        PlantSame(r, e, s, v, kept, l, n);
      }
    }
  }

  lemma StageGround(r: Roots, x: Stage)
    requires Begun(r, x) && Stocked(r, x) && Linked(x.s.l2c, x.s.c2l)
    ensures SameGround(r, x.s, x.v, x.v.l2c.Keys)
  {
    hide Begun, Stocked, Sound, Grown, Managed, KeptKeys, CanPlant, RootsForNew, RootsOk, WF, Linked, Containers,
         Removed;
    RootsAtStage(r, x);
    BegunParts(r, x);
    forall q | IsParentRoot(q) && q in r.toNative ensures r.toNative[q] in x.s.f.par <==> r.toNative[q] in x.v.f.par {
      SameContainer(r, x.s.f, x.v.f, q);
    }
    forall q {:trigger x.v.l2c[q]} {:trigger q in x.v.l2c.Keys} | q in x.v.l2c.Keys
      ensures q in x.s.l2c && x.v.l2c[q] == x.s.l2c[q] && (x.v.l2c[q] in x.v.f.info <==> x.v.l2c[q] in x.s.f.info)
      ensures x.v.l2c[q] in x.v.f.info ==> x.v.f.info[x.v.l2c[q]] == x.s.f.info[x.v.l2c[q]]
    {
      KeptGround(r, x, q);
    }
  }

  lemma SameContainer(r: Roots, f: Forest, g: Forest, q: Id)
    requires RootsOk(r, f) && Containers(r, g) == Containers(r, f) && q in r.toNative
    ensures r.toNative[q] in f.par <==> r.toNative[q] in g.par
  {
    assert r.toNative[q] in Containers(r, f) <==> r.toNative[q] in Containers(r, g);
  }

  lemma KeptGround(r: Roots, x: Stage, q: Id)
    requires Begun(r, x) && Stocked(r, x) && q in x.v.l2c
    ensures q in x.s.l2c && x.v.l2c[q] == x.s.l2c[q] && (x.v.l2c[q] in x.v.f.info <==> x.v.l2c[q] in x.s.f.info)
    ensures x.v.l2c[q] in x.v.f.info ==> x.v.f.info[x.v.l2c[q]] == x.s.f.info[x.v.l2c[q]]
  {
    StockedPart(r, x);
    StockedLinked(r, x);
    BegunParts(r, x);
    hide Begun, Stocked, Sound, Grown, Managed, RootsOk, WF;
    assert x.v.l2c[q] in x.v.c2l && x.v.l2c[q] !in x.deleted;
  }

  /** A node created in this pass is as the entry says. */
  lemma NewDelivered(r: Roots, x: Stage, f: Forest, g: Forest, target: map<Id, Id>, folders: set<Id>, l: Id)
    requires Begun(r, x) && Stocked(r, x) && ArrangedFrom(r, x, f, g, target, folders)
    requires l in x.w.l2c && l !in x.v.l2c
    ensures l in x.e && x.w.l2c[l] !in x.s.f.par
    ensures var t := View(g, x.w.l2c, x.w.c2l); SameInfo(x.e, t, l) && RightParent(r, x.e, t, l)
  {
    BegunParts(r, x);
    StockedLinked(r, x);
    SoundShape(r, x.w);
    CreatedFresh(r, x.e, x.v, x.w, l);
    var c := x.w.l2c[l];
    assert c !in x.current by { hide Sound, WF, RootsOk, Grown, Managed, Removed; }
    OutsideNode(r, x, f, g, target, folders, c);
    hide Begun, Stocked, ArrangedFrom, Sound, Grown, Managed, RootsOk, Linked;
    assert c in x.s.f.par && c !in x.deleted ==> c in Removed(x.s.f, x.deleted).par;
  }

  lemma StockedLinked(r: Roots, x: Stage)
    requires Stocked(r, x)
    ensures Linked(x.v.l2c, x.v.c2l)
  {
    hide Linked, KeptKeys, CanPlant;
  }

  /** What every pass delivers. */
  lemma PassDelivers(r: Roots, x: Stage, f: Forest, g: Forest, target: map<Id, Id>, folders: set<Id>)
    requires Begun(r, x) && Stocked(r, x) && ArrangedFrom(r, x, f, g, target, folders) && Linked(x.s.l2c, x.s.c2l)
    requires Arranges(r, x.e, x.s, x.stays, View(g, x.w.l2c, x.w.c2l))
    ensures Delivers(r, x.e, x.s, x.stays, View(g, x.w.l2c, x.w.c2l))
  {
    var t, kept := View(g, x.w.l2c, x.w.c2l), KeptKeys(r, x.e.Keys, x.s, x.stays);
    hide Begun, Stocked, ArrangedFrom, KeptKeys, SurvivorsStay, CanPlant, SameInfo, RightParent, Linked, SameGround,
         Arranges;
    StageKept(r, x);
    StageGround(r, x);
    StockedKeys(r, x);
    AllStay(r, x, f, g, target, folders);
    SamePlants(r, x.e, x.s, x.v, kept);
    forall l | l in t.l2c && l !in kept
      ensures l in x.e && t.l2c[l] !in x.s.f.par && SameInfo(x.e, t, l) && RightParent(r, x.e, t, l)
    {
      NewDelivered(r, x, f, g, target, folders, l);
    }
  }

  lemma StageKept(r: Roots, x: Stage)
    requires Begun(r, x) && Stocked(r, x)
    ensures x.v.l2c.Keys == KeptKeys(r, x.e.Keys, x.s, x.stays)
    ensures forall l :: l in x.v.l2c ==> l in x.w.l2c && x.w.l2c[l] == x.s.l2c[l]
  {
    BegunParts(r, x);
    hide Begun, Sound, Managed, Survivors, CanPlant, Removed, WF, RootsOk, Linked, FreshNode, Extends;
    forall l ensures l in x.v.l2c <==> l in KeptKeys(r, x.e.Keys, x.s, x.stays) {
      assert l in x.v.l2c <==> l in x.s.l2c && l in KeptKeys(r, x.e.Keys, x.s, x.stays);
    }
    forall l | l in x.v.l2c ensures l in x.w.l2c && x.w.l2c[l] == x.s.l2c[l] { assert x.v.l2c[l] == x.s.l2c[l]; }
  }

  // ---- When one pass is enough for maps and contents -----------------------------------------------------

  lemma SyncedKindsBefore(r: Roots, doc: Doc, s: View, t: View)
    requires SurvivorsStay(r, doc, s, t) && Synced(r, doc, t)
    ensures SurvivorKinds(r, doc, s)
  {
    hide Survivors, Managed;
    forall l | l in doc && l in s.l2c && s.l2c[l] in Survivors(r, doc.Keys, s) && s.l2c[l] in s.f.info
      ensures doc[l].url.None? <==> s.f.info[s.l2c[l]].url.None?
    {
      assert t.l2c[l] == s.l2c[l];
      assert SameInfo(doc, t, l);
    }
  }

  /** An entry created in this pass found its root container. */
  lemma CreatedRoot(r: Roots, e: Doc, v: View, w: View, l: Id)
    requires Sound(r, w) && Linked(v.l2c, v.c2l) && Grown(r, e, v, w) && l in e && l in w.l2c && l !in v.l2c
    requires IsParentRoot(e[l].parentId)
    ensures e[l].parentId in r.toNative && r.toNative[e[l].parentId] in Containers(r, w.f)
  {
    hide WF, Grown, Linked, FreshNode;
    CreatedFresh(r, e, v, w, l);
    NewNode(r, e, v, w, w.l2c[l]);
    FreshBelowRoot(r, e, v, w, w.l2c[l]);
  }

  lemma FreshBelowRoot(r: Roots, e: Doc, v: View, w: View, c: Id)
    requires RootsOk(r, w.f) && c in w.c2l && FreshNode(r, e, v, w, c) && IsParentRoot(e[w.c2l[c]].parentId)
    requires w.f.par[c] in w.f.par
    ensures e[w.c2l[c]].parentId in r.toNative && r.toNative[e[w.c2l[c]].parentId] in Containers(r, w.f)
  {}

  lemma SyncedRootsBefore(r: Roots, x: Stage)
    requires Begun(r, x) && Stocked(r, x) && x.stays <= x.current && Linked(x.s.l2c, x.s.c2l)
    requires x.w.l2c.Keys == x.e.Keys
    ensures RootsForNew(r, x.e, KeptEntries(r, x.e.Keys, x.s), x.s.f)
  {
    hide Begun, Stocked, KeptEntries, Grown, Linked, Sound, Managed, WF, RootsOk, Removed, Survivors, Containers;
    BegunParts(r, x);
    StockedLinked(r, x);
    KeptAre(r, x);
    forall l | l in x.e && l !in KeptEntries(r, x.e.Keys, x.s) && IsParentRoot(x.e[l].parentId)
      ensures x.e[l].parentId in r.toNative && r.toNative[x.e[l].parentId] in x.s.f.par
    {
      CreatedRoot(r, x.e, x.v, x.w, l);
      ContainerHere(r, x.s.f, r.toNative[x.e[l].parentId]);
    }
  }

  lemma ContainerHere(r: Roots, f: Forest, p: Id)
    requires p in Containers(r, f)
    ensures p in f.par
  {}

  lemma FillableExact(r: Roots, x: Stage, f: Forest, g: Forest, target: map<Id, Id>, folders: set<Id>)
    requires Begun(r, x) && Stocked(r, x) && Prepared(r, x) && ArrangedFrom(r, x, f, g, target, folders)
    requires Grounded(x.e) && WF(g) && Linked(x.s.l2c, x.s.c2l)
    requires SurvivorsStay(r, x.e, x.s, View(g, x.w.l2c, x.w.c2l))
    ensures Synced(r, x.e, View(g, x.w.l2c, x.w.c2l)) <==> Fillable(r, x.e, x.s)
  {
    hide WF, RootsOk, Managed, Grown, Removed, RootsAvailable, KindsMatch, Grounded, Covering, Split, Stocked, Linked,
         ContentInv, TargetInv, Shuffled, Untouched, SurvivorsStay, SurvivorKinds, KeptEntries, RootsForNew, Synced,
         Sound;
    var t := View(g, x.w.l2c, x.w.c2l);
    if Fillable(r, x.e, x.s) {
      BegunFacts(r, x);
      PassSynced(r, x.e, x.v, x.w, x.current, f, g, target);
    }
    if Synced(r, x.e, t) {
      SyncedKindsBefore(r, x.e, x.s, t);
      SyncedRootsBefore(r, x) by { SyncedKeys(r, x.e, t); }
    }
  }

  /** Nodes outside the managed tree stay outside. */
  lemma {:induction false} OutsideStays(r: Roots, f: Forest, g: Forest, but: set<Id>, rank: map<Id, nat>, c: Id)
    requires WF(f) && RootsOk(r, f) && WF(g) && RootsOk(r, g) && Containers(r, g) == Containers(r, f)
    requires OutsideKept(r, f, g, but) && Ranked(f.par, rank) && c in f.par && c !in Managed(r, f)
    ensures c !in Managed(r, g)
    decreases rank[c]
  {
    hide Managed, RootsOk, Acyclic, Listed, ListsKept;
    ManagedIs(r, f);
    ManagedIs(r, g);
    var p := f.par[c];
    assert g.par[c] == p;
    if p in f.par { OutsideStays(r, f, g, but, rank, p); } else { ManagedApart(r, g); }
  }

  /** A stray pair that the purge left is there after the pass, and as stray as before. */
  lemma StrayLeft(r: Roots, x: Stage, g: Forest, c: Id)
    requires Begun(r, x) && Sound(r, View(g, x.w.l2c, x.w.c2l)) && Containers(r, g) == Containers(r, x.s.f)
    requires OutsideKept(r, x.s.f, g, x.stays) && c in x.stays && c !in x.current
    ensures c in x.w.c2l && c !in Managed(r, g)
  {
    BegunParts(r, x);
    assert c in x.s.f.par && c in x.v.c2l by { hide WF, RootsOk, Managed, Sound, Grown, Removed, Containers; }
    assert c in x.w.c2l by { hide Begun, WF, RootsOk, Managed, Sound, FreshNode, Extends, Removed, Containers; }
    hide Begun, Managed, RootsOk, OutsideKept, Shape, Listed, Grown, Linked, Removed;
    var rank :| Ranked(x.s.f.par, rank);
    OutsideStays(r, x.s.f, g, x.stays, rank, c);
  }

  /** After an unclean purge no document is mapped exactly. */
  lemma UncleanLeft(r: Roots, x: Stage, f: Forest, g: Forest, target: map<Id, Id>, folders: set<Id>, p: Doc)
    requires Begun(r, x) && ArrangedFrom(r, x, f, g, target, folders) && Sound(r, View(g, x.w.l2c, x.w.c2l))
    requires !(x.stays <= x.current)
    ensures !Synced(r, p, View(g, x.w.l2c, x.w.c2l))
  {
    hide Begun, ArrangedFrom, Managed, Containers, Sound, OutsideKept, SameInfo;
    var c :| c in x.stays && c !in x.current;
    PassOutside(r, x, f, g, target, folders);
    SameContainers(r, x, f, g, target, folders);
    StrayLeft(r, x, g, c);
  }

  lemma SyncedKeys(r: Roots, doc: Doc, t: View)
    requires Synced(r, doc, t)
    ensures t.l2c.Keys == doc.Keys
  {}

  /** Without stray nodes what is left mapped are the survivors. */
  lemma CleanKept(r: Roots, keys: set<Id>, s: View, stays: set<Id>)
    requires stays <= Managed(r, s.f)
    ensures KeptKeys(r, keys, s, stays) == KeptKeys(r, keys, s, {}) == KeptEntries(r, keys, s)
  {
    hide Survivors, Managed;
  }

  lemma CleanDelivers(r: Roots, e: Doc, s: View, stays: set<Id>, t: View)
    requires Delivers(r, e, s, stays, t) && stays <= Managed(r, s.f)
    ensures Delivers(r, e, s, {}, t)
  {
    hide SurvivorsStay, CanPlant, KeptKeys, KeptEntries, SameInfo, RightParent, HasAnchor, LivePair;
    CleanKept(r, e.Keys, s, stays);
    assert Arranges(r, e, s, {}, t);
  }

  /** A pass whose purge was clean. */
  lemma PassReconciles(r: Roots, x: Stage, f: Forest, g: Forest, target: map<Id, Id>, folders: set<Id>)
    requires Begun(r, x) && Stocked(r, x) && Prepared(r, x) && ArrangedFrom(r, x, f, g, target, folders)
    requires Covering(r, View(g, x.w.l2c, x.w.c2l)) && Linked(x.s.l2c, x.s.c2l)
    requires Delivers(r, x.e, x.s, x.stays, View(g, x.w.l2c, x.w.c2l))
    requires ValidDoc(x.e) && Mirrors(r, x.e, x.s) ==> View(g, x.w.l2c, x.w.c2l) == x.s
    ensures Reconciles(r, x.e, x.s, View(g, x.w.l2c, x.w.c2l))
  {
    var t := View(g, x.w.l2c, x.w.c2l);
    hide Begun, Stocked, Prepared, ArrangedFrom, Managed, Containers, Grounded, Synced, Fillable, OutsideKept, Linked,
         SurvivorsStay, Arranges, CanPlant, KeptKeys, ValidDoc, Mirrors;
    CoveringLinked(r, t);
    PassOutside(r, x, f, g, target, folders);
    SameContainers(r, x, f, g, target, folders);
    CleanOutside(r, x, g);
    CleanMaps(r, x, g);
    assert x.stays <= Managed(r, x.s.f) by { CleanStays(r, x); }
    CleanDelivers(r, x.e, x.s, x.stays, t);
    if Grounded(x.e) { FillableExact(r, x, f, g, target, folders); }
  }

  lemma CleanStays(r: Roots, x: Stage)
    requires Begun(r, x) && Prepared(r, x)
    ensures x.stays <= Managed(r, x.s.f)
  {
    BegunFacts(r, x);
    hide Begun, Managed, Covering, Split, Fillable;
  }
}
