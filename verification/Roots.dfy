/** Root containers: translation between a browser's own root ids and the canonical ones, and the
    part of the tree below them that is managed. */
module RootTables {
  import opened Forests
  import opened Positions
  import opened Documents

  datatype Roots = Roots(toNative: map<Id, Id>, toCanon: map<Id, Id>, ids: set<Id>)

  /** Firefox's fixed root ids "root________", "toolbar_____", "unfiled_____" and "mobile______",
      numbered in the order of the canonical roots they stand for. */
  const FF_ROOT: Id := 4
  const FF_UNFILED: Id := 6
  const FF_MOBILE: Id := 7

  const CHROME_ROOTS := Roots(map[0 := 0, 1 := 1, 2 := 2, 3 := 3], map[0 := 0, 1 := 1, 2 := 2, 3 := 3], {0, 1, 2, 3})

  predicate IsFirefoxRoot(id: Id) {
    FF_ROOT <= id <= FF_MOBILE
  }

  function FirefoxCanonical(id: Id): Id
    requires IsFirefoxRoot(id)
  {
    id - FF_ROOT
  }

  /** The tables agree with each other and with the tree: every root container that exists sits
      directly below the virtual root and is the write target of its canonical id. */
  ghost predicate RootsOk(r: Roots, f: Forest) {
    && r.toNative.Keys == {0, 1, 2, 3}
    && r.toNative[0] == f.top && f.top in r.ids
    && (forall a {:trigger r.toNative[a]} :: a in r.toNative ==>
          a in r.ids && r.toNative[a] in r.ids && (a != 0 ==> r.toNative[a] != f.top))
    && (forall a, b {:trigger r.toNative[a], r.toNative[b]} :: a in r.toNative && b in r.toNative && a != b ==>
          r.toNative[a] != r.toNative[b])
    && (forall c :: c in r.toCanon ==> c in r.ids)
    && f.top in r.toCanon && r.toCanon[f.top] == 0 && 0 in r.toCanon && r.toCanon[0] == 0 && 0 !in f.par
    && (forall c {:trigger f.par[c]} :: c in r.ids && c in f.par ==>
          f.par[c] == f.top && c in f.kids && c in r.toCanon && IsParentRoot(r.toCanon[c])
            && r.toNative[r.toCanon[c]] == c)
  }

  lemma RootIds(r: Roots, f: Forest)
    requires RootsOk(r, f)
    ensures forall a :: IsRoot(a) ==> a in r.ids
  {
    forall a: Id | IsRoot(a) ensures a in r.ids {
      assert a in r.toNative;
      var n := r.toNative[a];
    }
  }

  /** The root containers that exist in the tree. */
  function Containers(r: Roots, f: Forest): set<Id> {
    set c | c in r.ids && c in f.par
  }

  /** What a supported browser's tree looks like: Chrome's roots are "1" to "3" below "0". A browser with another
      virtual root, Firefox's "root________" or any other, has no node with a canonical id, and Firefox's fixed
      ids, where it has them, directly below that root. */
  ghost predicate BrowserTree(f: Forest) {
    && (f.top == 0 ==> forall c :: c in f.par && IsRoot(c) ==> f.par[c] == 0 && c in f.kids)
    && (f.top != 0 ==> !IsRoot(f.top) && (f.top == FF_ROOT || !IsFirefoxRoot(f.top)) && FF_ROOT !in f.par)
    && (f.top != 0 ==> forall c :: c in f.par ==> !IsRoot(c))
    && (f.top != 0 ==> forall c :: c in f.par && IsFirefoxRoot(c) ==> f.par[c] == f.top && c in f.kids)
  }

  /** The tables after the children in `seen` were looked at. */
  ghost predicate Tables(f: Forest, seen: set<Id>, r: Roots) {
    && !IsRoot(f.top) && (f.top == FF_ROOT || !IsFirefoxRoot(f.top)) && 0 in r.toNative && FF_ROOT !in seen
    && (forall a :: a in r.toNative ==>
          a <= 3 && r.toNative[a] == (if a == 0 then f.top else a + FF_ROOT) && (a == 0 || r.toNative[a] in seen))
    && (forall c :: c in r.toCanon <==> c == 0 || c == f.top || (c in seen && IsFirefoxRoot(c)))
    && (forall c :: c in r.toCanon ==> r.toCanon[c] == if c == 0 || c == f.top then 0 else c - FF_ROOT)
    && (forall c :: c in r.ids <==> IsRoot(c) || c in r.toCanon)
    && (forall c :: c in seen && IsFirefoxRoot(c) ==> c - FF_ROOT in r.toNative)
  }

  function WithChild(r: Roots, child: Id): Roots {
    if !IsFirefoxRoot(child) then r
    else
      var canonical := FirefoxCanonical(child);
      Roots(if canonical !in r.toNative || child == FF_UNFILED then r.toNative[canonical := child] else r.toNative,
            r.toCanon[child := canonical], r.ids + {child})
  }

  lemma TablesStep(f: Forest, seen: set<Id>, r: Roots, child: Id)
    requires Tables(f, seen, r) && child != f.top && child != FF_ROOT
    ensures Tables(f, seen + {child}, WithChild(r, child))
  {
    var q := WithChild(r, child);
    assert q.toCanon == if IsFirefoxRoot(child) then r.toCanon[child := child - FF_ROOT] else r.toCanon;
    assert forall a :: a in q.toNative <==> a in r.toNative || (IsFirefoxRoot(child) && a == child - FF_ROOT);
  }

  /** Every canonical root gets a write target, if need be its own id. */
  function WithTargets(r: Roots): (q: Roots)
    requires 0 in r.toNative && forall a :: a in r.toNative ==> a <= 3
    ensures q.toCanon == r.toCanon && q.ids == r.ids && q.toNative.Keys == {0, 1, 2, 3}
    ensures forall a :: a in q.toNative ==> q.toNative[a] == if a in r.toNative then r.toNative[a] else a
  {
    var n1 := if 1 in r.toNative then r.toNative else r.toNative[1 := 1];
    var n2 := if 2 in n1 then n1 else n1[2 := 2];
    var n3 := if 3 in n2 then n2 else n2[3 := 3];
    r.(toNative := n3)
  }

  lemma RootsSeen(f: Forest)
    requires WF(f) && BrowserTree(f) && f.top != 0
    ensures f.top in f.kids && forall c :: c in f.par ==> !IsRoot(c) && c != f.top && c != FF_ROOT
    ensures forall c :: c in f.par && IsFirefoxRoot(c) ==> c in SetOf(f.kids[f.top]) && f.par[c] == f.top && c in f.kids
  {
    hide Acyclic;
    forall c | c in f.par && IsFirefoxRoot(c) ensures c in SetOf(f.kids[f.top]) { assert c in f.kids[f.par[c]]; }
  }

  lemma ContainersDone(f: Forest, r: Roots)
    requires WF(f) && BrowserTree(f) && f.top in f.kids && Tables(f, SetOf(f.kids[f.top]), r)
    ensures forall c :: c in f.par ==> (c in r.ids <==> IsFirefoxRoot(c))
    ensures forall c :: c in r.ids && c in f.par ==>
      f.par[c] == f.top && c in f.kids && c in r.toCanon && IsParentRoot(r.toCanon[c]) && r.toCanon[c] in r.toNative
        && r.toNative[r.toCanon[c]] == c
  {
    RootsSeen(f);
    hide WF, BrowserTree;
  }

  lemma TargetsOk(f: Forest, seen: set<Id>, r: Roots, q: Roots)
    requires Tables(f, seen, r) && 0 !in f.par && forall c :: c in seen ==> c != f.top && !IsRoot(c)
    requires q.toCanon == r.toCanon && q.ids == r.ids && q.toNative.Keys == {0, 1, 2, 3}
    requires forall a :: a in q.toNative ==> q.toNative[a] == if a in r.toNative then r.toNative[a] else a
    requires forall c :: c in r.ids && c in f.par ==>
      f.par[c] == f.top && c in f.kids && c in r.toCanon && IsParentRoot(r.toCanon[c]) && r.toCanon[c] in r.toNative
        && r.toNative[r.toCanon[c]] == c
    ensures RootsOk(q, f)
  {
    assert forall a :: a in r.toNative && a != 0 ==> r.toNative[a] in r.toCanon;
    forall a | a in q.toNative
      ensures a <= 3 && (q.toNative[a] == (if a == 0 then f.top else a + FF_ROOT) || (q.toNative[a] == a && a != 0))
    {}
    forall a | a in q.toNative ensures q.toNative[a] in q.ids && (a != 0 ==> q.toNative[a] != f.top) {}
  }

  lemma TablesDone(f: Forest, r: Roots)
    requires WF(f) && BrowserTree(f) && Tables(f, SetOf(f.kids[f.top]), r)
    ensures RootsOk(WithTargets(r), f)
    ensures forall c :: c in f.par ==> (c in r.ids <==> IsFirefoxRoot(c))
  {
    ContainersDone(f, r);
    TablesTargets(f, SetOf(f.kids[f.top]), r);
    forall c | c in SetOf(f.kids[f.top]) ensures c != f.top && !IsRoot(c) {}
    TargetsOk(f, SetOf(f.kids[f.top]), r, WithTargets(r));
  }

  /** Which container stands for which canonical root: Chrome's roots for themselves; elsewhere "toolbar_____" (5)
      for "1", "unfiled_____" (6) for "2" and "mobile______" (7) for "3". A root without container keeps its own id. */
  ghost predicate Standing(f: Forest, r: Roots) {
    && r.toNative.Keys == {0, 1, 2, 3} && r.toNative[0] == f.top && f.top in r.toCanon && r.toCanon[f.top] == 0
    && (f.top == 0 ==>
          r.toNative == map[0 := 0, 1 := 1, 2 := 2, 3 := 3] && r.toCanon == map[0 := 0, 1 := 1, 2 := 2, 3 := 3])
    && (f.top != 0 ==> r.toCanon.Keys == {0, f.top} + (set c | c in {5, 6, 7} && c in f.par))
    && (f.top != 0 ==> (if 5 in f.par then r.toCanon[5] == 1 && r.toNative[1] == 5 else r.toNative[1] == 1))
    && (f.top != 0 ==> (if 6 in f.par then r.toCanon[6] == 2 && r.toNative[2] == 6 else r.toNative[2] == 2))
    && (f.top != 0 ==> (if 7 in f.par then r.toCanon[7] == 3 && r.toNative[3] == 7 else r.toNative[3] == 3))
  }

  /** Where a browser keeps its toolbar (1), its other bookmarks (2) and its mobile bookmarks (3): Chrome in "1" to "3",
      the others in "toolbar_____", "unfiled_____" and "mobile______". */
  function Shelf(f: Forest, k: Id): Id
    requires 1 <= k <= 3
  {
    if f.top == 0 then k else k + 4
  }

  /** The tables send each of the three to its place, if the browser has it. */
  lemma ShelfStands(f: Forest, r: Roots, k: Id)
    requires RootsOk(r, f) && Standing(f, r) && BrowserTree(f) && 1 <= k <= 3
    ensures k in r.toNative && (r.toNative[k] in f.par <==> Shelf(f, k) in f.par)
    ensures Shelf(f, k) in f.par ==>
      r.toNative[k] == Shelf(f, k) && Shelf(f, k) in r.toCanon && r.toCanon[Shelf(f, k)] == k
        && Shelf(f, k) in Containers(r, f)
  {
    assert r.toNative[k] in r.ids;
  }

  /** Detects the browser's roots and fills the translation tables. */
  method InitBrowserRoots(f: Forest) returns (r: Roots)
    requires WF(f) && BrowserTree(f)
    ensures RootsOk(r, f) && Standing(f, r)
    ensures forall c :: c in f.par ==> (c in r.ids <==> if f.top == 0 then c <= 3 else 5 <= c <= 7)
    ensures forall c :: c in r.ids ==> c <= 7 || c == f.top
  {
    hide Tables, RootsOk, Standing, WithChild, WithTargets, CHROME_ROOTS;
    if f.top == 0 {
      ChromeRootsOk(f);
      ChromeStanding(f);
      return CHROME_ROOTS;
    }
    TopChildren(f);
    r := Roots(map[0 := f.top], map[0 := 0][f.top := 0], {0, 1, 2, 3, f.top});
    assert Tables(f, {}, r) by { TablesInit(f); }
    var children := f.kids[f.top];
    assert SetOf(children[..0]) == {};
    var i := 0;
    while i < |children|
      invariant 0 <= i <= |children| && Tables(f, SetOf(children[..i]), r)
    {
      PrefixSet(children, i);
      TablesStep(f, SetOf(children[..i]), r, children[i]);
      r := WithChild(r, children[i]);
      i := i + 1;
    }
    assert children[..i] == children;
    TablesDone(f, r);
    TablesTargets(f, SetOf(children), r);
    TablesStanding(f, r);
    r := WithTargets(r);
  }

  lemma ChromeStanding(f: Forest)
    requires f.top == 0
    ensures Standing(f, CHROME_ROOTS) && forall c :: c in CHROME_ROOTS.ids ==> c <= 7
  {}

  lemma TablesStanding(f: Forest, r: Roots)
    requires WF(f) && BrowserTree(f) && f.top in f.kids && Tables(f, SetOf(f.kids[f.top]), r)
    requires 0 in r.toNative && forall a :: a in r.toNative ==> a <= 3
    ensures Standing(f, WithTargets(r))
    ensures forall c :: c in f.par ==> (c in r.ids <==> 5 <= c <= 7)
    ensures forall c :: c in r.ids ==> c <= 7 || c == f.top
  {
    hide WF, BrowserTree, WithTargets, Tables, Standing;
    var seen := SetOf(f.kids[f.top]);
    TopStands(f, seen, r);
    ChildrenSeen(f);
    StandsFor(f, seen, r, 5);
    StandsFor(f, seen, r, 6);
    StandsFor(f, seen, r, 7);
    StandingFrom(f, r, WithTargets(r));
  }

  lemma ChildrenSeen(f: Forest)
    requires WF(f) && BrowserTree(f) && f.top != 0 && f.top in f.kids
    ensures forall c :: 5 <= c <= 7 ==> (c in f.par <==> c in SetOf(f.kids[f.top]))
    ensures forall c :: c in f.par ==> !IsRoot(c) && c != f.top && c != FF_ROOT
  {
    RootsSeen(f);
    ChildrenInForest(f);
  }

  lemma StandingFrom(f: Forest, r: Roots, q: Roots)
    requires f.top != 0 && q.toNative.Keys == {0, 1, 2, 3} && q.toCanon == r.toCanon
    requires forall a :: a in q.toNative ==> q.toNative[a] == if a in r.toNative then r.toNative[a] else a
    requires 0 in r.toNative && r.toNative[0] == f.top && f.top in r.toCanon && r.toCanon[f.top] == 0
    requires r.toCanon.Keys == {0, f.top} + (set c | c in {5, 6, 7} && c in f.par)
    requires if 5 in f.par then 5 in r.toCanon && r.toCanon[5] == 1 && 1 in r.toNative && r.toNative[1] == 5
      else 1 !in r.toNative
    requires if 6 in f.par then 6 in r.toCanon && r.toCanon[6] == 2 && 2 in r.toNative && r.toNative[2] == 6
      else 2 !in r.toNative
    requires if 7 in f.par then 7 in r.toCanon && r.toCanon[7] == 3 && 3 in r.toNative && r.toNative[3] == 7
      else 3 !in r.toNative
    ensures Standing(f, q)
  {}

  lemma TopStands(f: Forest, seen: set<Id>, r: Roots)
    requires Tables(f, seen, r)
    ensures f.top != 0 && 0 in r.toNative && r.toNative[0] == f.top && f.top in r.toCanon && r.toCanon[f.top] == 0
    ensures r.toCanon.Keys == {0, f.top} + (set c | c in {5, 6, 7} && c in seen)
    ensures forall c :: !IsRoot(c) && c != f.top ==> (c in r.ids <==> 5 <= c <= 7 && c in seen)
  {
    forall c ensures c in r.toCanon <==> c == 0 || c == f.top || (c in {5, 6, 7} && c in seen) {}
  }

  lemma StandsFor(f: Forest, seen: set<Id>, r: Roots, c: Id)
    requires Tables(f, seen, r) && 5 <= c <= 7
    ensures if c in seen then c in r.toCanon && r.toCanon[c] == c - 4 && c - 4 in r.toNative && r.toNative[c - 4] == c
            else c - 4 !in r.toNative
  {}

  lemma ChildrenInForest(f: Forest)
    requires WF(f) && f.top in f.kids
    ensures forall c :: c in SetOf(f.kids[f.top]) ==> c in f.par
  {}

  lemma TablesTargets(f: Forest, seen: set<Id>, r: Roots)
    requires Tables(f, seen, r)
    ensures 0 in r.toNative && forall a :: a in r.toNative ==> a <= 3
  {}

  lemma IdentityRootsOk(f: Forest, r: Roots)
    requires f.top == 0 && 0 !in f.par && forall c :: c in f.par && c <= 3 ==> f.par[c] == 0 && c in f.kids
    requires r.toNative.Keys == {0, 1, 2, 3} && r.toCanon.Keys == {0, 1, 2, 3} && r.ids == {0, 1, 2, 3}
    requires forall a :: a in r.toNative ==> r.toNative[a] == a
    requires forall a :: a in r.toCanon ==> r.toCanon[a] == a
    ensures RootsOk(r, f)
  {}

  lemma ChromeRootsOk(f: Forest)
    requires WF(f) && BrowserTree(f) && f.top == 0
    ensures RootsOk(CHROME_ROOTS, f) && forall c :: c in CHROME_ROOTS.ids <==> IsRoot(c)
  {
    hide RootsOk;
    assert 0 !in f.par && forall c :: c in f.par && c <= 3 ==> f.par[c] == 0 && c in f.kids;
    hide WF, BrowserTree;
    IdentityRootsOk(f, CHROME_ROOTS);
  }

  lemma TopChildren(f: Forest)
    requires WF(f) && BrowserTree(f)
    ensures f.top in f.kids
    ensures forall i :: 0 <= i < |f.kids[f.top]| ==>
      f.kids[f.top][i] != f.top && (f.top != 0 ==> f.kids[f.top][i] != FF_ROOT)
  {
    assert forall i :: 0 <= i < |f.kids[f.top]| ==> f.kids[f.top][i] in f.kids[f.top];
  }

  lemma TablesInit(f: Forest)
    requires BrowserTree(f) && f.top != 0
    ensures Tables(f, {}, Roots(map[0 := f.top], map[0 := 0][f.top := 0], {0, 1, 2, 3, f.top}))
  {}
}
