/** The managed part of the browser tree and the breadth-first walk that collects it. */
module ManagedTree {
  import opened Forests
  import opened ForestOps
  import opened Browsers
  import opened Positions
  import opened RootTables

  /** Everything strictly below a root container. */
  ghost function Managed(r: Roots, f: Forest): set<Id> {
    set c | c in f.par && BelowContainer(r, f, c)
  }

  ghost predicate BelowContainer(r: Roots, f: Forest, c: Id) {
    exists k :: k in Containers(r, f) && k != c && Under(f.par, c, k)
  }

  lemma {:induction false} UpRank(par: map<Id, Id>, rank: map<Id, nat>, c: Id, n: nat)
    requires Ranked(par, rank) && c in rank
    ensures Up(par, c, n) in rank && rank[Up(par, c, n)] <= rank[c]
    decreases n
  {
    if n > 0 { UpRank(par, rank, if c in par then par[c] else c, n - 1); }
  }

  lemma NotAboveItself(par: map<Id, Id>, c: Id)
    requires Acyclic(par) && c in par
    ensures !Under(par, par[c], c)
  {
    var rank :| Ranked(par, rank);
    forall n: nat ensures Up(par, par[c], n) != c { UpRank(par, rank, par[c], n); }
  }

  /** Being managed is decided by the parent alone. */
  lemma ManagedIs(r: Roots, f: Forest)
    requires WF(f) && RootsOk(r, f)
    ensures IsManaged(f, Containers(r, f), Managed(r, f))
  {
    var cs, m := Containers(r, f), Managed(r, f);
    forall c | c in f.par ensures c in m <==> f.par[c] in cs || f.par[c] in m {
      var p := f.par[c];
      if c in m {
        var k :| k in cs && k != c && Under(f.par, c, k);
        UnderUnfold(f.par, c, k);
        UnderUnfold(f.par, p, k);
        if p != k { assert BelowContainer(r, f, p); }
      }
      if p in cs {
        UnderUnfold(f.par, p, p);
        UnderUnfold(f.par, c, p);
        NotAboveItself(f.par, c);
        assert BelowContainer(r, f, c);
      } else if p in m {
        var k :| k in cs && k != p && Under(f.par, p, k);
        UnderUnfold(f.par, c, k);
        NotAboveItself(f.par, c);
        assert BelowContainer(r, f, c);
      }
    }
  }

  lemma ManagedEq(r: Roots, f: Forest, m: set<Id>)
    requires WF(f) && RootsOk(r, f) && IsManaged(f, Containers(r, f), m)
    ensures m == Managed(r, f)
  {
    ManagedIs(r, f);
    ManagedUnique(f, Containers(r, f), m, Managed(r, f));
  }

  predicate IsVirtualRoot(r: Roots, id: Id)
    requires 0 in r.toNative
  {
    id == 0 || id == r.toNative[0]
  }

  // ---- The walk ------------------------------------------------------------------------

  /** Parents precede their children. */
  ghost predicate ParentsFirst(f: Forest, cs: set<Id>, visit: seq<Id>) {
    forall i :: 0 <= i < |visit| ==> visit[i] in f.par && (f.par[visit[i]] in cs || f.par[visit[i]] in visit[..i])
  }

  /** Siblings are visited in the order in which their folder lists them. */
  ghost predicate SiblingsInOrder(f: Forest, visit: seq<Id>) {
    forall i, k :: 0 <= i < k < |visit| ==> Before(f, visit[i], visit[k])
  }

  /** If they are siblings, `a` stands before `b`. */
  ghost predicate Before(f: Forest, a: Id, b: Id) {
    Siblings(f, a, b) ==> Pos(f.kids[f.par[a]], a) < Pos(f.kids[f.par[a]], b)
  }

  ghost predicate Siblings(f: Forest, a: Id, b: Id) {
    a in f.par && b in f.par && f.par[a] == f.par[b] && f.par[a] in f.kids && a in f.kids[f.par[a]]
      && b in f.kids[f.par[a]]
  }

  ghost predicate Expanded(r: Roots, f: Forest, x: Id) {
    x == f.top || x in Containers(r, f) || x in Managed(r, f)
  }

  /** The frontier of the walk: exactly the children of expanded nodes were seen. */
  ghost predicate Frontier(r: Roots, f: Forest, done: set<Id>, queue: seq<Id>) {
    && NoDup(queue)
    && (forall c :: c in queue ==> c !in done && (c in f.par || c == f.top))
    && (f.top in done || queue == [f.top])
    && (forall c {:trigger f.par[c]} :: c in f.par ==>
          ((c in done || c in queue) <==> f.par[c] in done && Expanded(r, f, f.par[c])))
  }

  ghost predicate WalkInv(r: Roots, f: Forest, done: set<Id>, queue: seq<Id>, visit: seq<Id>) {
    && Frontier(r, f, done, queue)
    && NoDup(visit) && (forall c :: c in visit <==> c in done && c in Managed(r, f))
    && ParentsFirst(f, Containers(r, f), visit)
  }

  /** How the walk treats a node: root containers are entered but not collected, other children of
      the virtual root are skipped with everything below them. */
  lemma WalkCases(r: Roots, f: Forest, done: set<Id>, queue: seq<Id>, visit: seq<Id>)
    requires WF(f) && RootsOk(r, f) && WalkInv(r, f, done, queue, visit) && queue != []
    ensures var x := queue[0];
      && (x in r.ids ==> Expanded(r, f, x) && x !in Managed(r, f))
      && (x !in r.ids ==> x in f.par && (IsVirtualRoot(r, f.par[x]) <==> x !in Managed(r, f)))
      && (x !in r.ids ==> (x in Managed(r, f) <==> Expanded(r, f, x)))
  {
    hide Managed, ParentsFirst, Acyclic;
    ManagedIs(r, f);
    var x := queue[0];
    assert x in queue;
    if x in f.par {
      var p := f.par[x];
      assert p in done && Expanded(r, f, p);
    }
  }

  /** The children of an expanded node are new to the walk. */
  lemma NewChildren(r: Roots, f: Forest, done: set<Id>, queue: seq<Id>, visit: seq<Id>, more: seq<Id>)
    requires WF(f) && WalkInv(r, f, done, queue, visit) && queue != []
    requires more == if Expanded(r, f, queue[0]) && queue[0] in f.kids then f.kids[queue[0]] else []
    ensures forall c :: c in more ==> c in f.par && f.par[c] == queue[0] && c !in done && c !in queue && c != queue[0]
    ensures forall c :: c in f.par && f.par[c] == queue[0] && Expanded(r, f, queue[0]) ==> c in more
    ensures NoDup(queue[1..] + more)
  {
    hide Managed, Containers, Expanded, ParentsFirst, Acyclic, RootsOk;
    var x, rest := queue[0], queue[1..];
    assert queue == [x] + rest;
    TailNoDup(queue);
    assert x in queue;
    forall c | c in more ensures c in f.par && f.par[c] == x && c !in done && c !in queue && c != x {
      NotOwnParent(f, c);
    }
    NoDupConcat(rest, more);
  }

  lemma FrontierStep(r: Roots, f: Forest, done: set<Id>, x: Id, rest: seq<Id>, more: seq<Id>)
    requires Frontier(r, f, done, [x] + rest) && NoDup(rest + more) && x !in rest
    requires forall c :: c in more ==> c in f.par && f.par[c] == x && c !in done && c != x
    requires forall c :: c in more <==> c in f.par && f.par[c] == x && Expanded(r, f, x)
    ensures Frontier(r, f, done + {x}, rest + more)
  {
    assert forall c :: c in [x] + rest <==> c == x || c in rest;
    assert [x] + rest == [f.top] ==> x == f.top by { if [x] + rest == [f.top] { assert ([x] + rest)[0] == f.top; } }
  }

  lemma WalkStep(r: Roots, f: Forest, done: set<Id>, queue: seq<Id>, visit: seq<Id>, more: seq<Id>, visit': seq<Id>)
    requires WF(f) && RootsOk(r, f) && WalkInv(r, f, done, queue, visit) && queue != []
    requires more == if Expanded(r, f, queue[0]) && queue[0] in f.kids then f.kids[queue[0]] else []
    requires visit' == if queue[0] in Managed(r, f) then visit + [queue[0]] else visit
    ensures WalkInv(r, f, done + {queue[0]}, queue[1..] + more, visit')
  {
    hide Managed, Containers, Expanded, ParentsFirst, WF, RootsOk;
    var x, rest := queue[0], queue[1..];
    assert queue == [x] + rest;
    assert x in queue;
    NewChildren(r, f, done, queue, visit, more);
    VisitStep(r, f, done, x, visit, visit');
    hide Frontier;
    FrontierStep(r, f, done, x, rest, more);
  }

  lemma NotOwnParent(f: Forest, c: Id)
    requires WF(f) && c in f.par
    ensures f.par[c] != c
  {
    var rank :| Ranked(f.par, rank);
  }

  lemma VisitStep(r: Roots, f: Forest, done: set<Id>, x: Id, visit: seq<Id>, visit': seq<Id>)
    requires WF(f) && RootsOk(r, f) && x !in done && (x in f.par ==> f.par[x] in done)
    requires NoDup(visit) && (forall c :: c in visit <==> c in done && c in Managed(r, f))
    requires ParentsFirst(f, Containers(r, f), visit)
    requires visit' == if x in Managed(r, f) then visit + [x] else visit
    ensures NoDup(visit') && (forall c :: c in visit' <==> c in done + {x} && c in Managed(r, f))
    ensures ParentsFirst(f, Containers(r, f), visit')
  {
    hide Acyclic, Listed;
    ManagedIs(r, f);
    hide Managed, Containers;
    if x in Managed(r, f) {
      forall i | 0 <= i < |visit'|
        ensures visit'[i] in f.par && (f.par[visit'[i]] in Containers(r, f) || f.par[visit'[i]] in visit'[..i])
      {
        if i < |visit| { assert visit'[..i] == visit[..i]; } else { assert visit'[..i] == visit; }
      }
    }
  }

  lemma {:induction false} WalkCovers(r: Roots, f: Forest, done: set<Id>, visit: seq<Id>, rank: map<Id, nat>, c: Id)
    requires WF(f) && RootsOk(r, f) && WalkInv(r, f, done, [], visit) && Ranked(f.par, rank) && c in Managed(r, f)
    ensures c in done
    decreases rank[c]
  {
    ManagedIs(r, f);
    var p := f.par[c];
    if p in Managed(r, f) {
      WalkCovers(r, f, done, visit, rank, p);
    } else {
      assert f.par[p] == f.top && Expanded(r, f, f.top);
    }
  }

  /** Collects the managed nodes, parents before children. */
  method CollectManaged(r: Roots, f: Forest) returns (visit: seq<Id>)
    requires WF(f) && RootsOk(r, f)
    ensures NoDup(visit) && SetOf(visit) == Managed(r, f)
    ensures ParentsFirst(f, Containers(r, f), visit) && SiblingsInOrder(f, visit)
  {
    hide WF, WalkInv, Managed, Containers, Expanded, Acyclic, SiblingsInOrder;
    visit := [];
    var queue := [f.top];
    ghost var done := {};
    assert WalkInv(r, f, done, queue, visit) by { WalkInit(r, f); }
    OneInOrder(f, f.top);
    while queue != []
      invariant WalkInv(r, f, done, queue, visit) && SiblingsInOrder(f, visit + queue)
      decreases f.par.Keys + {f.top} - done
    {
      var x := queue[0];
      ghost var visit0 := visit;
      var more := [];
      WalkCases(r, f, done, queue, visit);
      WalkNode(r, f, done, queue, visit);
      if x in r.ids {
        more := if x in f.kids then f.kids[x] else [];
      } else if !IsVirtualRoot(r, f.par[x]) {
        visit := visit + [x];
        more := if x in f.kids then f.kids[x] else [];
      }
      OrderStep(r, f, done, queue, visit0, more, visit);
      WalkStep(r, f, done, queue, visit0, more, visit);
      queue := queue[1..] + more;
      done := done + {x};
    }
    WalkDone(r, f, done, visit);
    assert visit + queue == visit;
  }

  lemma OneInOrder(f: Forest, x: Id)
    ensures SiblingsInOrder(f, [] + [x])
  {}

  /** A child list is in order. */
  lemma KidsInOrder(f: Forest, p: Id)
    requires WF(f) && p in f.kids
    ensures SiblingsInOrder(f, f.kids[p])
  {
    hide Acyclic, Shape;
    var s := f.kids[p];
    forall i, k | 0 <= i < k < |s| ensures Before(f, s[i], s[k]) {
      assert s[i] in s && s[k] in s && f.par[s[i]] == p;
      assert s[Pos(s, s[i])] == s[i] && s[Pos(s, s[k])] == s[k];
    }
  }

  lemma InOrderConcat(f: Forest, a: seq<Id>, b: seq<Id>)
    requires SiblingsInOrder(f, a) && SiblingsInOrder(f, b) && forall x, y :: x in a && y in b ==> Before(f, x, y)
    ensures SiblingsInOrder(f, a + b)
  {
    hide Before;
    var s := a + b;
    forall i, k | 0 <= i < k < |s| ensures Before(f, s[i], s[k]) {
      if k < |a| {
        assert s[i] == a[i] && s[k] == a[k];
      } else if i >= |a| {
        assert s[i] == b[i - |a|] && s[k] == b[k - |a|];
      } else {
        assert s[i] == a[i] && s[k] == b[k - |a|];
      }
    }
  }

  lemma InOrderWithout(f: Forest, a: seq<Id>, x: Id, b: seq<Id>)
    requires SiblingsInOrder(f, a + ([x] + b))
    ensures SiblingsInOrder(f, a + b)
  {
    hide Before;
    var s, t := a + b, a + ([x] + b);
    forall i, k | 0 <= i < k < |s| ensures Before(f, s[i], s[k]) {
      assert s[i] == t[if i < |a| then i else i + 1] && s[k] == t[if k < |a| then k else k + 1];
    }
  }

  /** Nothing seen so far is a child of the node that is expanded next. */
  lemma NoSiblings(r: Roots, f: Forest, done: set<Id>, queue: seq<Id>, visit: seq<Id>, y: Id, z: Id)
    requires WF(f) && WalkInv(r, f, done, queue, visit) && queue != [] && (y in visit || y in queue)
    requires z in f.par && f.par[z] == queue[0]
    ensures Before(f, y, z)
  {
    hide Managed, Containers, Expanded, ParentsFirst, Acyclic;
    assert queue[0] in queue && queue[0] !in done;
    assert y in done || y in queue;
    assert y in f.par ==> f.par[y] in done;
  }

  /** Expanding a node puts its children behind everything seen so far. */
  lemma OrderStep(r: Roots, f: Forest, done: set<Id>, queue: seq<Id>, visit: seq<Id>, more: seq<Id>, visit': seq<Id>)
    requires WF(f) && RootsOk(r, f) && WalkInv(r, f, done, queue, visit) && queue != []
    requires SiblingsInOrder(f, visit + queue)
    requires more == if Expanded(r, f, queue[0]) && queue[0] in f.kids then f.kids[queue[0]] else []
    requires visit' == if queue[0] in Managed(r, f) then visit + [queue[0]] else visit
    ensures SiblingsInOrder(f, visit' + (queue[1..] + more))
  {
    hide Managed, Containers, Expanded, RootsOk, WF, WalkInv, SiblingsInOrder, Before;
    var x, rest := queue[0], queue[1..];
    assert queue == [x] + rest;
    NewChildren(r, f, done, queue, visit, more);
    SeenStep(f, visit, x, rest, visit');
    if more == [] { NoneInOrder(f); } else { KidsInOrder(f, x); }
    forall y, z | y in visit' + rest && z in more ensures Before(f, y, z) {
      assert y in visit || y == x || y in rest;
      assert x in queue && (y in rest ==> y in [x] + rest);
      NoSiblings(r, f, done, queue, visit, y, z);
    }
    InOrderConcat(f, visit' + rest, more);
    assert visit' + (rest + more) == (visit' + rest) + more;
  }

  lemma NoneInOrder(f: Forest)
    ensures SiblingsInOrder(f, [])
  {}

  lemma SeenStep(f: Forest, visit: seq<Id>, x: Id, rest: seq<Id>, visit': seq<Id>)
    requires SiblingsInOrder(f, visit + ([x] + rest)) && (visit' == visit || visit' == visit + [x])
    ensures SiblingsInOrder(f, visit' + rest)
    ensures forall y :: y in visit' + rest ==> y in visit || y == x || y in rest
  {
    hide Before;
    InOrderWithout(f, visit, x, rest);
    hide SiblingsInOrder;
    assert visit + ([x] + rest) == (visit + [x]) + rest;
  }

  lemma WalkInit(r: Roots, f: Forest)
    requires WF(f)
    ensures WalkInv(r, f, {}, [f.top], [])
  {}

  lemma WalkNode(r: Roots, f: Forest, done: set<Id>, queue: seq<Id>, visit: seq<Id>)
    requires WalkInv(r, f, done, queue, visit) && queue != []
    ensures queue[0] !in done && (queue[0] in f.par || queue[0] == f.top)
  {
    assert queue[0] in queue;
  }

  lemma WalkDone(r: Roots, f: Forest, done: set<Id>, visit: seq<Id>)
    requires WF(f) && RootsOk(r, f) && WalkInv(r, f, done, [], visit)
    ensures NoDup(visit) && SetOf(visit) == Managed(r, f) && ParentsFirst(f, Containers(r, f), visit)
  {
    var rank :| Ranked(f.par, rank);
    forall c | c in Managed(r, f) ensures c in done { WalkCovers(r, f, done, visit, rank, c); }
  }
}
