/** The four mutations of the bookmarks API as functions on forests, and what each keeps. */
module ForestOps {
  import opened Forests

  /** `c` is a removable, movable node: not a child of the virtual root. */
  predicate Ordinary(f: Forest, c: Id) {
    c in f.par && f.par[c] != f.top
  }

  /** `p` can receive children: an existing folder other than the virtual root. */
  predicate CanHold(f: Forest, p: Id) {
    p in f.kids && p != f.top
  }

  /** `m` is the set of managed nodes: the descendants of the containers `cs`. */
  ghost predicate IsManaged(f: Forest, cs: set<Id>, m: set<Id>) {
    && m <= f.par.Keys
    && forall c {:trigger f.par[c]} :: c in f.par ==> (c in m <==> f.par[c] in cs || f.par[c] in m)
  }

  lemma {:induction false} ManagedUniqueAt(f: Forest, cs: set<Id>, m: set<Id>, n: set<Id>, rank: map<Id, nat>, c: Id)
    requires IsManaged(f, cs, m) && IsManaged(f, cs, n) && Ranked(f.par, rank) && c in f.par
    ensures c in m <==> c in n
    decreases rank[c]
  {
    if f.par[c] in f.par { ManagedUniqueAt(f, cs, m, n, rank, f.par[c]); }
  }

  /** The parent links leave no choice. */
  lemma ManagedUnique(f: Forest, cs: set<Id>, m: set<Id>, n: set<Id>)
    requires IsManaged(f, cs, m) && IsManaged(f, cs, n) && Acyclic(f.par)
    ensures m == n
  {
    var rank :| Ranked(f.par, rank);
    forall c | c in f.par ensures c in m <==> c in n { ManagedUniqueAt(f, cs, m, n, rank, c); }
  }

  ghost predicate ClosedDown(f: Forest, gone: set<Id>) {
    && gone <= f.par.Keys
    && forall c :: c in f.par && f.par[c] in gone ==> c in gone
  }

  function Removed(f: Forest, gone: set<Id>): Forest {
    Forest(f.top, f.par - gone,
           map p | p in f.kids && p !in gone :: Without(f.kids[p], gone),
           f.info - gone)
  }

  function Created(f: Forest, id: Id, p: Id, info: Info): Forest
    requires p in f.kids
  {
    var kids := f.kids[p := f.kids[p] + [id]];
    Forest(f.top, f.par[id := p], if info.url.None? then kids[id := []] else kids, f.info[id := info])
  }

  /** An omitted URL leaves the URL alone. */
  function Updated(f: Forest, c: Id, title: string, url: Option<string>): Forest
    requires c in f.info
  {
    f.(info := f.info[c := Info(title, if url.Some? then url else f.info[c].url)])
  }

  /** Where `x` lands in the list it was taken out of: an index past its old place counts `x` itself. */
  function Landing(f: Forest, x: Id, p: Id, i: nat): nat
    requires x in f.par && f.par[x] in f.kids && x in f.kids[f.par[x]]
  {
    if f.par[x] == p && Pos(f.kids[p], x) < i then i - 1 else i
  }

  function Moved(f: Forest, x: Id, p: Id, i: nat): Forest
    requires x in f.par && f.par[x] in f.kids && x in f.kids[f.par[x]]
    requires p in f.kids && i <= |f.kids[p]|
  {
    var kids := f.kids[f.par[x] := Drop(f.kids[f.par[x]], x)];
    f.(par := f.par[x := p], kids := kids[p := Insert(kids[p], Landing(f, x, p, i), x)])
  }

  // ---- What the mutations keep -------------------------------------------------------

  lemma AcyclicSub(par: map<Id, Id>, gone: set<Id>)
    requires Acyclic(par)
    ensures Acyclic(par - gone)
  {
    var rank :| Ranked(par, rank);
    assert Ranked(par - gone, rank);
  }

  lemma RemovedWF(f: Forest, gone: set<Id>)
    requires WF(f) && ClosedDown(f, gone)
    ensures WF(Removed(f, gone))
  {
    var g := Removed(f, gone);
    AcyclicSub(f.par, gone);
    assert Listed(g) by {
      forall p | p in g.kids
        ensures NoDup(g.kids[p]) && forall c :: c in g.kids[p] <==> c in f.kids[p] && c !in gone
      {
        WithoutMembers(f.kids[p], gone);
      }
    }
  }

  lemma RemovedTwice(f: Forest, a: set<Id>, b: set<Id>)
    ensures Removed(Removed(f, a), b) == Removed(f, a + b)
  {
    forall p | p in f.kids { WithoutTwice(f.kids[p], a, b); }
    var x, y := Removed(Removed(f, a), b), Removed(f, a + b);
    assert x.par == y.par;
    assert x.info == y.info;
    assert x.kids == y.kids;
  }

  lemma RemovedNothing(f: Forest)
    ensures Removed(f, {}) == f
  {
    forall p | p in f.kids { WithoutNone(f.kids[p], {}); }
    assert Removed(f, {}).kids == f.kids;
  }

  lemma AcyclicAdd(par: map<Id, Id>, id: Id, p: Id)
    requires Acyclic(par) && id !in par && id != p && forall c :: c in par ==> par[c] != id
    ensures Acyclic(par[id := p])
  {
    var rank :| Ranked(par, rank);
    var rp := if p in rank then rank[p] else 0;
    assert Ranked(par[id := p], rank[p := rp][id := rp + 1]);
  }

  lemma CreatedListed(f: Forest, id: Id, p: Id, info: Info)
    requires WF(f) && p in f.kids && id !in f.par && id != f.top
    ensures Listed(Created(f, id, p, info))
  {
    Appended(f.kids[p], id);
    hide Acyclic, NoDup;
  }

  lemma Appended(s: seq<Id>, x: Id)
    requires NoDup(s) && x !in s
    ensures NoDup(s + [x]) && forall c :: c in s + [x] <==> c in s || c == x
  {}

  lemma CreatedWF(f: Forest, id: Id, p: Id, info: Info)
    requires WF(f) && p in f.kids && id !in f.par && id != f.top
    ensures WF(Created(f, id, p, info))
  {
    AcyclicAdd(f.par, id, p);
    CreatedListed(f, id, p, info);
  }

  lemma UpdatedWF(f: Forest, c: Id, title: string, url: Option<string>)
    requires WF(f) && c in f.info && (url.Some? ==> f.info[c].url.Some?)
    ensures WF(Updated(f, c, title, url))
  {}

  lemma AcyclicMove(par: map<Id, Id>, x: Id, p: Id)
    requires Acyclic(par) && x in par && !Under(par, p, x)
    ensures Acyclic(par[x := p])
  {
    var rank :| Ranked(par, rank);
    var par' := par[x := p];
    var rp := if p in rank then rank[p] else 0;
    var rank' := map c | c in rank.Keys + {p} ::
      if Under(par, c, x) then (if c in rank then rank[c] else 0) + rp + 1
      else if c in rank then rank[c] else 0;
    forall c | c in par' ensures c in rank' && par'[c] in rank' && rank'[par'[c]] < rank'[c] {
      UnderUnfold(par, c, x);
    }
    assert Ranked(par', rank');
  }

  lemma Relocated(s: seq<Id>, i: nat, x: Id)
    requires NoDup(s) && x !in s && i <= |s|
    ensures NoDup(Insert(s, i, x)) && forall c :: c in Insert(s, i, x) <==> c in s || c == x
  {
    InsertMembers(s, i, x);
    InsertNoDup(s, i, x);
  }

  lemma RelinkListed(f: Forest, x: Id, p: Id, d: seq<Id>, r: seq<Id>)
    requires WF(f) && x in f.par && p in f.kids
    requires NoDup(d) && forall c :: c in d <==> c in f.kids[f.par[x]] && c != x
    requires NoDup(r) && forall c :: c in r <==> c in f.kids[p] || c == x
    ensures Listed(f.(par := f.par[x := p], kids := f.kids[f.par[x] := d][p := r]))
  {
    hide Acyclic, NoDup;
  }

  lemma MovedListed(f: Forest, x: Id, p: Id, i: nat)
    requires WF(f) && x in f.par && p in f.kids && i <= |f.kids[p]|
    ensures Listed(Moved(f, x, p, i))
  {
    var o := f.par[x];
    var d := Drop(f.kids[o], x);
    var base := if o == p then d else f.kids[p];
    var r := Insert(base, Landing(f, x, p, i), x);
    DropMembers(f.kids[o], x);
    Relocated(base, Landing(f, x, p, i), x);
    RelinkListed(f, x, p, d, r);
    assert Moved(f, x, p, i) == f.(par := f.par[x := p], kids := f.kids[o := d][p := r]);
  }

  lemma MovedWF(f: Forest, x: Id, p: Id, i: nat)
    requires WF(f) && x in f.par && p in f.kids && i <= |f.kids[p]| && !Under(f.par, p, x)
    ensures WF(Moved(f, x, p, i))
  {
    AcyclicMove(f.par, x, p);
    MovedListed(f, x, p, i);
  }
}
