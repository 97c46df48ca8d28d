/** The bookmarks API of a browser: an ordered forest that only four calls can change. */
module Browsers {
  import opened Forests
  import opened ForestOps

  /** One accepted mutation. `from` is the place of the moved node in the target folder
      before the call, or -1 when it came from another folder. */
  datatype Call =
    | Removal(id: Id)
    | Creation(id: Id, parent: Id)
    | Change(id: Id)
    | Shift(id: Id, parent: Id, index: nat, from: int)

  ghost predicate MoveAllowed(f: Forest, x: Id, p: Id, i: nat) {
    Ordinary(f, x) && CanHold(f, p) && i <= |f.kids[p]| && !Under(f.par, p, x)
  }

  /** Where `x` stands in folder `p`, or -1. */
  function Place(f: Forest, x: Id, p: Id): int {
    if p in f.kids && x in f.kids[p] then Pos(f.kids[p], x) else -1
  }

  class Browser {
    var f: Forest
    /** Every id handed out so far is below `next`. */
    var next: Id
    /** The mutations accepted so far. */
    var log: seq<Call>

    ghost predicate Valid()
      reads this
    {
      WF(f) && f.top < next && forall c :: c in f.par ==> c < next
    }

    constructor (initial: Forest, bound: Id)
      requires WF(initial) && initial.top < bound && forall c :: c in initial.par ==> c < bound
      ensures Valid() && f == initial && next == bound && log == []
    {
      f, next, log := initial, bound, [];
    }

    /** An id never used before (new bookmark ids and random UUIDs). */
    method Fresh() returns (id: Id)
      requires Valid()
      modifies this`next
      ensures Valid() && id == old(next) && next == old(next) + 1
    {
      id := next;
      next := next + 1;
    }

    method RemoveTree(x: Id) returns (ok: bool, ghost gone: set<Id>)
      requires Valid()
      modifies this`f, this`log
      ensures Valid()
      ensures ok == Ordinary(old(f), x)
      ensures !ok ==> f == old(f) && log == old(log)
      ensures ok ==> log == old(log) + [Removal(x)]
      ensures ok ==> IsSubtree(old(f).par, x, gone) && f == Removed(old(f), gone)
      ensures ok ==> f.par == old(f).par - gone && f.info == old(f).info - gone
      ensures ok ==> f.kids.Keys == old(f).kids.Keys - gone
    {
      gone := {};
      ok := x in f.par && f.par[x] != f.top;
      if ok {
        var below := Descendants(f, x);
        gone := below + {x};
        ClosedSubtree(f, x, gone);
        RemovedWF(f, gone);
        f := Removed(f, below + {x});
        log := log + [Removal(x)];
      }
    }

    method Create(p: Id, title: string, url: Option<string>) returns (r: Option<Id>)
      requires Valid()
      modifies this
      ensures Valid()
      ensures r.Some? == CanHold(old(f), p)
      ensures r.None? ==> f == old(f) && log == old(log) && next == old(next)
      ensures r.Some? ==> r.value == old(next) && next == old(next) + 1
      ensures r.Some? ==> f == Created(old(f), r.value, p, Info(title, url)) && log == old(log) + [Creation(r.value, p)]
      ensures r.Some? ==> f.par == old(f).par[r.value := p] && f.info == old(f).info[r.value := Info(title, url)]
      ensures r.Some? ==> p in f.kids && f.kids[p] == old(f).kids[p] + [r.value]
      ensures r.Some? ==> forall q :: q in old(f).kids && q != p ==> q in f.kids && f.kids[q] == old(f).kids[q]
    {
      if p in f.kids && p != f.top {
        CreatedWF(f, next, p, Info(title, url));
        f := Created(f, next, p, Info(title, url));
        log := log + [Creation(next, p)];
        r := Some(next);
        next := next + 1;
      } else {
        r := None;
      }
    }

    /** A folder cannot be given a URL; an omitted URL leaves the URL alone. */
    method Update(c: Id, title: string, url: Option<string>) returns (ok: bool)
      requires Valid()
      modifies this`f, this`log
      ensures Valid()
      ensures ok == (Ordinary(old(f), c) && (url.Some? ==> old(f).info[c].url.Some?))
      ensures !ok ==> f == old(f) && log == old(log)
      ensures ok ==> f == Updated(old(f), c, title, url) && log == old(log) + [Change(c)]
      ensures ok ==> f.par == old(f).par && f.kids == old(f).kids
      ensures ok ==> f.info == old(f).info[c := Info(title, if url.Some? then url else old(f).info[c].url)]
    {
      ok := c in f.par && f.par[c] != f.top && (url.Some? ==> f.info[c].url.Some?);
      if ok {
        UpdatedWF(f, c, title, url);
        f := Updated(f, c, title, url);
        log := log + [Change(c)];
      }
    }

    method Move(x: Id, p: Id, i: nat) returns (ok: bool)
      requires Valid()
      modifies this`f, this`log
      ensures Valid()
      ensures ok == MoveAllowed(old(f), x, p, i)
      ensures !ok ==> f == old(f) && log == old(log)
      ensures ok ==> f == Moved(old(f), x, p, i) && f.par == old(f).par[x := p] && f.info == old(f).info
      ensures ok ==> forall k :: ChildAt(old(f), x, k) ==> MovedTo(old(f), f, x, k, p, i)
      ensures ok ==> log == old(log) + [Shift(x, p, i, Place(old(f), x, p))]
    {
      ok := x in f.par && f.par[x] != f.top && p in f.kids && p != f.top && i <= |f.kids[p]|;
      if ok {
        var inside := IsInside(f, p, x);
        ok := !inside;
      }
      if ok {
        MovedWF(f, x, p, i);
        forall k | ChildAt(f, x, k) ensures MovedTo(f, Moved(f, x, p, i), x, k, p, i) { MovedExact(f, x, p, i, k); }
        log := log + [Shift(x, p, i, Place(f, x, p))];
        f := Moved(f, x, p, i);
      }
    }
  }

  /** `x` is child number `k` of its folder. */
  ghost predicate ChildAt(f: Forest, x: Id, k: nat) {
    x in f.par && f.par[x] in f.kids && k < |f.kids[f.par[x]]| && f.kids[f.par[x]][k] == x
  }

  /** Child number `k` of its folder has become child number `i` of `p`; in its own folder an index behind its old place
      still counts the node itself. All other child lists are as they were. */
  ghost predicate MovedTo(f: Forest, g: Forest, x: Id, k: nat, p: Id, i: nat)
    requires ChildAt(f, x, k) && p in f.kids && i <= |f.kids[p]|
  {
    var q := f.par[x];
    var rest := f.kids[q][..k] + f.kids[q][k + 1..];
    && p in g.kids && q in g.kids
    && (q != p ==> g.kids[q] == rest && g.kids[p] == f.kids[p][..i] + [x] + f.kids[p][i..])
    && (q == p && k < i ==> g.kids[p] == rest[..i - 1] + [x] + rest[i - 1..])
    && (q == p && i <= k ==> g.kids[p] == rest[..i] + [x] + rest[i..])
    && forall o :: o in f.kids && o != p && o != q ==> o in g.kids && g.kids[o] == f.kids[o]
  }

  lemma MovedExact(f: Forest, x: Id, p: Id, i: nat, k: nat)
    requires WF(f) && ChildAt(f, x, k) && p in f.kids && i <= |f.kids[p]|
    ensures MovedTo(f, Moved(f, x, p, i), x, k, p, i)
  {
    hide Acyclic, Shape;
    var s := f.kids[f.par[x]];
    assert s[k] == x && x in s;
    assert Pos(s, x) == k by { assert NoDup(s); }
  }

  lemma ClosedSubtree(f: Forest, x: Id, t: set<Id>)
    requires WF(f) && IsSubtree(f.par, x, t)
    ensures ClosedDown(f, t)
  {
    forall c | c in f.par && f.par[c] in t ensures c in t {}
  }

  /** Walks up from `c` looking for `x`. */
  method IsInside(f: Forest, c: Id, x: Id) returns (inside: bool)
    requires WF(f)
    ensures inside == Under(f.par, c, x)
  {
    ghost var rank :| Ranked(f.par, rank);
    var cur := c;
    while cur in f.par && cur != x
      invariant Under(f.par, c, x) == Under(f.par, cur, x)
      decreases if cur in rank then rank[cur] + 1 else 0
    {
      UnderUnfold(f.par, cur, x);
      cur := f.par[cur];
    }
    UnderUnfold(f.par, cur, x);
    inside := cur == x;
  }

  /** Everything strictly below `x`, gathered breadth first. */
  method Descendants(f: Forest, x: Id) returns (result: set<Id>)
    requires WF(f) && x in f.par
    ensures IsSubtree(f.par, x, result + {x}) && x !in result
  {
    ghost var rank :| Ranked(f.par, rank);
    result := {};
    var queue := if x in f.kids then f.kids[x] else [];
    while queue != []
      invariant BfsInv(f, x, rank, result, queue)
      decreases f.par.Keys - result, |queue|
    {
      var id := queue[0];
      BfsStep(f, x, rank, result, queue);
      result := result + {id};
      queue := queue[1..] + (if id in f.kids then f.kids[id] else []);
    }
    BfsDone(f, x, rank, result);
  }

  /** Visited nodes and queued nodes lie below `x`; every child of a visited node is accounted for. */
  ghost predicate BfsInv(f: Forest, x: Id, rank: map<Id, nat>, result: set<Id>, queue: seq<Id>) {
    && x in f.par && result <= f.par.Keys && x !in result
    && NoDup(queue)
    && (forall c :: c in result || c in queue ==>
          c in f.par && (f.par[c] in result || f.par[c] == x) && c in rank && x in rank && rank[x] < rank[c])
    && (forall c :: c in queue ==> c !in result)
    && (forall c {:trigger f.par[c]} :: c in f.par && (f.par[c] in result || f.par[c] == x) ==>
          c in result || c in queue)
  }

  lemma BfsStep(f: Forest, x: Id, rank: map<Id, nat>, result: set<Id>, queue: seq<Id>)
    requires WF(f) && Ranked(f.par, rank) && BfsInv(f, x, rank, result, queue) && queue != []
    ensures BfsInv(f, x, rank, result + {queue[0]}, queue[1..] + (if queue[0] in f.kids then f.kids[queue[0]] else []))
  {
    var id, rest := queue[0], queue[1..];
    assert queue == [id] + rest;
    TailNoDup(queue);
    assert id !in rest;
    hide BfsInv, Acyclic;
    BfsNext(f, x, rank, result, id, rest, if id in f.kids then f.kids[id] else []);
  }

  lemma BfsNext(f: Forest, x: Id, rank: map<Id, nat>, result: set<Id>, id: Id, rest: seq<Id>, more: seq<Id>)
    requires WF(f) && Ranked(f.par, rank) && BfsInv(f, x, rank, result, [id] + rest)
    requires id !in rest && NoDup(rest)
    requires NoDup(more) && forall c :: c in more <==> c in f.par && f.par[c] == id
    ensures BfsInv(f, x, rank, result + {id}, rest + more)
  {
    hide WF, NoDup;
    assert id in [id] + rest;
    assert forall c :: c in [id] + rest <==> c == id || c in rest;
    forall c | c in more ensures c !in result && c !in rest {}
    NoDupConcat(rest, more);
    assert forall c :: c in rest + more <==> c in rest || c in more;
  }

  lemma NoDupConcat(a: seq<Id>, b: seq<Id>)
    requires NoDup(a) && NoDup(b) && forall c :: c in b ==> c !in a
    ensures NoDup(a + b)
  {
    forall i, k | 0 <= i < k < |a + b| ensures (a + b)[i] != (a + b)[k] {
      if i < |a| <= k { assert b[k - |a|] in b; assert a[i] in a; }
    }
  }

  lemma BfsDone(f: Forest, x: Id, rank: map<Id, nat>, result: set<Id>)
    requires WF(f) && Ranked(f.par, rank) && BfsInv(f, x, rank, result, [])
    ensures IsSubtree(f.par, x, result + {x})
  {
    hide WF;
  }
}
