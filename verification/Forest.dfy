/** The browser's bookmark forest as a value: parent links, ordered child lists and
    node contents, with the well-formedness every browser keeps. */
module Forests {
  /** Bookmark ids and document keys are opaque strings compared only for equality;
      they are represented by naturals. */
  type Id = nat

  datatype Option<+T> = None | Some(value: T)

  datatype Info = Info(title: string, url: Option<string>)

  /** `top` is the virtual root; every other node has a parent. Folders (no URL) have a
      child list, bookmarks have none. */
  datatype Forest = Forest(top: Id, par: map<Id, Id>, kids: map<Id, seq<Id>>, info: map<Id, Info>)

  ghost predicate NoDup(s: seq<Id>) {
    forall i, k :: 0 <= i < k < |s| ==> s[i] != s[k]
  }

  ghost predicate Ranked(par: map<Id, Id>, rank: map<Id, nat>) {
    forall c :: c in par ==> c in rank && par[c] in rank && rank[par[c]] < rank[c]
  }

  ghost predicate Acyclic(par: map<Id, Id>) {
    exists rank: map<Id, nat> :: Ranked(par, rank)
  }

  /** Exactly the folders, and the virtual root, have a child list. */
  ghost predicate Shape(f: Forest) {
    && f.top !in f.par
    && f.info.Keys == f.par.Keys
    && (forall c :: c in f.kids <==> c == f.top || (c in f.par && f.info[c].url.None?))
    && (forall c {:trigger f.par[c]} :: c in f.par ==> f.par[c] in f.kids)
  }

  /** The child lists hold each node once, under its parent. */
  ghost predicate Listed(f: Forest) {
    && (forall p {:trigger f.kids[p]} :: p in f.kids ==> NoDup(f.kids[p]))
    && (forall p, c {:trigger c in f.kids[p]} :: p in f.kids && c in f.kids[p] ==> c in f.par && f.par[c] == p)
    && (forall c {:trigger f.par[c]} :: c in f.par && f.par[c] in f.kids ==> c in f.kids[f.par[c]])
  }

  ghost predicate WF(f: Forest) {
    Shape(f) && Listed(f) && Acyclic(f.par)
  }

  // ---- Ancestors -------------------------------------------------------------------

  ghost function Up(par: map<Id, Id>, c: Id, n: nat): Id
    decreases n
  {
    if n == 0 then c else Up(par, if c in par then par[c] else c, n - 1)
  }

  /** `x` is `c` or one of its ancestors. */
  ghost predicate Under(par: map<Id, Id>, c: Id, x: Id) {
    exists n: nat :: Up(par, c, n) == x
  }

  lemma UnderUnfold(par: map<Id, Id>, c: Id, x: Id)
    ensures Under(par, c, x) <==> c == x || (c in par && Under(par, par[c], x))
  {
    if Under(par, c, x) && c != x {
      var n: nat :| Up(par, c, n) == x;
      assert n != 0;
      if c in par {
        assert Up(par, par[c], n - 1) == x;
      } else {
        UpStuck(par, c, n);
      }
    }
    if c == x { assert Up(par, c, 0) == x; }
    if c in par && Under(par, par[c], x) {
      var n: nat :| Up(par, par[c], n) == x;
      assert Up(par, c, n + 1) == x;
    }
  }

  lemma {:induction false} UpStuck(par: map<Id, Id>, c: Id, n: nat)
    requires c !in par
    ensures Up(par, c, n) == c
  {
    if n > 0 { UpStuck(par, c, n - 1); }
  }

  /** A set that contains `c` and is closed under taking parents contains every ancestor. */
  lemma {:induction false} UnderStaysIn(par: map<Id, Id>, c: Id, x: Id, a: set<Id>)
    requires c in a
    requires forall y :: y in a && y in par ==> par[y] in a
    requires Under(par, c, x)
    ensures x in a
  {
    var n: nat :| Up(par, c, n) == x;
    UpStaysIn(par, c, n, a);
  }

  lemma {:induction false} UpStaysIn(par: map<Id, Id>, c: Id, n: nat, a: set<Id>)
    requires c in a
    requires forall y :: y in a && y in par ==> par[y] in a
    ensures Up(par, c, n) in a
    decreases n
  {
    if n > 0 { UpStaysIn(par, if c in par then par[c] else c, n - 1, a); }
  }

  /** `t` is the subtree of `x`. */
  ghost predicate IsSubtree(par: map<Id, Id>, x: Id, t: set<Id>) {
    && x in t
    && t <= par.Keys
    && forall c :: c in par && c != x ==> (c in t <==> par[c] in t)
  }

  lemma SubtreeIsUnder(par: map<Id, Id>, x: Id, t: set<Id>, c: Id)
    requires IsSubtree(par, x, t) && Acyclic(par) && c in par
    ensures c in t <==> Under(par, c, x)
  {
    var rank :| Ranked(par, rank);
    SubtreeIsUnderRec(par, x, t, c, rank);
  }

  lemma {:induction false} SubtreeIsUnderRec(par: map<Id, Id>, x: Id, t: set<Id>, c: Id, rank: map<Id, nat>)
    requires IsSubtree(par, x, t) && Ranked(par, rank) && c in par
    ensures c in t <==> Under(par, c, x)
    decreases rank[c]
  {
    UnderUnfold(par, c, x);
    if c != x {
      if par[c] in par {
        SubtreeIsUnderRec(par, x, t, par[c], rank);
      } else {
        UnderUnfold(par, par[c], x);
      }
    }
  }

  // ---- Child lists -----------------------------------------------------------------

  function Pos(s: seq<Id>, x: Id): (i: nat)
    requires x in s
    ensures i < |s| && s[i] == x && x !in s[..i]
  {
    if s[0] == x then 0 else
      assert s == [s[0]] + s[1..];
      var r := Pos(s[1..], x);
      assert s[..r + 1] == [s[0]] + s[1..][..r];
      1 + r
  }

  function Drop(s: seq<Id>, x: Id): seq<Id>
    requires x in s
  {
    s[..Pos(s, x)] + s[Pos(s, x) + 1..]
  }

  function Insert(s: seq<Id>, i: nat, x: Id): seq<Id>
    requires i <= |s|
  {
    s[..i] + [x] + s[i..]
  }

  /** The entries of `s` outside `gone`, in order. */
  function Without(s: seq<Id>, gone: set<Id>): (r: seq<Id>)
  {
    if s == [] then []
    else if s[0] in gone then Without(s[1..], gone)
    else [s[0]] + Without(s[1..], gone)
  }

  lemma {:induction false} WithoutMembers(s: seq<Id>, gone: set<Id>)
    ensures forall c :: c in Without(s, gone) <==> c in s && c !in gone
    ensures NoDup(s) ==> NoDup(Without(s, gone))
  {
    if s != [] {
      var x, t := s[0], s[1..];
      assert s == [x] + t;
      WithoutMembers(t, gone);
      var w := Without(t, gone);
      assert forall c :: c in [x] + w <==> c == x || c in w;
      assert forall c :: c in [x] + t <==> c == x || c in t;
      if NoDup(s) {
        TailNoDup(s);
        HeadNotInTail(s);
        assert x !in w && NoDup(w);
        assert NoDup([x] + w);
      }
    }
  }

  lemma HeadNotInTail(s: seq<Id>)
    requires NoDup(s) && s != []
    ensures s[0] !in s[1..]
  {
    assert forall i :: 0 <= i < |s[1..]| ==> s[1..][i] == s[i + 1];
  }

  lemma {:induction false} WithoutConcat(a: seq<Id>, b: seq<Id>, gone: set<Id>)
    ensures Without(a + b, gone) == Without(a, gone) + Without(b, gone)
  {
    if a == [] {
      assert a + b == b;
    } else {
      WithoutConcat(a[1..], b, gone);
      assert (a + b)[1..] == a[1..] + b;
    }
  }

  lemma {:induction false} WithoutNone(s: seq<Id>, gone: set<Id>)
    requires forall c :: c in s ==> c !in gone
    ensures Without(s, gone) == s
  {
    if s != [] {
      assert forall c :: c in s[1..] ==> c in s;
      WithoutNone(s[1..], gone);
      assert s == [s[0]] + s[1..];
    }
  }

  lemma {:induction false} WithoutTwice(s: seq<Id>, a: set<Id>, b: set<Id>)
    ensures Without(Without(s, a), b) == Without(s, a + b)
  {
    if s != [] {
      WithoutTwice(s[1..], a, b);
      if s[0] !in a {
        assert ([s[0]] + Without(s[1..], a))[1..] == Without(s[1..], a);
      }
    }
  }

  lemma {:induction false} DropIsWithout(s: seq<Id>, x: Id)
    requires x in s && NoDup(s)
    ensures Drop(s, x) == Without(s, {x})
  {
    assert s == [s[0]] + s[1..];
    if s[0] == x {
      WithoutNone(s[1..], {x});
    } else {
      TailNoDup(s);
      DropIsWithout(s[1..], x);
    }
  }

  lemma TailNoDup(s: seq<Id>)
    requires NoDup(s) && s != []
    ensures NoDup(s[1..])
  {
    var t := s[1..];
    assert forall i, k :: 0 <= i < k < |t| ==> t[i] == s[i + 1] && t[k] == s[k + 1];
  }

  lemma DropMembers(s: seq<Id>, x: Id)
    requires x in s && NoDup(s)
    ensures forall c :: c in Drop(s, x) <==> c in s && c != x
    ensures NoDup(Drop(s, x)) && |Drop(s, x)| == |s| - 1
  {
    DropIsWithout(s, x);
    WithoutMembers(s, {x});
  }

  lemma InsertMembers(s: seq<Id>, i: nat, x: Id)
    requires i <= |s|
    ensures forall c :: c in Insert(s, i, x) <==> c in s || c == x
    ensures |Insert(s, i, x)| == |s| + 1
  {
    assert s == s[..i] + s[i..];
  }

  lemma InsertNoDup(s: seq<Id>, i: nat, x: Id)
    requires i <= |s| && NoDup(s) && x !in s
    ensures NoDup(Insert(s, i, x))
  {
    var r := Insert(s, i, x);
    forall a, b | 0 <= a < b < |r| ensures r[a] != r[b] {
      var sa := if a < i then a else a - 1;
      var sb := if b < i then b else b - 1;
      assert a != i ==> r[a] == s[sa];
      assert b != i ==> r[b] == s[sb];
    }
  }

  lemma PosOfNth(s: seq<Id>, i: nat)
    requires NoDup(s) && i < |s|
    ensures Pos(s, s[i]) == i
  {
    assert s[Pos(s, s[i])] == s[i];
  }

}
