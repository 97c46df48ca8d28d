/** The flat bookmark document and the two passes over it that do not touch the browser:
    orphan pruning and the topological order in which missing entries are created. */
module Documents {
  import opened Forests
  import opened Positions

  datatype Kind = Bookmark | Folder

  datatype BNode = BNode(title: string, url: Option<string>, parentId: Id, index: int, kind: Kind)

  type Doc = map<Id, BNode>

  /** The canonical roots "0" to "3"; "0" is the virtual root. */
  predicate IsRoot(id: Id) {
    id <= 3
  }

  predicate IsParentRoot(id: Id) {
    1 <= id <= 3
  }

  // ---- Well-formed documents -----------------------------------------------------------

  /** `lev` counts the depth of every entry below the roots. Such a count exists exactly when the
      parent links are acyclic and stay inside the document; parents are folders. */
  ghost predicate Leveled(doc: Doc, lev: map<Id, nat>) {
    lev.Keys == doc.Keys && forall l {:trigger LevelOk(doc, lev, l)} :: l in doc ==> LevelOk(doc, lev, l)
  }

  ghost predicate LevelOk(doc: Doc, lev: map<Id, nat>, l: Id)
    requires l in doc && lev.Keys == doc.Keys
  {
    && !IsRoot(l)
    && if IsParentRoot(doc[l].parentId) then lev[l] == 1
       else doc[l].parentId in doc && doc[doc[l].parentId].url.None? && lev[l] == lev[doc[l].parentId] + 1
  }

  ghost predicate DistinctSiblings(doc: Doc) {
    forall a, b {:trigger doc[a], doc[b]} :: a in doc && b in doc && a != b && doc[a].parentId == doc[b].parentId ==>
      doc[a].index != doc[b].index
  }

  /** Every entry hangs, through folders of the document, below one of the roots "1" to "3". */
  ghost predicate Grounded(doc: Doc) {
    exists lev: map<Id, nat> :: Leveled(doc, lev)
  }

  /** And the order of siblings is determined. */
  ghost predicate ValidDoc(doc: Doc) {
    DistinctSiblings(doc) && Grounded(doc)
  }

  lemma ValidParts(doc: Doc)
    requires ValidDoc(doc)
    ensures DistinctSiblings(doc) && Grounded(doc)
  {}

  // ---- Orphan pruning --------------------------------------------------------------------

  /** In the sub-map with keys `e` every parent is a root, kept, or mapped to a browser node. */
  ghost predicate ParentClosed(d: Doc, mapped: set<Id>, e: set<Id>) {
    e <= d.Keys && forall l :: l in e ==> IsRoot(d[l].parentId) || d[l].parentId in e || d[l].parentId in mapped
  }

  function Restrict(d: Doc, keys: set<Id>): Doc {
    map l | l in d && l in keys :: d[l]
  }

  /** The greatest part of the document in which every parent is a root, kept, or mapped to a browser node. */
  ghost function Pruned(d: Doc, mapped: set<Id>): Doc {
    Restrict(d, set l | l in d && Kept(d, mapped, l))
  }

  ghost predicate Kept(d: Doc, mapped: set<Id>, l: Id) {
    exists e :: ParentClosed(d, mapped, e) && l in e
  }

  /** It is the only one. */
  lemma PrunedIs(d: Doc, mapped: set<Id>, p: Doc)
    requires p == Restrict(d, p.Keys) && ParentClosed(d, mapped, p.Keys)
    requires forall e :: ParentClosed(d, mapped, e) ==> e <= p.Keys
    ensures p == Pruned(d, mapped)
  {
    hide ParentClosed;
    assert p.Keys <= d.Keys by { PartOfDoc(d, p); }
    forall l | l in d ensures l in p <==> Kept(d, mapped, l) {}
    assert (set l | l in d && Kept(d, mapped, l)) == p.Keys;
  }

  lemma PartOfDoc(d: Doc, p: Doc)
    requires p == Restrict(d, p.Keys)
    ensures p.Keys <= d.Keys
  {
    forall l | l in p ensures l in d { assert l in Restrict(d, p.Keys); }
  }

  lemma PrunedClosed(d: Doc, mapped: set<Id>)
    ensures Pruned(d, mapped).Keys <= d.Keys && ParentClosed(d, mapped, Pruned(d, mapped).Keys)
    ensures forall e :: ParentClosed(d, mapped, e) ==> e <= Pruned(d, mapped).Keys
    ensures forall l :: l in Pruned(d, mapped) ==> Pruned(d, mapped)[l] == d[l]
  {
    var p := Pruned(d, mapped);
    forall l | l in p
      ensures IsRoot(d[l].parentId) || d[l].parentId in p || d[l].parentId in mapped
    {
      var e :| ParentClosed(d, mapped, e) && l in e;
      if d[l].parentId in e { assert Kept(d, mapped, d[l].parentId); }
    }
    forall e | ParentClosed(d, mapped, e) ensures e <= p.Keys {
      forall l | l in e ensures l in p { assert Kept(d, mapped, l); }
    }
  }

  /** Of a grounded document nothing is pruned. */
  lemma GroundedWhole(d: Doc, mapped: set<Id>)
    requires Grounded(d)
    ensures Pruned(d, mapped) == d
  {
    GroundedClosed(d, mapped);
    hide Grounded, ParentClosed;
    assert Restrict(d, d.Keys) == d;
    forall e | ParentClosed(d, mapped, e) ensures e <= d.Keys { InsideDoc(d, mapped, e); }
    PrunedIs(d, mapped, d);
  }

  lemma InsideDoc(d: Doc, mapped: set<Id>, e: set<Id>)
    requires ParentClosed(d, mapped, e)
    ensures e <= d.Keys
  {}

  /** What is left of the document once no entry of it is an orphan stays the same for every mapping within it. */
  lemma PrunedStays(d: Doc, mapped: set<Id>, later: set<Id>)
    requires ParentClosed(Pruned(d, mapped), {}, Pruned(d, mapped).Keys) && later <= Pruned(d, mapped).Keys
    ensures Pruned(d, later) == Pruned(d, mapped)
  {
    var p := Pruned(d, mapped);
    PrunedClosed(d, mapped);
    hide Pruned;
    assert ParentClosed(d, later, p.Keys);
    forall e | ParentClosed(d, later, e) ensures e <= p.Keys {
      assert ParentClosed(d, mapped, e + p.Keys);
    }
    assert p == Restrict(d, p.Keys);
    PrunedIs(d, later, p);
  }

  /** Pruning with the mapping of what an earlier pruning left takes away no entry that is grounded on its own. */
  lemma PrunedShrinks(d: Doc, mapped: set<Id>, later: set<Id>)
    requires later <= Pruned(d, mapped).Keys
    ensures Pruned(d, {}).Keys <= Pruned(d, later).Keys <= Pruned(d, mapped).Keys
    ensures Pruned(d, later).Keys == Pruned(d, mapped).Keys ==> Pruned(d, mapped) == Pruned(d, {})
  {
    PrunedClosed(d, mapped);
    PrunedClosed(d, later);
    PrunedClosed(d, {});
    var p, q, core := Pruned(d, mapped), Pruned(d, later), Pruned(d, {});
    hide Pruned;
    assert ParentClosed(d, later, core.Keys);
    assert ParentClosed(d, mapped, q.Keys + p.Keys);
    if q.Keys == p.Keys {
      assert ParentClosed(d, {}, p.Keys);
      assert core.Keys == p.Keys;
    }
  }

  /** Removes orphans until none is left; the result is the greatest parent-closed sub-map,
      whatever the order in which the entries are visited. */
  method PruneOrphans(desired: Doc, mapped: set<Id>) returns (effective: Doc)
    ensures effective == Restrict(desired, effective.Keys)
    ensures ParentClosed(desired, mapped, effective.Keys)
    ensures forall e :: ParentClosed(desired, mapped, e) ==> e <= effective.Keys
    ensures effective == Pruned(desired, mapped)
  {
    effective := desired;
    var foundOrphan := true;
    while foundOrphan
      invariant effective == Restrict(desired, effective.Keys)
      invariant !foundOrphan ==> ParentClosed(desired, mapped, effective.Keys)
      invariant forall e :: ParentClosed(desired, mapped, e) ==> e <= effective.Keys
      decreases |effective.Keys|, if foundOrphan then 1 else 0
    {
      foundOrphan := false;
      ghost var before := effective.Keys;
      var todo := effective.Keys;
      while todo != {}
        invariant todo <= effective.Keys <= before
        invariant effective == Restrict(desired, effective.Keys)
        invariant forall e :: ParentClosed(desired, mapped, e) ==> e <= effective.Keys
        invariant foundOrphan ==> effective.Keys < before
        invariant !foundOrphan ==> effective.Keys == before
        invariant !foundOrphan ==> forall l :: l in effective.Keys - todo ==>
          IsRoot(desired[l].parentId) || desired[l].parentId in effective || desired[l].parentId in mapped
      {
        var l :| l in todo;
        todo := todo - {l};
        var pid := effective[l].parentId;
        if !IsRoot(pid) && pid !in effective && pid !in mapped {
          forall e | ParentClosed(desired, mapped, e) ensures e <= effective.Keys - {l} {
            OrphanOutside(desired, mapped, effective.Keys, e, l);
          }
          effective := effective - {l};
          foundOrphan := true;
        }
      }
      if foundOrphan { ProperSubsetSize(effective.Keys, before); }
    }
    PrunedIs(desired, mapped, effective);
  }

  lemma OrphanOutside(d: Doc, mapped: set<Id>, kept: set<Id>, e: set<Id>, l: Id)
    requires ParentClosed(d, mapped, e) && e <= kept && l in d
    requires !IsRoot(d[l].parentId) && d[l].parentId !in kept && d[l].parentId !in mapped
    ensures e <= kept - {l}
  {}

  lemma {:induction false} ProperSubsetSize(a: set<Id>, b: set<Id>)
    requires a < b
    ensures |a| < |b|
  {
    var x :| x in b && x !in a;
    SubsetSize(a, b - {x});
  }

  lemma {:induction false} SubsetSize(a: set<Id>, b: set<Id>)
    requires a <= b
    ensures |a| <= |b|
  {
    if a != {} {
      var x :| x in a;
      SubsetSize(a - {x}, b - {x});
    }
  }

  /** A grounded document has no orphans to prune. */
  lemma GroundedClosed(doc: Doc, mapped: set<Id>)
    requires Grounded(doc)
    ensures ParentClosed(doc, mapped, doc.Keys)
  {
    var lev: map<Id, nat> :| Leveled(doc, lev);
    assert forall l :: l in doc ==> LevelOk(doc, lev, l);
  }

  // ---- Topological order --------------------------------------------------------------------

  function ParentMap(entries: Doc): map<Id, Id> {
    map l | l in entries :: entries[l].parentId
  }

  /** The parent chain of `l` reaches `initial` through entries. */
  ghost predicate Reaches(entries: Doc, initial: set<Id>, l: Id)
    requires l in entries
  {
    exists n: nat :: Up(ParentMap(entries), entries[l].parentId, n) in initial
  }

  function IndexKey(entries: Doc): map<Id, int> {
    map l | l in entries :: entries[l].index
  }

  /** Emitted entries reach `initial` and come after their parents. */
  ghost predicate EmittedOk(entries: Doc, initial: set<Id>, result: seq<Id>) {
    && NoDup(result)
    && forall i :: 0 <= i < |result| ==>
         && result[i] in entries && Reaches(entries, initial, result[i])
         && (entries[result[i]].parentId in initial || entries[result[i]].parentId in result[..i])
  }

  lemma EmitNext(entries: Doc, initial: set<Id>, result: seq<Id>, l: Id)
    requires EmittedOk(entries, initial, result) && l in entries && l !in result
    requires entries[l].parentId in initial || entries[l].parentId in result
    ensures EmittedOk(entries, initial, result + [l])
  {
    var par, p := ParentMap(entries), entries[l].parentId;
    if p in initial {
      assert Up(par, p, 0) in initial;
    } else {
      var n: nat :| Up(par, entries[p].parentId, n) in initial;
      assert Up(par, p, n + 1) in initial;
    }
    var r := result + [l];
    forall i | 0 <= i < |r|
      ensures r[i] in entries && Reaches(entries, initial, r[i])
      ensures entries[r[i]].parentId in initial || entries[r[i]].parentId in r[..i]
    {
      if i < |result| { assert r[..i] == result[..i]; } else { assert r[..i] == result; }
    }
  }

  /** When a whole round emits nothing, no remaining entry reaches `initial`. */
  lemma {:induction false} StuckUnreachable(entries: Doc, initial: set<Id>, done: set<Id>, p: Id, n: nat)
    requires p !in initial && p !in done
    requires forall l :: l in entries && l !in done ==> entries[l].parentId !in initial && entries[l].parentId !in done
    ensures Up(ParentMap(entries), p, n) !in initial
    decreases n
  {
    if n > 0 {
      var par := ParentMap(entries);
      StuckUnreachable(entries, initial, done, if p in par then par[p] else p, n - 1);
    }
  }

  /** Emitted and remaining entries partition the input. */
  ghost predicate SortInv(entries: Doc, initial: set<Id>, result: seq<Id>, remaining: seq<Id>) {
    && NoDup(remaining) && EmittedOk(entries, initial, result)
    && (forall l :: l in entries <==> l in result || l in remaining)
    && (forall l :: l in remaining ==> l !in result)
  }

  lemma SortStep(entries: Doc, initial: set<Id>, result: seq<Id>, remaining: seq<Id>, l: Id)
    requires SortInv(entries, initial, result, remaining) && l in remaining
    requires l in entries && (entries[l].parentId in initial || entries[l].parentId in result)
    ensures SortInv(entries, initial, result + [l], Drop(remaining, l))
    ensures |Drop(remaining, l)| < |remaining|
    ensures forall c :: c in Drop(remaining, l) <==> c in remaining && c != l
  {
    EmitNext(entries, initial, result, l);
    DropMembers(remaining, l);
  }

  /** Entries whose parent was available from the start come in the order of their indices. */
  ghost predicate FirstSorted(entries: Doc, initial: set<Id>, s: seq<Id>) {
    forall i, k ::
      0 <= i < k < |s| && FromStart(entries, initial, s[i]) && FromStart(entries, initial, s[k]) ==>
        entries[s[i]].index <= entries[s[k]].index
  }

  ghost predicate FromStart(entries: Doc, initial: set<Id>, l: Id) {
    l in entries && entries[l].parentId in initial
  }

  ghost predicate NoneFirst(entries: Doc, initial: set<Id>, s: seq<Id>) {
    forall l :: l in s ==> !FromStart(entries, initial, l)
  }

  /** What the round over `candidates` knows at place `i`. */
  ghost predicate RoundInv(entries: Doc, initial: set<Id>, result: seq<Id>, remaining: seq<Id>, candidates: seq<Id>,
                           i: nat)
    requires i <= |candidates|
  {
    && FirstSorted(entries, initial, result + candidates[i..])
    && forall k :: 0 <= k < i && FromStart(entries, initial, candidates[k]) ==> candidates[k] !in remaining
  }

  lemma RoundStart(entries: Doc, initial: set<Id>, result: seq<Id>, remaining: seq<Id>, candidates: seq<Id>)
    requires FirstSorted(entries, initial, result) && (result == [] || NoneFirst(entries, initial, remaining))
    requires Sorted(candidates, IndexKey(entries)) && forall l :: l in candidates <==> l in remaining
    ensures RoundInv(entries, initial, result, remaining, candidates, 0)
  {
    assert candidates[0..] == candidates;
    var s := result + candidates;
    forall i, k | 0 <= i < k < |s| && FromStart(entries, initial, s[i]) && FromStart(entries, initial, s[k])
      ensures entries[s[i]].index <= entries[s[k]].index
    {
      if k >= |result| {
        assert s[k] == candidates[k - |result|] && s[k] in candidates;
        assert result == [];
      }
    }
  }

  lemma RoundEmit(entries: Doc, initial: set<Id>, result: seq<Id>, remaining: seq<Id>, candidates: seq<Id>, i: nat)
    requires i < |candidates| && RoundInv(entries, initial, result, remaining, candidates, i)
    requires candidates[i] in remaining && NoDup(remaining)
    ensures RoundInv(entries, initial, result + [candidates[i]], Drop(remaining, candidates[i]), candidates, i + 1)
  {
    assert result + candidates[i..] == result + [candidates[i]] + candidates[i + 1..];
    DropMembers(remaining, candidates[i]);
  }

  lemma RoundSkip(entries: Doc, initial: set<Id>, result: seq<Id>, remaining: seq<Id>, candidates: seq<Id>, i: nat)
    requires i < |candidates| && RoundInv(entries, initial, result, remaining, candidates, i)
    requires !FromStart(entries, initial, candidates[i])
    ensures RoundInv(entries, initial, result, remaining, candidates, i + 1)
  {
    var s, t := result + candidates[i..], result + candidates[i + 1..];
    assert forall m :: 0 <= m < |t| ==> t[m] == s[if m < |result| then m else m + 1];
  }

  lemma RoundEnd(entries: Doc, initial: set<Id>, result: seq<Id>, remaining: seq<Id>, candidates: seq<Id>)
    requires RoundInv(entries, initial, result, remaining, candidates, |candidates|)
    requires forall l :: l in remaining ==> l in candidates
    ensures FirstSorted(entries, initial, result) && NoneFirst(entries, initial, remaining)
    ensures FirstSorted(entries, initial, result + remaining)
  {
    assert candidates[|candidates|..] == [] && result + [] == result;
    forall l | l in remaining ensures !FromStart(entries, initial, l) { assert l in candidates; }
    var s := result + remaining;
    forall k | |result| <= k < |s| ensures !FromStart(entries, initial, s[k]) { assert s[k] in remaining; }
  }

  /** What topological sorting promises about its result. */
  ghost predicate TopoSorted(order: seq<Id>, entries: Doc, initial: set<Id>, result: seq<Id>) {
    && NoDup(result) && (forall l :: l in result <==> l in order)
    && (forall i :: 0 <= i < |result| ==> result[i] in entries)
    && (forall i :: 0 <= i < |result| && Reaches(entries, initial, result[i]) ==>
          entries[result[i]].parentId in initial || entries[result[i]].parentId in result[..i])
    && (forall i, k :: 0 <= i < k < |result| && Reaches(entries, initial, result[k]) ==>
          Reaches(entries, initial, result[i]))
    && FirstSorted(entries, initial, result)
  }

  /** `order` lists the keys of `entries` in map order. The result is a permutation of it in which the
      entries that reach `initial` come first, each after its parent, and those whose parent is in `initial` in the
      order of their indices; the others follow. Children of an entry emitted in the same round may overtake each
      other: the one looked at before its parent waits for the next round. */
  method TopoSort(order: seq<Id>, entries: Doc, initial: set<Id>) returns (result: seq<Id>)
    requires NoDup(order) && forall l :: l in order <==> l in entries
    ensures TopoSorted(order, entries, initial, result)
  {
    hide EmittedOk, Reaches, Sorted, SortBy, Drop, TopoSorted, FirstSorted, NoneFirst, RoundInv, SortInv, FromStart;
    var available, remaining := initial, order;
    result := [];
    NothingSorted(order, entries, initial);
    while remaining != []
      invariant SortInv(entries, initial, result, remaining)
      invariant available == initial + SetOf(result) && FirstSorted(entries, initial, result)
      invariant result == [] || NoneFirst(entries, initial, remaining)
      decreases |remaining|
    {
      Partition(entries, initial, result, remaining);
      var progress := false;
      var candidates := SortBy(remaining, IndexKey(entries));
      SortBySorted(remaining, IndexKey(entries));
      ghost var before := remaining;
      RoundStart(entries, initial, result, remaining, candidates);
      var i := 0;
      while i < |candidates|
        invariant 0 <= i <= |candidates|
        invariant SortInv(entries, initial, result, remaining) && forall l :: l in remaining ==> l in candidates
        invariant available == initial + SetOf(result) && RoundInv(entries, initial, result, remaining, candidates, i)
        invariant forall k :: i <= k < |candidates| ==> candidates[k] in remaining
        invariant progress ==> |remaining| < |before|
        invariant !progress ==>
          remaining == before && forall k :: 0 <= k < i ==> entries[candidates[k]].parentId !in available
      {
        Partition(entries, initial, result, remaining);
        var l := candidates[i];
        if entries[l].parentId in available {
          RoundEmit(entries, initial, result, remaining, candidates, i);
          SortStep(entries, initial, result, remaining, l);
          result := result + [l];
          available := available + {l};
          remaining := Drop(remaining, l);
          progress := true;
        } else {
          RoundSkip(entries, initial, result, remaining, candidates, i) by { NotFromStart(entries, initial, l); }
        }
        i := i + 1;
      }
      Partition(entries, initial, result, remaining);
      RoundEnd(entries, initial, result, remaining, candidates);
      if !progress {
        StuckRound(entries, initial, result, remaining, candidates);
        SortDone(order, entries, initial, result, remaining);
        result := result + remaining;
        return;
      }
    }
    assert result + [] == result;
    Partition(entries, initial, result, []);
    SortDone(order, entries, initial, result, []);
  }

  lemma NotFromStart(entries: Doc, initial: set<Id>, l: Id)
    requires l in entries && entries[l].parentId !in initial
    ensures !FromStart(entries, initial, l)
  {}

  lemma NothingSorted(order: seq<Id>, entries: Doc, initial: set<Id>)
    requires NoDup(order) && forall l :: l in order <==> l in entries
    ensures SortInv(entries, initial, [], order) && FirstSorted(entries, initial, [])
    ensures SetOf([]) == {}
  {
    NothingEmitted(entries, initial);
  }

  lemma Partition(entries: Doc, initial: set<Id>, result: seq<Id>, remaining: seq<Id>)
    requires SortInv(entries, initial, result, remaining)
    ensures NoDup(remaining) && forall l :: l in entries <==> l in result || l in remaining
  {
    hide EmittedOk;
  }

  lemma NothingEmitted(entries: Doc, initial: set<Id>)
    ensures EmittedOk(entries, initial, [])
  {}

  lemma SortDone(order: seq<Id>, entries: Doc, initial: set<Id>, result: seq<Id>, rest: seq<Id>)
    requires SortInv(entries, initial, result, rest) && FirstSorted(entries, initial, result + rest)
    requires forall l :: l in order <==> l in entries
    requires forall l :: l in rest ==> l in entries && !Reaches(entries, initial, l)
    ensures TopoSorted(order, entries, initial, result + rest)
  {
    AppendRest(entries, initial, result, rest);
  }

  lemma StuckRound(entries: Doc, initial: set<Id>, result: seq<Id>, remaining: seq<Id>, candidates: seq<Id>)
    requires forall l :: l in entries <==> l in result || l in remaining
    requires forall l :: l in candidates <==> l in remaining
    requires forall k :: 0 <= k < |candidates| ==>
      candidates[k] in entries && entries[candidates[k]].parentId !in initial + SetOf(result)
    ensures forall l :: l in remaining ==> !Reaches(entries, initial, l)
  {
    forall l | l in remaining ensures !Reaches(entries, initial, l) {
      assert l in candidates;
      forall n: nat ensures Up(ParentMap(entries), entries[l].parentId, n) !in initial {
        forall m | m in entries && m !in SetOf(result)
          ensures entries[m].parentId !in initial && entries[m].parentId !in SetOf(result)
        {
          assert m in candidates;
        }
        StuckUnreachable(entries, initial, SetOf(result), entries[l].parentId, n);
      }
    }
  }

  lemma AppendRest(entries: Doc, initial: set<Id>, result: seq<Id>, rest: seq<Id>)
    requires EmittedOk(entries, initial, result) && NoDup(rest)
    requires forall l :: l in rest ==> l in entries && l !in result && !Reaches(entries, initial, l)
    ensures var r := result + rest;
      && NoDup(r)
      && (forall i :: 0 <= i < |r| ==> r[i] in entries)
      && (forall i :: 0 <= i < |r| && Reaches(entries, initial, r[i]) ==>
            entries[r[i]].parentId in initial || entries[r[i]].parentId in r[..i])
      && (forall i, k :: 0 <= i < k < |r| && Reaches(entries, initial, r[k]) ==> Reaches(entries, initial, r[i]))
  {
    var r := result + rest;
    forall i | 0 <= i < |rest|
      ensures r[|result| + i] == rest[i] && !Reaches(entries, initial, rest[i]) && rest[i] in entries
    {
      assert rest[i] in rest;
    }
    forall i | 0 <= i < |r| ensures r[i] in entries && (i < |result| <==> Reaches(entries, initial, r[i])) {
      if i >= |result| { assert r[i] == rest[i - |result|]; }
    }
    forall i | 0 <= i < |result| ensures r[..i] == result[..i] {}
    forall i, k | 0 <= i < k < |r| ensures r[i] != r[k] {
      if i < |result| <= k { assert rest[k - |result|] in rest; }
    }
  }

  // ---- Well-formed documents in terms of parent chains -------------------------------------------

  /** Keys are not root ids; parents are the roots "1" to "3" or folders of the document. */
  ghost predicate ParentsOk(doc: Doc) {
    forall l {:trigger doc[l]} :: l in doc ==>
      !IsRoot(l) && (IsParentRoot(doc[l].parentId) || (doc[l].parentId in doc && doc[doc[l].parentId].url.None?))
  }

  /** The parent chain of `l` arrives at one of the roots "1" to "3". */
  ghost predicate ReachesRoot(doc: Doc, l: Id) {
    exists n: nat :: IsParentRoot(Up(ParentMap(doc), l, n))
  }

  lemma LeveledFrom(doc: Doc, lev: map<Id, nat>)
    requires lev.Keys == doc.Keys && forall l :: l in doc ==> LevelOk(doc, lev, l)
    ensures Leveled(doc, lev)
  {}

  ghost function Distance(par: map<Id, Id>, l: Id, n: nat): nat
    requires IsParentRoot(Up(par, l, n))
    decreases n
  {
    if IsParentRoot(l) || n == 0 then 0 else Distance(par, if l in par then par[l] else l, n - 1) + 1
  }

  lemma {:induction false} DistanceUnique(par: map<Id, Id>, l: Id, n: nat, m: nat)
    requires IsParentRoot(Up(par, l, n)) && IsParentRoot(Up(par, l, m))
    ensures Distance(par, l, n) == Distance(par, l, m)
    decreases n
  {
    if n > 0 && m > 0 && !IsParentRoot(l) { DistanceUnique(par, if l in par then par[l] else l, n - 1, m - 1); }
  }

  ghost function ToRoot(doc: Doc, l: Id): nat
    requires ReachesRoot(doc, l)
  {
    var n: nat :| IsParentRoot(Up(ParentMap(doc), l, n));
    Distance(ParentMap(doc), l, n)
  }

  lemma RootedLevel(doc: Doc, lev: map<Id, nat>, l: Id)
    requires ParentsOk(doc) && (forall k :: k in doc ==> ReachesRoot(doc, k)) && l in doc
    requires lev.Keys == doc.Keys && forall k :: k in doc ==> lev[k] == ToRoot(doc, k)
    ensures LevelOk(doc, lev, l)
  {
    var par, p := ParentMap(doc), doc[l].parentId;
    var n: nat :| IsParentRoot(Up(par, l, n)) && ToRoot(doc, l) == Distance(par, l, n);
    assert n > 0 && Up(par, p, n - 1) == Up(par, l, n);
    if IsParentRoot(p) {
      DistanceUnique(par, l, n, 1) by { assert Up(par, p, 0) == p; }
    } else {
      var m: nat :| IsParentRoot(Up(par, p, m)) && ToRoot(doc, p) == Distance(par, p, m);
      DistanceUnique(par, p, n - 1, m);
      assert Distance(par, l, n) == Distance(par, p, n - 1) + 1;
      assert lev[p] == ToRoot(doc, p);
    }
  }

  lemma {:induction false} LevelRooted(doc: Doc, lev: map<Id, nat>, l: Id)
    requires Leveled(doc, lev) && l in doc
    ensures ReachesRoot(doc, l)
    decreases lev[l]
  {
    var par, p := ParentMap(doc), doc[l].parentId;
    assert LevelOk(doc, lev, l);
    if IsParentRoot(p) {
      assert Up(par, l, 1) == Up(par, p, 0) == p;
    } else {
      LevelRooted(doc, lev, p);
      var n: nat :| IsParentRoot(Up(par, p, n));
      assert Up(par, l, n + 1) == Up(par, p, n);
    }
  }

  lemma GroundedIff(doc: Doc)
    ensures Grounded(doc) <==> ParentsOk(doc) && forall l :: l in doc ==> ReachesRoot(doc, l)
  {
    hide ReachesRoot;
    if Grounded(doc) {
      var lev: map<Id, nat> :| Leveled(doc, lev);
      forall l | l in doc ensures ReachesRoot(doc, l) { LevelRooted(doc, lev, l); }
      assert forall l :: l in doc ==> LevelOk(doc, lev, l);
    }
    if ParentsOk(doc) && forall l :: l in doc ==> ReachesRoot(doc, l) {
      var lev: map<Id, nat> := map l | l in doc :: ToRoot(doc, l);
      forall l | l in doc ensures LevelOk(doc, lev, l) { RootedLevel(doc, lev, l); }
      LeveledFrom(doc, lev);
    }
  }

  /** A document is well-formed exactly when siblings have distinct indices, parents are roots or folders
      of the document, and every parent chain arrives at a root, so that there is no cycle. */
  lemma ValidDocIff(doc: Doc)
    ensures ValidDoc(doc) <==>
      DistinctSiblings(doc) && ParentsOk(doc) && forall l :: l in doc ==> ReachesRoot(doc, l)
  {
    hide ReachesRoot, Grounded;
    GroundedIff(doc);
  }
}
