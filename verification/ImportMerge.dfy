/** Importing a browser's bookmarks into a document that already has entries: the walk as steps on values. */
module ImportMerge {
  import opened Forests
  import opened Positions
  import opened Documents
  import opened RootTables
  import opened ManagedTree
  import opened BridgeSpec
  import opened CreatePhase
  import opened Capture
  import opened LocalMerge

  function Urls(doc: Doc): set<string> {
    set l | l in doc && doc[l].url.Some? :: doc[l].url.value
  }

  ghost predicate HasUrl(doc: Doc, url: string) {
    exists l :: l in doc && doc[l].url == Some(url)
  }

  lemma UrlListed(doc: Doc, url: string)
    ensures url in Urls(doc) <==> HasUrl(doc, url)
  {
    if HasUrl(doc, url) {
      var l :| l in doc && doc[l].url == Some(url);
      assert doc[l].url.value == url;
    }
    if url in Urls(doc) {
      var l :| l in doc && doc[l].url.Some? && doc[l].url.value == url;
      assert doc[l].url == Some(url);
    }
  }

  /** The URLs of the managed bookmarks. */
  ghost function BrowserUrls(m: set<Id>, f: Forest): set<string> {
    set c | c in m && c in f.info && f.info[c].url.Some? :: f.info[c].url.value
  }

  /** Every URL of the bookmarks among `m` is in the document. */
  ghost predicate UrlsKept(m: set<Id>, f: Forest, d: Doc) {
    forall c :: c in m && c in f.info && f.info[c].url.Some? ==> HasUrl(d, f.info[c].url.value)
  }

  // ---- Append positions --------------------------------------------------------------------------

  function MaxOf(max: map<Id, int>, p: Id): int {
    if p in max then max[p] else -1
  }

  /** The position at which the next imported child of `p` is appended. */
  function NextOf(max: map<Id, int>, next: map<Id, int>, p: Id): int {
    if p in next then next[p] else MaxOf(max, p) + 1
  }

  ghost predicate MaxOk(server: Doc, max: map<Id, int>) {
    && (forall l {:trigger server[l]} :: l in server ==> server[l].index <= MaxOf(max, server[l].parentId))
    && forall p :: p in max ==> exists l :: l in server && server[l].parentId == p && server[l].index == max[p]
  }

  /** The greatest index used below each parent. */
  method MaxIndices(server: Doc) returns (max: map<Id, int>)
    ensures MaxOk(server, max)
  {
    max := map[];
    var todo := server.Keys;
    while todo != {}
      invariant todo <= server.Keys
      invariant forall l :: l in server && l !in todo ==> server[l].index <= MaxOf(max, server[l].parentId)
      invariant forall p :: p in max ==> exists l :: l in server && server[l].parentId == p && server[l].index == max[p]
    {
      var l :| l in todo;
      todo := todo - {l};
      var node := server[l];
      if node.index > MaxOf(max, node.parentId) { max := max[node.parentId := node.index]; }
    }
  }

  // ---- What the walk keeps ---------------------------------------------------------------------------

  /** Server entries and earlier pairs stay; what is new in the document is new in the mapping. */
  ghost predicate ImportFrame(server: Doc, v0: View, d: Doc, v: View) {
    && v.f == v0.f && Linked(v.l2c, v.c2l)
    && (forall l {:trigger l in server} {:trigger d[l]} :: l in server ==> l in d && d[l] == server[l])
    && (forall l {:trigger l in v0.l2c} {:trigger v.l2c[l]} :: l in v0.l2c ==> l in v.l2c && v.l2c[l] == v0.l2c[l])
    && v.l2c.Keys <= v0.l2c.Keys + d.Keys
    && d.Keys <= server.Keys + v.l2c.Keys
  }

  /** An imported entry describes its node; its index is an append position. */
  ghost predicate ImportedEntry(r: Roots, d: Doc, v: View, l: Id) {
    && l in d && l in v.l2c && Listable(v.f, v.l2c[l]) && ParentSettled(r, v.f, v.c2l, v.l2c[l])
    && var i := v.f.info[v.l2c[l]];
       var kind := if i.url.Some? then Bookmark else Folder;
       d[l] == BNode(i.title, i.url, Canon(r, v.c2l, v.f.par[v.l2c[l]]), d[l].index, kind)
  }

  ghost predicate ImportedAll(r: Roots, server: Doc, d: Doc, v: View) {
    forall l {:trigger d[l]} :: l in d && l !in server ==> ImportedEntry(r, d, v, l)
  }

  ghost predicate Taken(d: Doc, p: Id, index: int) {
    exists l :: l in d && d[l].parentId == p && d[l].index == index
  }

  /** No position is left out. */
  ghost predicate Packed(server: Doc, d: Doc) {
    forall l {:trigger d[l]} :: l in d && l !in server ==> d[l].index == 0 || Taken(d, d[l].parentId, d[l].index - 1)
  }

  ghost predicate Packing(d: Doc, max: map<Id, int>, next: map<Id, int>) {
    forall p :: NextOf(max, next, p) == 0 || Taken(d, p, NextOf(max, next, p) - 1)
  }

  lemma PackingStart(server: Doc, max: map<Id, int>)
    requires MaxOk(server, max)
    ensures Packing(server, max, map[]) && Packed(server, server)
  {}

  lemma PackingMore(server: Doc, d: Doc, max: map<Id, int>, next: map<Id, int>, l: Id, n: BNode)
    requires Packed(server, d) && Packing(d, max, next) && l !in d && n.index == NextOf(max, next, n.parentId)
    ensures Packed(server, d[l := n]) && Packing(d[l := n], max, next[n.parentId := n.index + 1])
  {
    hide NextOf;
    var e, next' := d[l := n], next[n.parentId := n.index + 1];
    forall p, i | Taken(d, p, i) ensures Taken(e, p, i) {
      var k :| k in d && d[k].parentId == p && d[k].index == i;
      assert e[k] == d[k];
    }
    assert e[l] == n;
    forall p ensures NextOf(max, next', p) == 0 || Taken(e, p, NextOf(max, next', p) - 1) {
      NextUpdated(max, next, n.parentId, n.index + 1, p);
      if p == n.parentId { assert Taken(e, p, n.index); }
    }
    forall k | k in e && k !in server ensures e[k].index == 0 || Taken(e, e[k].parentId, e[k].index - 1) {
      if k != l { assert e[k] == d[k]; }
    }
  }

  lemma NextUpdated(max: map<Id, int>, next: map<Id, int>, p: Id, i: int, q: Id)
    ensures NextOf(max, next[p := i], q) == if q == p then i else NextOf(max, next, q)
  {}

  /** Imported entries come after all earlier siblings, without a gap. */
  ghost predicate Appending(server: Doc, d: Doc, max: map<Id, int>, next: map<Id, int>) {
    Packed(server, d) && Packing(d, max, next) && Behind(server, d, max, next)
  }

  ghost predicate Behind(server: Doc, d: Doc, max: map<Id, int>, next: map<Id, int>) {
    && (forall l {:trigger d[l]} :: l in d ==> d[l].index < NextOf(max, next, d[l].parentId))
    && forall a, b {:trigger d[a], d[b]} ::
         a in d && b in d && a != b && d[a].parentId == d[b].parentId && a !in server ==>
           d[a].index != d[b].index && (b in server ==> d[b].index < d[a].index)
  }

  /** A server folder taken over for a browser folder with the same title in the same place. */
  ghost predicate Claim(r: Roots, server: Doc, v: View, l: Id) {
    && l in server && server[l].kind == Folder && l in v.l2c && Listable(v.f, v.l2c[l])
         && ParentSettled(r, v.f, v.c2l, v.l2c[l])
    && v.f.info[v.l2c[l]] == Info(server[l].title, None)
    && server[l].parentId == Canon(r, v.c2l, v.f.par[v.l2c[l]])
  }

  ghost predicate Claims(r: Roots, excluding: bool, server: Doc, v0: View, v: View) {
    forall l {:trigger v.l2c[l]} :: l in v.l2c && l in server && l !in v0.l2c ==> excluding && Claim(r, server, v, l)
  }

  /** What `l` was imported for was not there: no server entry has its URL, and every server folder of its
      title in its place is taken. */
  ghost predicate NotThere(server: Doc, v: View, n: BNode) {
    if n.url.Some? then !HasUrl(server, n.url.value)
    else
      forall k {:trigger server[k]} ::
        k in server && server[k].kind == Folder && server[k].title == n.title && server[k].parentId == n.parentId ==>
          k in v.l2c
  }

  ghost predicate Reused(excluding: bool, server: Doc, d: Doc, v: View) {
    excluding ==> forall l {:trigger d[l]} :: l in d && l !in server ==> NotThere(server, v, d[l])
  }

  /** New entries belong to visited nodes. */
  ghost predicate NewSeen(server: Doc, d: Doc, v: View, seen: set<Id>) {
    forall l {:trigger d[l]} :: l in d && l !in server ==> l in v.l2c && v.l2c[l] in seen
  }

  /** Imported siblings keep the browser's order. */
  ghost predicate OrderKept(server: Doc, d: Doc, v: View) {
    forall a, b {:trigger d[a], d[b]} ::
      (a in d && b in d && a !in server && b !in server && a in v.l2c && b in v.l2c && Siblings(v.f, v.l2c[a], v.l2c[b])
        && Before(v.f, v.l2c[a], v.l2c[b])) ==>
        d[a].index < d[b].index
  }

  ghost predicate Duplicate(excluding: bool, server: Doc, f: Forest, c: Id) {
    excluding && c in f.info && f.info[c].url.Some? && HasUrl(server, f.info[c].url.value)
  }

  ghost predicate Visited(excluding: bool, server: Doc, v: View, seen: set<Id>) {
    forall c :: c in seen ==> c in v.c2l || Duplicate(excluding, server, v.f, c)
  }

  /** A document whose kinds are as the code writes them and that the browser can show. */
  ghost predicate Showable(r: Roots, doc: Doc, f: Forest) {
    KindsSane(doc) && Grounded(doc) && RootsAvailable(r, doc, f)
  }

  /** The document stays one that can be reconciled. */
  ghost predicate Healthy(r: Roots, d: Doc, v: View) {
    Grounded(d) && RootsAvailable(r, d, v.f) && KindsMatch(d, v) && v.l2c.Keys <= d.Keys
  }

  ghost predicate ImportInv(r: Roots, excluding: bool, server: Doc, v0: View, max: map<Id, int>, next: map<Id, int>,
                            d: Doc, v: View, seen: set<Id>) {
    && ImportFrame(server, v0, d, v) && ImportedAll(r, server, d, v) && Appending(server, d, max, next)
    && Claims(r, excluding, server, v0, v) && Reused(excluding, server, d, v) && Visited(excluding, server, v, seen)
    && NewSeen(server, d, v, seen) && OrderKept(server, d, v)
    && (v0.l2c == map[] && Showable(r, server, v.f) ==> Healthy(r, d, v))
  }

  lemma ImportStart(r: Roots, excluding: bool, server: Doc, v0: View, max: map<Id, int>)
    requires Linked(v0.l2c, v0.c2l) && MaxOk(server, max)
    requires v0.l2c.Keys <= v0.l2c.Keys + server.Keys
    ensures ImportInv(r, excluding, server, v0, max, map[], server, v0, {})
  {
    PackingStart(server, max);
    hide Grounded, KindsSane, Packed, Packing;
  }

  // ---- One visited node ------------------------------------------------------------------------------

  lemma ImportSettled(r: Roots, excluding: bool, server: Doc, v: View, visit: seq<Id>, i: nat)
    requires WF(v.f) && RootsOk(r, v.f) && ParentsFirst(v.f, Containers(r, v.f), visit) && i < |visit|
    requires Visited(excluding, server, v, SetOf(visit[..i]))
    ensures Listable(v.f, visit[i]) && ParentSettled(r, v.f, v.c2l, visit[i])
  {
    hide Acyclic;
    var c := visit[i];
    ListableNode(v.f, c);
    assert c in v.f.par && (v.f.par[c] in Containers(r, v.f) || v.f.par[c] in visit[..i]);
    if v.f.par[c] !in Containers(r, v.f) {
      assert v.f.par[c] in SetOf(visit[..i]);
      assert v.f.par[c] in v.f.info ==> v.f.info[v.f.par[c]].url.None?;
    }
  }

  lemma ImportKnown(r: Roots, excluding: bool, server: Doc, v0: View, max: map<Id, int>, next: map<Id, int>, d: Doc,
                    v: View, seen: set<Id>, c: Id)
    requires ImportInv(r, excluding, server, v0, max, next, d, v, seen)
    requires c in v.c2l || Duplicate(excluding, server, v.f, c)
    ensures ImportInv(r, excluding, server, v0, max, next, d, v, seen + {c})
  {
    hide ImportFrame, ImportedAll, Appending, Claims, Healthy, Duplicate, KindsSane, Grounded, RootsAvailable,
         OrderKept, Reused;
  }

  /** Adding a pair keeps what was said of the earlier ones. */
  lemma PairFrame(r: Roots, server: Doc, v0: View, d: Doc, v: View, c: Id, l: Id, e: Doc)
    requires ImportFrame(server, v0, d, v) && c !in v.c2l && l !in v.l2c && !IsRoot(l)
    requires (e == d && l in d) || (l !in d && l !in server && l in e && e == d[l := e[l]])
    ensures ImportFrame(server, v0, e, View(v.f, v.l2c[l := c], v.c2l[c := l]))
  {
    AddedLinked(v.l2c, v.c2l, l, c);
    hide Linked;
    assert e.Keys == d.Keys + {l};
    assert v.l2c[l := c].Keys == v.l2c.Keys + {l};
  }

  lemma EntryStays(r: Roots, d: Doc, v: View, e: Doc, w: View, k: Id)
    requires ImportedEntry(r, d, v, k) && k in e && e[k] == d[k] && w.f == v.f && k in w.l2c && w.l2c[k] == v.l2c[k]
    requires forall c :: c in v.c2l ==> c in w.c2l && w.c2l[c] == v.c2l[c]
    ensures ImportedEntry(r, e, w, k)
  {
    ToNodeStable(r, v.f, v.c2l, w.c2l, v.l2c[k]);
  }

  lemma ImportedStay(r: Roots, server: Doc, d: Doc, v: View, c: Id, l: Id, e: Doc)
    requires ImportedAll(r, server, d, v) && c !in v.c2l && l !in v.l2c
    requires forall k :: k in e && k !in server ==>
      (k in d && e[k] == d[k]) || ImportedEntry(r, e, View(v.f, v.l2c[l := c], v.c2l[c := l]), k)
    ensures ImportedAll(r, server, e, View(v.f, v.l2c[l := c], v.c2l[c := l]))
  {
    var w := View(v.f, v.l2c[l := c], v.c2l[c := l]);
    forall k | k in e && k !in server ensures ImportedEntry(r, e, w, k) {
      if k in d && e[k] == d[k] {
        assert ImportedEntry(r, d, v, k);
        EntryStays(r, d, v, e, w, k);
      }
    }
  }

  lemma ClaimStays(r: Roots, server: Doc, v: View, w: View, k: Id)
    requires Claim(r, server, v, k) && w.f == v.f && k in w.l2c && w.l2c[k] == v.l2c[k]
    requires forall c :: c in v.c2l ==> c in w.c2l && w.c2l[c] == v.c2l[c]
    ensures Claim(r, server, w, k)
  {}

  lemma ClaimsStay(r: Roots, excluding: bool, server: Doc, v0: View, v: View, c: Id, l: Id)
    requires Claims(r, excluding, server, v0, v) && c !in v.c2l && l !in v.l2c
    requires l in server ==> excluding && Claim(r, server, View(v.f, v.l2c[l := c], v.c2l[c := l]), l)
    ensures Claims(r, excluding, server, v0, View(v.f, v.l2c[l := c], v.c2l[c := l]))
  {
    hide Claim;
    var w := View(v.f, v.l2c[l := c], v.c2l[c := l]);
    forall k | k in w.l2c && k in server && k !in v0.l2c ensures excluding && Claim(r, server, w, k) {
      if k != l {
        assert w.l2c[k] == v.l2c[k];
        ClaimStays(r, server, v, w, k);
      }
    }
  }

  lemma ReusedMore(excluding: bool, server: Doc, d: Doc, v: View, e: Doc, w: View)
    requires Reused(excluding, server, d, v) && v.l2c.Keys <= w.l2c.Keys
    requires excluding ==> forall l :: l in e && l !in server ==> (l in d && e[l] == d[l]) || NotThere(server, w, e[l])
    ensures Reused(excluding, server, e, w)
  {
    if excluding {
      forall l | l in e && l !in server ensures NotThere(server, w, e[l]) {
        if l in d && e[l] == d[l] { assert NotThere(server, v, d[l]); }
      }
    }
  }

  lemma OrderSame(server: Doc, d: Doc, v: View, w: View, seen: set<Id>, c: Id)
    requires NewSeen(server, d, v, seen) && OrderKept(server, d, v)
    requires w.f == v.f && forall l :: l in v.l2c ==> l in w.l2c && w.l2c[l] == v.l2c[l]
    ensures NewSeen(server, d, w, seen + {c}) && OrderKept(server, d, w)
  {
    hide Siblings, Before;
    forall l | l in d && l !in server
      ensures l in v.l2c && w.l2c[l] == v.l2c[l] && v.l2c[l] in seen
    {
      assert d[l] == d[l];
    }
  }

  lemma OneWay(f: Forest, x: Id, c: Id)
    requires Siblings(f, c, x) && (x == c || Before(f, x, c))
    ensures !Before(f, c, x)
  {}

  lemma SameParentId(r: Roots, d: Doc, v: View, a: Id, c: Id, n: BNode)
    requires ImportedEntry(r, d, v, a) && Siblings(v.f, v.l2c[a], c) && Listable(v.f, c)
    requires n == ToNode(r, v.f, v.c2l, c).(index := n.index)
    ensures d[a].parentId == n.parentId
  {
    hide Canon;
  }

  /** The next node stands behind its visited siblings, and its entry behind theirs. */
  lemma OrderMore(r: Roots, server: Doc, d: Doc, v: View, seen: set<Id>, c: Id, l: Id, n: BNode)
    requires NewSeen(server, d, v, seen) && OrderKept(server, d, v) && ImportedAll(r, server, d, v) && Listable(v.f, c)
    requires l !in d && l !in server && l !in v.l2c && n == ToNode(r, v.f, v.c2l, c).(index := n.index)
    requires (forall x :: x in seen ==> Before(v.f, x, c)) && forall k :: k in d && d[k].parentId == n.parentId ==>
      d[k].index < n.index
    ensures var w := View(v.f, v.l2c[l := c], v.c2l[c := l]);
      NewSeen(server, d[l := n], w, seen + {c}) && OrderKept(server, d[l := n], w)
  {
    hide Before, Siblings, ImportedEntry, ToNode, Listable;
    var w, e := View(v.f, v.l2c[l := c], v.c2l[c := l]), d[l := n];
    forall k | k in d && k !in server
      ensures k in v.l2c && v.l2c[k] in seen && ImportedEntry(r, d, v, k)
    {
      assert d[k] == d[k];
    }
    forall a, b | a in e && b in e && a !in server && b !in server && a in w.l2c && b in w.l2c
        && Siblings(v.f, w.l2c[a], w.l2c[b]) && Before(v.f, w.l2c[a], w.l2c[b])
      ensures e[a].index < e[b].index
    {
      if a == l {
        OneWay(v.f, w.l2c[b], c);
      } else if b == l {
        SameParentId(r, d, v, a, c, n);
      } else {
        assert d[a].index < d[b].index;
      }
    }
  }

  lemma VisitedMore(excluding: bool, server: Doc, v: View, w: View, seen: set<Id>, c: Id)
    requires Visited(excluding, server, v, seen) && w.f == v.f && v.c2l.Keys + {c} <= w.c2l.Keys
    ensures Visited(excluding, server, w, seen + {c})
  {
    hide Duplicate;
  }

  lemma HealthyClaim(r: Roots, d: Doc, v: View, c: Id, l: Id)
    requires Healthy(r, d, v) && l in d && l !in v.l2c && d[l].url.None? && c in v.f.info && v.f.info[c].url.None?
    ensures Healthy(r, d, View(v.f, v.l2c[l := c], v.c2l[c := l]))
  {
    hide Grounded;
  }

  /** A server folder with the node's title and parent is taken over instead of a new entry. */
  lemma ImportClaim(r: Roots, excluding: bool, server: Doc, v0: View, max: map<Id, int>, next: map<Id, int>, d: Doc,
                    v: View, seen: set<Id>, c: Id, l: Id)
    requires ImportInv(r, excluding, server, v0, max, next, d, v, seen)
    requires excluding && c !in v.c2l && Listable(v.f, c) && ParentSettled(r, v.f, v.c2l, c) && v.f.info[c].url.None?
    requires l in server && l !in v.l2c && !IsRoot(l) && server[l].kind == Folder
    requires server[l].title == v.f.info[c].title
    requires server[l].parentId == Canon(r, v.c2l, v.f.par[c])
    ensures ImportInv(r, excluding, server, v0, max, next, d, View(v.f, v.l2c[l := c], v.c2l[c := l]), seen + {c})
  {
    hide ImportFrame, ImportedEntry, ImportedAll, Appending, Claims, Healthy, KindsSane, Grounded, RootsAvailable,
         Visited, Claim, Reused, NewSeen, OrderKept, Canon, ParentSettled, Linked;
    var w := View(v.f, v.l2c[l := c], v.c2l[c := l]);
    ClaimNow(r, server, v, c, l);
    FrameOf(r, excluding, server, v0, max, next, d, v, seen);
    PairFrame(r, server, v0, d, v, c, l, d);
    if Healthy(r, d, v) && KindsSane(server) {
      SaneFolder(server, l);
      ListableHas(v.f, c);
      HealthyClaim(r, d, v, c, l);
    }
    hide Listable;
    ImportedStay(r, server, d, v, c, l, d);
    ReusedMore(excluding, server, d, v, d, w);
    OrderSame(server, d, v, w, seen, c);
    ClaimsStay(r, excluding, server, v0, v, c, l);
    VisitedMore(excluding, server, v, w, seen, c);
  }

  lemma SaneFolder(server: Doc, l: Id)
    requires KindsSane(server) && l in server && server[l].kind == Folder
    ensures server[l].url.None?
  {
    assert KindSane(server[l]);
  }

  lemma ClaimNow(r: Roots, server: Doc, v: View, c: Id, l: Id)
    requires c !in v.c2l && Listable(v.f, c) && ParentSettled(r, v.f, v.c2l, c) && v.f.info[c].url.None?
    requires l in server && l !in v.l2c && server[l].kind == Folder && server[l].title == v.f.info[c].title
    requires server[l].parentId == Canon(r, v.c2l, v.f.par[c])
    ensures Claim(r, server, View(v.f, v.l2c[l := c], v.c2l[c := l]), l)
  {}

  // ---- A new entry -----------------------------------------------------------------------------------

  lemma AppendingMore(server: Doc, d: Doc, max: map<Id, int>, next: map<Id, int>, l: Id, n: BNode)
    requires Appending(server, d, max, next) && l !in d && l !in server && n.index == NextOf(max, next, n.parentId)
    requires forall k :: k in server ==> k in d
    ensures Appending(server, d[l := n], max, next[n.parentId := n.index + 1])
  {
    hide Packed, Packing, Behind, NextOf;
    PackingMore(server, d, max, next, l, n);
    BehindMore(server, d, max, next, l, n);
  }

  lemma BehindMore(server: Doc, d: Doc, max: map<Id, int>, next: map<Id, int>, l: Id, n: BNode)
    requires Behind(server, d, max, next) && l !in d && l !in server && n.index == NextOf(max, next, n.parentId)
    requires forall k :: k in server ==> k in d
    ensures Behind(server, d[l := n], max, next[n.parentId := n.index + 1])
  {
    var e := d[l := n];
    forall a, b | a in e && b in e && a != b && e[a].parentId == e[b].parentId && a !in server
      ensures e[a].index != e[b].index && (b in server ==> e[b].index < e[a].index)
    {
      if a != l && b != l { assert d[a] == e[a] && d[b] == e[b]; }
      if a == l { assert d[b] == e[b]; }
      if b == l { assert d[a] == e[a]; }
    }
  }

  lemma HealthyNew(r: Roots, d: Doc, v: View, c: Id, l: Id, n: BNode)
    requires WF(v.f) && RootsOk(r, v.f) && Linked(v.l2c, v.c2l) && Healthy(r, d, v)
    requires Listable(v.f, c) && (v.f.par[c] in Containers(r, v.f) || v.f.par[c] in v.c2l) && v.f.par[c] in v.f.par
    requires l !in d && !IsRoot(l) && n == ToNode(r, v.f, v.c2l, c).(index := n.index)
    ensures Healthy(r, d[l := n], View(v.f, v.l2c[l := c], v.c2l[c := l]))
  {
    hide Grounded, WF, RootsOk, Linked, Canon, KindsMatch, RootsAvailable, Containers;
    NewParent(r, d, v, c);
    assert n.url == v.f.info[c].url && n.parentId == Canon(r, v.c2l, v.f.par[c]);
    EntryGrounded(d, l, n);
    KindsAdded(d, v, c, l, n);
    RootsAdded(r, d, v.f, l, n);
  }

  lemma RootsAdded(r: Roots, d: Doc, f: Forest, l: Id, n: BNode)
    requires RootsAvailable(r, d, f)
    requires IsParentRoot(n.parentId) ==> n.parentId in r.toNative && r.toNative[n.parentId] in f.par
    ensures RootsAvailable(r, d[l := n], f)
  {}

  lemma KindsAdded(d: Doc, v: View, c: Id, l: Id, n: BNode)
    requires KindsMatch(d, v) && v.l2c.Keys <= d.Keys && l !in d && c in v.f.info && n.url == v.f.info[c].url
    ensures KindsMatch(d[l := n], View(v.f, v.l2c[l := c], v.c2l[c := l]))
  {}

  /** The translated parent of an imported node is a root the browser has or a folder of the document. */
  lemma NewParent(r: Roots, d: Doc, v: View, c: Id)
    requires WF(v.f) && RootsOk(r, v.f) && Linked(v.l2c, v.c2l) && KindsMatch(d, v) && v.l2c.Keys <= d.Keys
    requires Listable(v.f, c) && (v.f.par[c] in Containers(r, v.f) || v.f.par[c] in v.c2l) && v.f.par[c] in v.f.par
    ensures var q := Canon(r, v.c2l, v.f.par[c]);
      if IsParentRoot(q) then q in r.toNative && r.toNative[q] in v.f.par else q in d && d[q].url.None?
  {
    var p := v.f.par[c];
    hide Acyclic, Listed;
    if p in Containers(r, v.f) {
      assert v.f.par[p] == v.f.top;
    } else {
      assert v.l2c[v.c2l[p]] == p;
    }
  }

  lemma EntryGrounded(d: Doc, l: Id, n: BNode)
    requires Grounded(d) && l !in d && !IsRoot(l)
    requires IsParentRoot(n.parentId) || (n.parentId in d && d[n.parentId].url.None?)
    ensures Grounded(d[l := n])
  {
    var lev: map<Id, nat> :| Leveled(d, lev);
    var e := d[l := n];
    var lev' := lev[l := if IsParentRoot(n.parentId) then 1 else lev[n.parentId] + 1];
    forall k | k in e ensures LevelOk(e, lev', k) {
      if k != l { assert LevelOk(d, lev, k); }
    }
    assert Leveled(e, lev');
  }

  /** Where the server's siblings have distinct indices, so have all. */
  lemma DistinctKept(server: Doc, d: Doc)
    requires AppendedBehind(server, d) && DistinctSiblings(server)
    requires forall l :: l in server ==> l in d && d[l] == server[l]
    ensures DistinctSiblings(d)
  {
    forall a, b | a in d && b in d && a != b && d[a].parentId == d[b].parentId ensures d[a].index != d[b].index {
      if a in server && b in server { assert server[a] == d[a] && server[b] == d[b]; }
    }
  }

  lemma EntryNow(r: Roots, d: Doc, v: View, c: Id, l: Id, n: BNode)
    requires c !in v.c2l && Listable(v.f, c) && ParentSettled(r, v.f, v.c2l, c)
    requires n == ToNode(r, v.f, v.c2l, c).(index := n.index)
    ensures ImportedEntry(r, d[l := n], View(v.f, v.l2c[l := c], v.c2l[c := l]), l)
  {
    ToNodeStable(r, v.f, v.c2l, v.c2l[c := l], c);
  }

  /** Otherwise the node gets a new entry behind all its siblings in the document. */
  lemma ImportNew(r: Roots, excluding: bool, server: Doc, v0: View, max: map<Id, int>, next: map<Id, int>, d: Doc,
                  v: View, seen: set<Id>, c: Id, l: Id, n: BNode)
    requires WF(v.f) && RootsOk(r, v.f) && ImportInv(r, excluding, server, v0, max, next, d, v, seen)
    requires c !in v.c2l && Listable(v.f, c) && ParentSettled(r, v.f, v.c2l, c)
    requires (v.f.par[c] in Containers(r, v.f) || v.f.par[c] in v.c2l) && v.f.par[c] in v.f.par
    requires l !in d && l !in v.l2c && !IsRoot(l)
    requires n == ToNode(r, v.f, v.c2l, c).(index := NextOf(max, next, n.parentId))
    requires excluding ==> NotThere(server, v, n)
    requires forall x :: x in seen ==> Before(v.f, x, c)
    ensures ImportInv(r, excluding, server, v0, max, next[n.parentId := n.index + 1], d[l := n],
      View(v.f, v.l2c[l := c], v.c2l[c := l]), seen + {c})
  {
    var w, e := View(v.f, v.l2c[l := c], v.c2l[c := l]), d[l := n];
    hide WF, RootsOk, ImportedEntry, Appending, Claims, Healthy, KindsSane, Grounded, RootsAvailable, Visited, Claim,
         ToNode, Listable, ParentSettled, NextOf, Containers;
    assert l !in server && v.f == v0.f && Linked(v.l2c, v.c2l) && forall k :: k in server ==> k in d;
    PairFrame(r, server, v0, d, v, c, l, e);
    hide ImportFrame, Linked;
    EntryNow(r, d, v, c, l, n);
    ImportedStay(r, server, d, v, c, l, e);
    NotThereLater(server, v, w, n);
    hide Reused, NotThere;
    ReusedMore(excluding, server, d, v, e, w);
    NextAbove(server, d, max, next, n.parentId);
    OrderMore(r, server, d, v, seen, c, l, n);
    ClaimsStay(r, excluding, server, v0, v, c, l);
    VisitedMore(excluding, server, v, w, seen, c);
    if v0.l2c == map[] && Showable(r, server, v.f) {
      NextAbove(server, d, max, next, n.parentId);
      HealthyNew(r, d, v, c, l, n);
    }
    AppendingMore(server, d, max, next, l, n);
  }

  lemma NotThereLater(server: Doc, v: View, w: View, n: BNode)
    requires v.l2c.Keys <= w.l2c.Keys
    ensures NotThere(server, v, n) ==> NotThere(server, w, n)
  {}

  /** The node has to get an entry of its own. */
  ghost predicate NeedsEntry(r: Roots, excluding: bool, server: Doc, v: View, c: Id) {
    && c in Managed(r, v.f) && c !in v.c2l && Listable(v.f, c) && ParentSettled(r, v.f, v.c2l, c)
    && v.f.par[c] in v.f.par && (v.f.par[c] in Containers(r, v.f) || v.f.par[c] in v.c2l)
    && (excluding ==> if v.f.info[c].url.Some? then !HasUrl(server, v.f.info[c].url.value)
          else Matching(r, server, v, c) == {})
  }

  lemma NoneMatching(r: Roots, server: Doc, v: View, c: Id, n: BNode)
    requires Listable(v.f, c) && n == ToNode(r, v.f, v.c2l, c).(index := n.index)
    requires n.url.Some? ==> !HasUrl(server, n.url.value)
    requires n.url.None? ==> Matching(r, server, v, c) == {}
    ensures NotThere(server, v, n)
  {
    hide Canon;
    if n.url.None? {
      forall k | k in server && server[k].kind == Folder && server[k].title == n.title
        && server[k].parentId == n.parentId
        ensures k in v.l2c
      {
        assert k !in Matching(r, server, v, c);
      }
    }
  }

  lemma NextAbove(server: Doc, d: Doc, max: map<Id, int>, next: map<Id, int>, p: Id)
    requires Appending(server, d, max, next)
    ensures forall k :: k in d && d[k].parentId == p ==> d[k].index < NextOf(max, next, p)
  {}

  // ---- The whole import --------------------------------------------------------------------------------

  lemma ClaimedKeys(r: Roots, d: Doc, v: View, n: Id, c: Id, l: Id)
    requires KeysOk(r, d, v, n) && c in v.f.par && c < n && l in d
    ensures KeysOk(r, d, View(v.f, v.l2c[l := c], v.c2l[c := l]), n)
  {
    var was, now := d.Keys + v.l2c.Keys + v.c2l.Keys + r.ids, d.Keys + v.l2c[l := c].Keys + v.c2l[c := l].Keys + r.ids;
    assert now <= was + {c};
    assert d.Keys + v.l2c[l := c].Keys == d.Keys + v.l2c.Keys;
  }

  lemma KeyNotRoot(r: Roots, d: Doc, v: View, n: Id, l: Id)
    requires KeysOk(r, d, v, n) && RootsOk(r, v.f) && l in d
    ensures !IsRoot(l)
  {
    RootIds(r, v.f);
    hide RootsOk;
  }

  /** Server folders that can be taken over for the folder `c`. */
  function Matching(r: Roots, server: Doc, v: View, c: Id): set<Id>
    requires c in v.f.par && c in v.f.info
  {
    set l | l in server && l !in v.l2c && server[l].kind == Folder && server[l].title == v.f.info[c].title
      && server[l].parentId == Canon(r, v.c2l, v.f.par[c])
  }

  lemma FrameOf(r: Roots, excluding: bool, server: Doc, v0: View, max: map<Id, int>, next: map<Id, int>, d: Doc,
                v: View, seen: set<Id>)
    requires ImportInv(r, excluding, server, v0, max, next, d, v, seen)
    ensures ImportFrame(server, v0, d, v) && Visited(excluding, server, v, seen) && v.f == v0.f && Linked(v.l2c, v.c2l)
    ensures forall l :: l in server ==> l in d && d[l] == server[l]
    ensures forall l :: l in v0.l2c ==> l in v.l2c && v.l2c[l] == v0.l2c[l]
    ensures v.l2c.Keys <= v0.l2c.Keys + d.Keys
  {
    hide ImportedAll, Reused, Appending, Claims, Healthy, KindsSane, Grounded, RootsAvailable, Visited, Linked;
  }

  /** Every imported entry describes its node, hangs below a root or another entry, and stands behind
      its earlier siblings. */
  ghost predicate ImportedWell(r: Roots, server: Doc, v0: View, d: Doc, v: View) {
    forall l {:trigger d[l]} :: l in d && l !in server ==>
      && ImportedEntry(r, d, v, l)
      && (v0.l2c == map[] ==> IsParentRoot(d[l].parentId) || d[l].parentId in d)
  }

  /** Imported entries stand behind all siblings from the server, each directly behind another entry or at position 0.
      */
  ghost predicate AppendedBehind(server: Doc, d: Doc) {
    && Packed(server, d)
    && forall a, b {:trigger d[a], d[b]} ::
         a in d && b in d && a != b && d[a].parentId == d[b].parentId && a !in server ==>
           d[a].index != d[b].index && (b in server ==> d[b].index < d[a].index)
  }

  lemma ImportedParent(r: Roots, server: Doc, v0: View, d: Doc, v: View, l: Id)
    requires WF(v.f) && RootsOk(r, v.f) && ImportFrame(server, v0, d, v) && ImportedEntry(r, d, v, l) && v0.l2c == map[]
    requires v.l2c[l] in Managed(r, v.f)
    ensures IsParentRoot(d[l].parentId) || d[l].parentId in d
  {
    hide Acyclic, Listed, Managed;
    var p := v.f.par[v.l2c[l]];
    assert p in v.f.par by { ParentInside(r, v.f, v.l2c[l]); }
    if p in r.toCanon {
      assert p in r.ids;
    } else {
      assert v.c2l[p] in v.l2c;
    }
  }

  lemma ParentInside(r: Roots, f: Forest, c: Id)
    requires WF(f) && RootsOk(r, f) && c in Managed(r, f)
    ensures f.par[c] in f.par && (f.par[c] in Containers(r, f) || f.par[c] in Managed(r, f))
  {
    hide Acyclic, Listed;
    ManagedIs(r, f);
  }

  /** From an empty mapping every URL of the browser ends up in the document. */
  lemma NothingLocalOnly(r: Roots, excluding: bool, server: Doc, v0: View, d: Doc, v: View, m: set<Id>)
    requires ImportFrame(server, v0, d, v) && ImportedAll(r, server, d, v) && Claims(r, excluding, server, v0, v)
    requires v0.l2c == map[]
    requires Visited(excluding, server, v, m)
    ensures UrlsKept(m, v.f, d)
  {
    hide HasUrl;
    forall c | c in m && c in v.f.info && v.f.info[c].url.Some? ensures HasUrl(d, v.f.info[c].url.value) {
      NodeUrlKept(r, excluding, server, v0, d, v, m, c);
    }
  }

  lemma NodeUrlKept(r: Roots, excluding: bool, server: Doc, v0: View, d: Doc, v: View, m: set<Id>, c: Id)
    requires ImportFrame(server, v0, d, v) && ImportedAll(r, server, d, v) && Claims(r, excluding, server, v0, v)
    requires v0.l2c == map[]
    requires Visited(excluding, server, v, m) && c in m && c in v.f.info && v.f.info[c].url.Some?
    ensures HasUrl(d, v.f.info[c].url.value)
  {
    hide Canon;
    if c in v.c2l {
      var l := v.c2l[c];
      assert l in v.l2c && v.l2c[l] == c && l in d;
      if l !in server { assert ImportedEntry(r, d, v, l); }
    } else {
      var l :| l in server && server[l].url == Some(v.f.info[c].url.value);
      assert d[l] == server[l];
    }
  }

  lemma AppendedWell(server: Doc, d: Doc, max: map<Id, int>, next: map<Id, int>)
    requires Appending(server, d, max, next)
    ensures AppendedBehind(server, d)
  {
    hide Packed, Packing, NextOf;
  }

  lemma ImportResult(r: Roots, excluding: bool, server: Doc, v0: View, max: map<Id, int>, next: map<Id, int>, d: Doc,
                     v: View)
    requires WF(v0.f) && RootsOk(r, v0.f) && ImportInv(r, excluding, server, v0, max, next, d, v, Managed(r, v0.f))
    requires forall l :: l in d && l !in server ==> l in v.l2c && v.l2c[l] in Managed(r, v0.f)
    ensures ImportedWell(r, server, v0, d, v) && AppendedBehind(server, d)
    ensures Claims(r, excluding, server, v0, v) && Reused(excluding, server, d, v)
    ensures Visited(excluding, server, v, Managed(r, v0.f))
    ensures v.l2c.Keys <= v0.l2c.Keys + d.Keys && OrderKept(server, d, v)
    ensures v0.l2c == map[] ==> UrlsKept(Managed(r, v0.f), v0.f, d)
    ensures v0.l2c == map[] && Showable(r, server, v.f) ==>
      Reconcilable(r, d, v)
  {
    hide WF, RootsOk, ImportFrame, ImportedEntry, Claims, Reused, KindsSane, Grounded, RootsAvailable, Visited, Claim,
         Managed, Reconcilable, Healthy, Appending, AppendedBehind, UrlsKept;
    AppendedWell(server, d, max, next);
    FrameOf(r, excluding, server, v0, max, next, d, v, Managed(r, v0.f));
    if v0.l2c == map[] { NothingLocalOnly(r, excluding, server, v0, d, v, Managed(r, v0.f)); }
    if Healthy(r, d, v) { HealthyReconcilable(r, d, v); }
    forall l | l in d && l !in server
      ensures ImportedEntry(r, d, v, l) && (v0.l2c == map[] ==> IsParentRoot(d[l].parentId) || d[l].parentId in d)
    {
      assert d[l] == d[l];
      if v0.l2c == map[] { ImportedParent(r, server, v0, d, v, l); }
    }
  }

  lemma HealthyReconcilable(r: Roots, d: Doc, v: View)
    requires Healthy(r, d, v)
    ensures Reconcilable(r, d, v)
  {
    hide Grounded, KindsMatch, SurvivorKinds, RootsAvailable;
    KindsSurvive(r, d, v);
  }

  lemma WalkUrls(r: Roots, f: Forest, visit: seq<Id>)
    requires SetOf(visit) == Managed(r, f)
    ensures (set c | c in visit && c in f.info && f.info[c].url.Some? :: f.info[c].url.value) ==
      BrowserUrls(Managed(r, f), f)
  {
    hide Managed;
    assert forall c :: c in visit <==> c in SetOf(visit);
  }

  lemma KeptExactly(m: set<Id>, f: Forest, d: Doc)
    ensures BrowserUrls(m, f) <= Urls(d) <==> UrlsKept(m, f, d)
  {
    hide HasUrl, Urls;
    forall c | c in m && c in f.info && f.info[c].url.Some?
      ensures f.info[c].url.value in BrowserUrls(m, f)
      ensures f.info[c].url.value in Urls(d) <==> HasUrl(d, f.info[c].url.value)
    {
      UrlListed(d, f.info[c].url.value);
    }
  }

  lemma NoneLeft(a: set<string>, b: set<string>)
    ensures |a - b| == 0 <==> a <= b
  {
    if a <= b { assert a - b == {}; } else { var x :| x in a && x !in b; assert x in a - b; }
  }

  lemma ParentHere(r: Roots, f: Forest, visit: seq<Id>, i: nat, excluding: bool, server: Doc, v: View)
    requires WF(f) && RootsOk(r, f) && SetOf(visit) == Managed(r, f) && i < |visit| && v.f == f
    requires ParentsFirst(f, Containers(r, f), visit) && Visited(excluding, server, v, SetOf(visit[..i]))
    ensures visit[i] in Managed(r, f) && f.par[visit[i]] in f.par
    ensures (f.par[visit[i]] in Containers(r, f) || f.par[visit[i]] in v.c2l)
  {
    hide WF, RootsOk, Containers;
    assert visit[i] in SetOf(visit);
    ManagedPar(r, f, visit[i]);
    ParentInside(r, f, visit[i]);
    VisitedParent(r, f, visit, i, excluding, server, v);
  }

  lemma ManagedPar(r: Roots, f: Forest, c: Id)
    requires c in Managed(r, f)
    ensures c in f.par
  {}

  lemma VisitedParent(r: Roots, f: Forest, visit: seq<Id>, i: nat, excluding: bool, server: Doc, v: View)
    requires WF(f) && i < |visit| && v.f == f
    requires ParentsFirst(f, Containers(r, f), visit) && Visited(excluding, server, v, SetOf(visit[..i]))
    ensures visit[i] in f.par && (f.par[visit[i]] in Containers(r, f) || f.par[visit[i]] in v.c2l)
  {
    hide Acyclic, Listed;
    var c := visit[i];
    assert c in f.par && (f.par[c] in Containers(r, f) || f.par[c] in visit[..i]);
    if f.par[c] !in Containers(r, f) {
      assert f.par[c] in SetOf(visit[..i]);
      assert f.par[c] in f.info ==> f.info[f.par[c]].url.None?;
    }
  }

  lemma NodeParent(r: Roots, f: Forest, c2l: map<Id, Id>, c: Id)
    requires Listable(f, c)
    ensures ToNode(r, f, c2l, c).parentId == Canon(r, c2l, f.par[c]) && ToNode(r, f, c2l, c).url == f.info[c].url
  {}

  lemma SeenBefore(f: Forest, visit: seq<Id>, i: nat)
    requires SiblingsInOrder(f, visit) && i < |visit|
    ensures forall x :: x in SetOf(visit[..i]) ==> Before(f, x, visit[i])
  {
    hide Before;
  }
}
