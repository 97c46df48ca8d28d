# VaultMarks: bookmark bridge and sync protocol

VaultMarks keeps browser bookmarks in step across devices. A browser extension mirrors the browser's bookmark
tree in a CRDT document, pushes encrypted deltas of it to a server and pulls the deltas of other devices. This
project models the parts of it in which correctness is hard to see and proves what they promise:

- **The bridge** (`Bridge.dfy` and the files it builds on). The browser is a class holding an ordered forest that
  only `RemoveTree`, `Create`, `Update` and `Move` can change; the document is a flat map from ids to entries; two
  maps link them. `Reconcile` brings the document into the browser in five steps, `MergeLocalChanges`, `Bootstrap`
  and `MergeImport` go the other way, `ComputeOfflineChanges` counts the differences. Each is a method over the
  mutable fields with the loops of the source.
- **The sync protocol** (`Sync*.dfy`, `Server.dfy`, `Client.dfy`, `Device.dfy`). A state machine of one server and any
  number of clients, in which every awaited write, every request and every crash is a step of its own, and syncs of
  one client overlap. Beside it, the server's handlers, the paged pull, the queue drain and one device's sync as
  imperative code.
- **Small machines**: the skip/catch-up flags around `syncFrom` (`SyncGate.dfy`), the sliding-window limiter
  (`RateLimit.dfy`), the splitter of the event stream (`EventStream.dfy`).

## Main results

1. *Convergence, entry by entry, for any document* (`Convergence.EntryExact`, `Convergence.SiblingsExact`; composed from
   the methods themselves in `Passes.Converge`): from pass n on an entry n levels deep is in its place *if and only if*
   it has one, that is, if its chain of parents leads through folders to a root container of the browser; and from
   pass max(2, n) on such siblings stand in index order. Cycles, missing root containers and mixed pairs elsewhere in
   the document do not matter.
2. *Convergence of the whole tree* (`Convergence.ConvergesExactly`, `Passes.Converge`): from pass max(2, depth) on the
   managed tree equals the document in shape, contents and sibling order, although moves into a node's own subtree are
   refused on the way, *if and only if* the document has no cycle and no bookmark as a parent, the browser has the root
   containers it uses, and no pair that survives deletion mixes a bookmark with a folder. With distinct sibling indices
   no later pass makes a browser call (`Passes.PassAgain`), and no offline change is counted. A tree that was empty
   converges in two passes, however deep the document is.
   The document is the one given, without its orphans: those that an old mapping still shelters go one generation a
   pass (`Convergence.OrphansGo`), and after more than |document| passes both statements hold for the part in which
   every parent is a root or an entry (`Convergence.OrphansEntries`, `Convergence.OrphansConverge`).
   The starting point is arbitrary but for the order in which the pairs were mapped: mapped nodes that were moved out
   of the managed tree together must have been mapped top down (see below), and none may sit directly below the virtual
   root.
3. *One pass, from any start, in any order, for any document* (`Bridges.Bridge.Reconcile`): orphans are pruned;
   survivors stay, are refreshed and, where the way to their folder stands, are moved below it in index order
   (`BridgeSpec.Arranges`); what is mapped in addition is exactly what can be planted. Maps and contents agree with the
   document after a single pass *if and only if* the purge was clean, the surviving pairs are of one kind, and every
   other entry could be planted (`BridgeSpec.Fills`). `DeletePhase.CleanExact` says in terms of the order when a
   purge is clean.
4. *Cross-device round trip*: what device A captured, brought to an empty device B with its own root tables, gives a tree
   isomorphic to A's in titles, URLs, nesting and sibling order, if and only if B has the root containers that A's
   bookmarks use (`RoundTrip.CrossDevice`, over the methods `Passes.ShareWithDevice`). Started from two browsers alone,
   Chrome or Firefox, the children of A's toolbar become the children of B's, and so for the other two
   (`Passes.ShareBrowsers`).
5. *Exact capture* (`Bridges.Bridge.MergeLocalChanges`, `Settled.CapturedSettled`, `Startup.ResumeOffline`): when the
   mapping covers exactly the document, merging makes the document an exact record of the tree; nothing is counted
   afterwards and the next pass leaves the browser alone. `OfflineChanges.NothingToMergeIff` characterises "nothing
   counted"; `OfflineChanges.CreationCounts` and `OfflineChanges.RemovalCounts` say what one change adds to the counts.
6. *Import loses nothing* (`Bridges.Bridge.MergeImport`, `Startup.ImportAndReconcile`).
7. *Every run of the sync protocol*: at-least-once delivery (`SyncTheorems.AtLeastOnce`), a log and a server snapshot
   that never go back (`SyncTheorems.RunForward`), complete paging (`SyncClient.PullSince`). The queue drain
   (`DeltaQueues.PushPending`) lets go of a delta only when it is in the log or was answered 400, 403 or 404; any other
   failure keeps it and all later ones.
8. *Every guarded run of the sync protocol*, with crashes between any two writes and overlapping syncs: the crash-safe
   cursor (`SyncTheorems.CrashSafeCursor`), compaction that preserves meaning (`SyncTheorems.Compaction`), convergence
   at quiescence (`SyncTheorems.Quiescence`). The guard is not in the code; it is needed, and it is exact: see below.
9. *From edits to trees* (`EndToEnd.ShowsAllEdits`, `EndToEnd.DevicesAgree`): in every guarded run with drained queues, a
   device at the log's end shows the bookmarks of all operations ever made anywhere after max(2, depth) passes with clean
   purges, if and only if its tree was reconcilable with them, and entry by entry in any case; any two such devices show
   isomorphic trees.
10. *No lost wake-up*, *limiter refinement* with its exact clock condition, and the event stream: *chunk independence*
    and the exact condition under which its splitter reads what the standard reads (`EventStream.MatchesStandard`).

## Where the code does less than it promises

- **Roots, kinds and strays.** A document that uses a root container the browser lacks (`Convergence.MissingRoot`: "Mobile"
  bookmarks on a browser without node "3"), or a folder mapped to a bookmark entry (`Convergence.MixedPair`:
  `chrome.bookmarks.update` cannot turn one into the other), is never shown in full, however often one reconciles; what
  can be shown of it is (`Convergence.EntryExact`). Nothing is shown in full once a node directly below the virtual root
  is mapped (`Convergence.MappedTopFolder`), as the handler of creation events does with a container that appears
  there: the purge takes the virtual root for a managed parent and never forgets the node. No pass creates or removes
  any of the three (`Convergence.ReadyAgain`, `Convergence.ReadyBefore`, `Passes.ReconcileTimes`). One pass asks less of
  the roots (`Convergence.FilledWithoutRoot`).
- **Orphans under an old mapping.** An entry whose parent entry is gone is pruned only when the parent is not mapped
  either. While a node of the parent is still mapped, the entry stays for that pass, and the pass that deletes the
  parent's node decides about the next. A chain of such entries goes one by one (`Convergence.OrphansGo`).
- **Order of the purge.** A mapped folder moved below an unmanaged container takes its mapped children along. The purge
  forgets a child only if its parent was forgotten before it. `DeletePhase.CleanExact`: in a given order only managed
  nodes stay mapped if and only if no mapped node sits directly below the virtual root and every other stray node comes
  behind the stray node above it; `DeletePhase.PurgeExact`: in every order if and only if no mapped node outside the
  managed tree has a root or a mapped node as its parent; `Convergence.StrayOrder` has one start that is purged clean in
  one order and not in the other. A pass after an unclean purge creates and moves nodes below the strays it kept.
- **A cursor that says nothing about the document.** `initializeDocs` writes the cursor when it loads the server's
  snapshot, before any local snapshot exists. If the worker dies there and the next start cannot fetch the server's
  snapshot, it falls back to an empty document and a replay from 0, while the stored cursor still stands. A manual sync
  started then reads the stale cursor and stores a snapshot that lacks the deltas below it together with a cursor above
  them; the snapshot stored by a manual sync that detected local changes breaks the stored pair by itself; and a sync
  begun before the fall-back ends the same way. `SyncTheorems.GuardNeeded` gives reachable states of the unguarded code
  in which the crash-safe cursor, quiescence and compaction fail (the losing client uploads its snapshot, so that every
  later new device misses the delta), `SyncTheorems.FallbackDuringSync` the third way in.
  The missing guard is `SyncState.Guarded`: such steps wait until the cursor is usable, that is, until it is 0, or a
  local snapshot is stored, or the document came from the server's snapshot, or a pull of this session was applied.
  Under it all three properties hold in all runs. `SyncTheorems.SyncFromCursorIff` and `SyncTheorems.PersistEndIff` say
  in any state exactly when the two steps leave a consistent pair. `SyncTheorems.GuardExact` and
  `SyncTheorems.FallbackExact`: over all states that satisfy the invariant of guarded runs and look the same to a client
  at rest, reachable or not, the steps are harmless only where the guard allows them.
- **Data lines without a space.** Section 9.2.6 of the WHATWG HTML standard makes the space behind the colon of a field
  optional. The splitter asks for it: it reads what the standard reads if and only if every data field of a dispatched
  event has the space (`EventStream.MatchesStandard`), and `data:x` delivers nothing (`EventStream.MissingSpace`). Several
  data lines of one event are delivered one by one. The server sends one data line with a space.
- **The limiter's first minute.** `checked_sub(...).unwrap_or(now)` makes the cutoff the current instant while the
  clock is younger than the window, so earlier requests are forgotten for good. `RateLimit.ClockConditionExact`: all
  runs from clock reading t0 on are decided as the full history decides, and never let more than ten requests of an
  address through in a closed window, if and only if t0 is at most one tick short of 60 seconds.
  `RateLimit.WrongAtSixtySeconds`: after requests in the first ticks even a request at exactly 60 seconds is wrongly
  admitted.
- **Bootstrap with leftovers.** If an earlier attempt stored its mapping but not its snapshot, the repeated
  bootstrap leaves the old pairs in the mapping. `Bridges.Bridge.Bootstrap`: the document is an exact record in any
  case, and one under the bridge's own mapping if and only if the mapping was empty.
- `put_snapshot` accepts any sequence id up to the newest delta, whether or not a delta has it, and answers 204
  also when the stored snapshot is newer and nothing is written; its comment promises less. The model follows the
  code, and so it does for the preference of `unfiled_____` over `menu________`, which is not in the root table.

## Assumptions

- Ids (bookmark ids, UUIDs, canonical roots) are opaque and represented by naturals; the canonical roots are 0 to 3,
  Firefox's fixed roots 4 to 7. New bookmark ids and UUIDs come from one counter that never repeats, and document keys
  never coincide with browser ids (`Apart`). URLs are absent or non-empty.
- Bridge functions run one at a time. The tree reported by the browser is accurate. The two maps loaded at start are
  inverse (`Linked`). The order of the pairs is an input of a pass: any order that lists the mapping.
- The browser refuses to create below the virtual root or a bookmark, to move a node into its own subtree or to an
  index beyond the child count, and to give a folder a URL; a root container is never moved, changed or removed.
- In `Passes.ShareWithDevice` and `Passes.ShareBrowsers` the keys device A hands out clash with no id of device B. The
  ids 5, 6 and 7 stand for `toolbar_____`, `unfiled_____` and `mobile______`.
- `push` is one atomic step that commits in sequence-id order; the protocol is that of one profile. A failed
  initialization counts as a crash, a local edit and its enqueue are one step, IndexedDB commits snapshot writes in
  the order they were issued, and the clock that orders the queue does not go back. Encryption and decryption are
  inverse; a CRDT document is the set of its operations and importing is union; bookmarks are a function of that set.
- Only the server answers a push with a 2xx status.
- The limiter's clock starts at 0 and has no instants before that, so that subtracting the window from a younger clock
  fails. This is so on Windows; on Unix Rust keeps signed seconds, the subtraction succeeds, and the failure of the
  first minute does not arise.

## Model

| member | source | states |
|---|---|---|
| `Browsers.Browser.RemoveTree` | extension/src/bookmarks/bridge.ts:842-848 | removes exactly the subtree of an ordinary node, refuses anything else |
| `Browsers.Browser.Create` | extension/src/bookmarks/bridge.ts:882-885 | appends a node with a never-used id, only below a folder other than the virtual root |
| `Browsers.Browser.Update` | extension/src/bookmarks/bridge.ts:908-910 | changes title and given URL in place; a folder cannot get a URL |
| `Browsers.Browser.Move` | extension/src/bookmarks/bridge.ts:936-938 | moves to the given index within or between folders, where an index behind the old place counts the node itself, and leaves other lists alone; refused inside the moved subtree or beyond the child count |
| `Browsers.Descendants` | extension/src/bookmarks/bridge.ts:822-831 | the breadth-first queue yields exactly the nodes strictly below the start |
| `RootTables.InitBrowserRoots` | extension/src/bookmarks/bridge.ts:80-112 | on Chrome each root stands for itself; on Firefox `toolbar_____` stands for "1", `unfiled_____` for "2" and `mobile______` for "3", each if present; the tables agree with each other and with the containers present |
| `ManagedTree.CollectManaged` | extension/src/bookmarks/bridge.ts:737-752 | visits every node below a root container once, parents first and siblings in order, and nothing below other children of the virtual root |
| `ManagedTree.ManagedIs` | extension/src/bookmarks/bridge.ts:746-751 | whether a node is managed is decided by its parent alone |
| `Documents.PruneOrphans` | extension/src/bookmarks/bridge.ts:800-812 | the greatest sub-map in which every parent is a root, mapped or kept, whatever the visiting order |
| `Documents.PrunedStays` | extension/src/bookmarks/bridge.ts:793-812 | once no entry of what is left is an orphan, no later pass prunes anything |
| `Documents.TopoSort` | extension/src/bookmarks/bridge.ts:706-732 | a permutation in which entries reaching the available ids come first, each after its parent, those with an available parent in index order; the others follow |
| `CreatePhase.AllReach` | extension/src/bookmarks/bridge.ts:860-867 | in a well-formed document every missing entry reaches a root or a mapped entry |
| `CreatePhase.FolderIff` | extension/src/bookmarks/bridge.ts:859-894 | when its turn comes an entry has a folder exactly when it can be planted |
| `Bridges.Bridge.PurgeStale` | extension/src/bookmarks/bridge.ts:775-791 | in any order of the pairs: managed pairs and nodes directly below a root stay, pairs that are gone or show no trace of the managed tree go, the maps stay inverse |
| `DeletePhase.CleanExact` | extension/src/bookmarks/bridge.ts:775-791 | in a given order only managed nodes stay mapped exactly when no mapped node is directly below the virtual root and every other stray comes behind the stray above it |
| `DeletePhase.PurgeExact` | extension/src/bookmarks/bridge.ts:775-791 | only managed nodes stay mapped in every order exactly when no stray mapped node has a root or mapped parent |
| `DeletePhase.KeptSurvivors` | extension/src/bookmarks/bridge.ts:837-857 | deletion keeps exactly the managed nodes that are wanted together with all managed nodes above them |
| `Bridges.Bridge.DeleteUndesired` | extension/src/bookmarks/bridge.ts:837-857 | removes unwanted subtrees; what is mapped afterwards is what is left, and no call is made when all is wanted |
| `Bridges.Bridge.CreateEntry` | extension/src/bookmarks/bridge.ts:870-894 | the entry is created and mapped exactly when its parent has a folder; maps that covered the managed nodes go on covering them |
| `Bridges.Bridge.CreateMissing` | extension/src/bookmarks/bridge.ts:859-894 | for any document, mapped in addition is exactly what can be planted: entries whose chain of parents leads through folders to a root container or a mapped folder |
| `ContentPhase.FixContent` | extension/src/bookmarks/bridge.ts:900-920 | refreshes title and URL of the surviving pairs and collects them by target folder |
| `Positions.PlaceEntries` | extension/src/bookmarks/bridge.ts:935-939 | the entries become the folder's prefix in the given order, same-folder moves go backward, other children keep their order |
| `Positions.SortedUnique` | extension/src/bookmarks/bridge.ts:926 | with distinct indices the sorted order is unique |
| `Placement.FixPositions` | extension/src/bookmarks/bridge.ts:922-940 | every folder that no planned move displaces ends up with all its entries, in key order if its child list was in snapshot order, whatever is planned elsewhere; a tree in place is not touched |
| `Arranging.FolderFirm` | extension/src/bookmarks/bridge.ts:922-940 | no move of the pass displaces a folder whose chain of parents stands, so moves into it are not refused |
| `Arranging.ArrangesDone` | extension/src/bookmarks/bridge.ts:922-940 | survivors come below such folders, and there they are in index order |
| `Bridges.Bridge.Prepare` | extension/src/bookmarks/bridge.ts:756-894 | purge, pruning, deletion and creation for any document and mapping: what is pruned, what the purge leaves, which pairs survive and which are new; after a clean purge the mapped nodes are the managed nodes |
| `Bridges.Bridge.Arrange` | extension/src/bookmarks/bridge.ts:896-940 | contents of all survivors; parents and order of those whose folder can be reached, for any document and mapping; no call on a mirrored tree |
| `Bridges.Bridge.Reconcile` | extension/src/bookmarks/bridge.ts:734-944 | one pass for any mapping, order and document: orphans pruned, survivors kept, refreshed and arranged, exactly the plantable entries added, unmanaged nodes kept; contents and mapping agree with the document exactly when the purge was clean, surviving pairs are of one kind and the rest could be planted; no call on a mirrored tree |
| `ReconcileLemmas.UncleanLeft` | extension/src/bookmarks/bridge.ts:775-791 | after an unclean purge no document is mapped exactly |
| `ReconcileLemmas.PassDelivers` | extension/src/bookmarks/bridge.ts:793-894 | what every pass does for the document without its orphans, whatever is mapped and whatever the purge left |
| `Convergence.FilledIff` | extension/src/bookmarks/bridge.ts:734-944 | the exact condition for one pass to make maps and contents agree with any pruned document |
| `Convergence.Progress` | extension/src/bookmarks/bridge.ts:734-944 | after i passes every entry that has a place at most i levels deep is there, whatever the rest of the document is like |
| `Convergence.EntryExact` | extension/src/bookmarks/bridge.ts:734-944 | from pass n on an entry n levels deep is in its place exactly when it has one |
| `Convergence.SiblingsExact` | extension/src/bookmarks/bridge.ts:922-940 | from pass max(2, n) on siblings n levels deep that have a place are in index order |
| `Convergence.MirrorsGrounded` | extension/src/bookmarks/bridge.ts:734-944 | what is shown has no cycle and only folders as parents |
| `Convergence.MirrorsReconcilable` | extension/src/bookmarks/bridge.ts:734-944 | a tree that shows the document has its roots and pairs like with like, and the document has no cycle |
| `Convergence.ConvergesExactly` | extension/src/bookmarks/bridge.ts:734-944 | from pass max(2, depth) on the tree is the document exactly when there is no cycle, roots are available and surviving kinds match; with distinct indices it stays |
| `Convergence.PrunedConverges` | extension/src/bookmarks/bridge.ts:793-812 | the same for what is left of any document without its orphans |
| `Convergence.PrunedEntries` | extension/src/bookmarks/bridge.ts:793-812 | and entry by entry |
| `Convergence.OrphansGo` | extension/src/bookmarks/bridge.ts:793-812 | orphans that an old mapping shelters go, a generation a pass |
| `Convergence.OrphansEntries` | extension/src/bookmarks/bridge.ts:793-812 | after more than |document| passes every entry arrives exactly when it has a place |
| `Convergence.OrphansConverge` | extension/src/bookmarks/bridge.ts:793-812 | and the tree shows the document without its orphans exactly when it could be reconciled with it |
| `Passes.ReconcileTimes` | extension/src/bookmarks/bridge.ts:683-699 | any number of passes from any mapping and on any document keeps the outside and neither makes nor removes mapped nodes directly below the virtual root; after a clean first purge every pass reconciles the document without the orphans left |
| `Passes.Converge` | extension/src/bookmarks/bridge.ts:683-699 | over the methods themselves: with a mapped node directly below the virtual root no document is ever shown; with strays top down every entry arrives exactly when it has a place, siblings in order, and the whole is shown exactly when the start is reconcilable; the counts are then 0/0/0 |
| `Passes.PassAgain` | extension/src/bookmarks/bridge.ts:683-699 | on a tree that shows the document without its orphans a pass, in any order of the pairs, makes no browser call and changes nothing, and nothing is counted |
| `Convergence.MissingRoot` | extension/src/bookmarks/bridge.ts:106-111 | a forest and a document that uses a root container it lacks |
| `Convergence.MixedPair` | extension/src/bookmarks/bridge.ts:906-911 | a folder paired with a bookmark entry that survives deletion |
| `Convergence.MappedTopFolder` | extension/src/bookmarks/bridge.ts:272-311 | a mapped folder directly below the virtual root, which no order of the purge forgets |
| `Convergence.StrayOrder` | extension/src/bookmarks/bridge.ts:775-791 | two strays that one order of the pairs forgets and the other does not |
| `Convergence.FilledWithoutRoot` | extension/src/bookmarks/bridge.ts:859-894 | a start that one pass fills in although a root container the document uses is missing |
| `Convergence.EmptyBrowserConverges` | extension/src/bookmarks/bridge.ts:859-940 | an empty managed tree shows the document after two passes exactly when it has the root containers used |
| `Convergence.ReadyAgain` | extension/src/bookmarks/bridge.ts:734-944 | a pass establishes what the next pass needs |
| `Convergence.ReadyBefore` | extension/src/bookmarks/bridge.ts:734-944 | and repairs none of it: what holds after a pass held before |
| `Documents.ValidDocIff` | extension/src/bookmarks/bridge.ts:793-812 | well-formed means distinct sibling indices, parents that are roots or folders, and chains that reach a root |
| `Settled.MirroredCounts` | extension/src/bookmarks/bridge.ts:471-546 | on a tree that is the document no offline change is counted |
| `Bridges.Bridge.MergeLocalChanges` | extension/src/bookmarks/bridge.ts:398-463 | what becomes of every node and entry: recorded as it is, untouched if it was recorded already; an exact record when the mapping covers exactly the document |
| `Bridges.Bridge.AddNewNodes` | extension/src/bookmarks/bridge.ts:421-430 | every unmapped managed node gets an entry below an already translated parent |
| `Bridges.Bridge.DropDead` | extension/src/bookmarks/bridge.ts:432-442 | exactly the mapped entries whose node is gone are dropped |
| `Bridges.Bridge.UpdateChanged` | extension/src/bookmarks/bridge.ts:444-460 | exactly the live mapped entries record their node |
| `Capture.CapturedMirrors` | extension/src/bookmarks/bridge.ts:398-463 | an exact record mirrors the tree |
| `Capture.CapturedValid` | extension/src/bookmarks/bridge.ts:398-463 | an exact record is a well-formed document that can be reconciled |
| `Capture.CanonNative` | extension/src/bookmarks/bridge.ts:185-201 | translating a managed folder to the document and back gives the folder |
| `OfflineChanges.NativeCanon` | extension/src/bookmarks/bridge.ts:185-201 | translating a document parent to the browser and back gives the parent |
| `Settled.CapturedSettled` | extension/src/bookmarks/bridge.ts:398-463 | after a capture nothing is counted and a pass finds its work done |
| `Bridges.Bridge.ComputeOfflineChanges` | extension/src/bookmarks/bridge.ts:471-546 | added counts the managed nodes that are not mapped, removed the pairs whose node is not managed, modified the entries that differ and the folders whose order differs; all zero exactly when the tree is the document |
| `OfflineChanges.OrdersDiffer` | extension/src/bookmarks/bridge.ts:537-543 | the two sorted orders differ exactly when some pair is inverted |
| `OfflineChanges.NothingToMergeIff` | extension/src/bookmarks/bridge.ts:471-546 | a tree that mirrors a document without orphans counts nothing, and with distinct indices only such a tree does |
| `OfflineChanges.CreationCounts` | extension/src/bookmarks/bridge.ts:491-499 | one node created while offline counts as one addition and no removal |
| `OfflineChanges.RemovalCounts` | extension/src/bookmarks/bridge.ts:491-499 | a removed subtree counts its mapped nodes as removals, and its unmapped ones no longer as additions |
| `OfflineChanges.OrphansUncounted` | extension/src/bookmarks/bridge.ts:471-546 | orphans without nodes are not counted |
| `Bridges.Bridge.Bootstrap` | extension/src/bookmarks/bridge.ts:954-983 | the document becomes an exact record; under the bridge's mapping exactly when that was empty |
| `Bridges.Bridge.MergeImport` | extension/src/bookmarks/bridge.ts:605-681 | server entries stay, imported ones stand behind their siblings without a gap below a root or entry and in the browser's order, matching folders are taken over before new ones are made and once each, no URL is lost, the result can be reconciled |
| `ImportMerge.MaxIndices` | extension/src/bookmarks/bridge.ts:613-619 | the greatest index below each parent, -1 where there is none above |
| `Bridges.Bridge.ImportNode` | extension/src/bookmarks/bridge.ts:626-677 | one visited node: known, skipped, given a server folder, or added |
| `Bridges.Bridge.ComputeLocalImportDiff` | extension/src/bookmarks/bridge.ts:564-595 | counts the URLs of one side only; zero local-only exactly when the document has them all |
| `Startup.ResumeOffline` | extension/src/background/index.ts:656-667 | a start without news captures offline changes and leaves the browser alone |
| `Startup.DetectLocalChanges` | extension/src/background/index.ts:998-1007 | after the check nothing is left to merge; without changes nothing is touched |
| `Startup.ImportAndReconcile` | extension/src/background/index.ts:509-513 | after an import the browser shows the whole document and still every URL it had |
| `RoundTrip.SameDocument` | extension/src/bookmarks/bridge.ts:45-137 | two browsers that show the same document are isomorphic, whatever their root tables |
| `RoundTrip.CrossDevice` | extension/src/bookmarks/bridge.ts:954-983 | capture on A, two passes on an empty B: isomorphic trees exactly when B has the root containers used |
| `Passes.ShareWithDevice` | extension/src/bookmarks/bridge.ts:954-983 | the same from A's bootstrap to B's second pass, over the methods themselves |
| `RoundTrip.ShelvesNeeded` | extension/src/bookmarks/bridge.ts:80-112 | the roots a captured document needs are those of the toolbar, other and mobile bookmarks that are not empty |
| `RoundTrip.ShelfKept` | extension/src/bookmarks/bridge.ts:80-112 | between isomorphic trees the children of one toolbar correspond to the children of the other, and so on |
| `Passes.ShareBrowsers` | extension/src/bookmarks/bridge.ts:80-112 | from two browsers and the tables found for them: toolbar to toolbar under "1", other to other under "2", mobile to mobile under "3", exactly when B has those that A uses |
| `EndToEnd.ShowsAllEdits` | extension/src/bookmarks/bridge.ts:683-699 | at quiescence a device shows the bookmarks of all operations ever made, without orphans, after max(2, depth) passes with clean purges exactly when its tree was reconcilable with them; entry by entry it shows exactly what has a place |
| `EndToEnd.DevicesAgree` | extension/src/bookmarks/bridge.ts:683-699 | and any two such devices show isomorphic trees |
| `SyncProtocol.StepDelivery` | extension/src/sync/client.ts:265-304 | every step of the code keeps each queued delta queued, logged or rejected |
| `SyncProtocol.StepInv` | extension/src/background/index.ts:645-889 | every guarded step, crashes included, keeps the covering invariant |
| `SyncInvariant.EarlyCursorOk` | extension/src/background/index.ts:689-694 | the early cursor write is safe: memory already covers it |
| `SyncInvariant.AppliedOk` | extension/src/background/index.ts:836-851 | importing a complete pull makes memory cover the cursor, whatever overlapping syncs did |
| `SyncInvariant.CommitWriteOk` | extension/src/storage/db.ts:86-90 | a committed snapshot write contains all earlier ones and covers the cursor |
| `SyncInvariant.WriteCursorOk` | extension/src/background/index.ts:853-859 | the cursor is written only after a snapshot that covers it |
| `SyncInvariant.EditKnown` | extension/src/bookmarks/bridge.ts:205-214 | the version cursor never hides a fresh operation from the exported delta |
| `SyncTheorems.CrashSafeCursor` | extension/src/background/index.ts:645-763 | in every guarded run a stored snapshot contains every delta up to the stored cursor |
| `SyncTheorems.SyncFromCursorIff` | extension/src/background/index.ts:836-859 | in any state: exactly when a sync from the stored cursor leaves a consistent pair |
| `SyncTheorems.PersistEndIff` | extension/src/background/index.ts:1219-1224 | in any state: exactly when a separate persist leaves a consistent pair |
| `SyncTheorems.GuardExact` | extension/src/background/index.ts:1226-1229 | both steps are harmless in all states that satisfy the invariant and look the same to the resting client exactly when the cursor is usable |
| `SyncTheorems.FallbackExact` | extension/src/background/index.ts:696-704 | falling back under a sync is harmless, in all such states, exactly when the stored cursor is 0 |
| `SyncTheorems.Compaction` | server/src/routes/sync.rs:168-201 | in every guarded run snapshot plus later deltas equal the log in meaning, within the log |
| `SyncTheorems.RunForward` | server/src/db/queries.rs:140-161 | in every run log and snapshot never go back |
| `SyncTheorems.AtLeastOnce` | extension/src/sync/client.ts:265-304 | in every run each queued delta is still queued, logged or rejected |
| `SyncTheorems.Quiescence` | extension/src/bookmarks/bridge.ts:553-557 | in every guarded run, with drained queues and nothing rejected, a client at the log's end holds exactly the operations ever made |
| `SyncTheorems.SameBookmarks` | extension/src/bookmarks/bridge.ts:553-557 | then any two clients show the same bookmarks |
| `SyncTheorems.UnguardedSyncLoses` | extension/src/background/index.ts:1227-1229 | a sync from a stale cursor during a fallback start loses a delta, at the client and then in the server's snapshot |
| `SyncTheorems.ExposedReachable` | extension/src/background/index.ts:668-703 | such a start is reachable |
| `SyncTheorems.GuardNeeded` | extension/src/background/index.ts:1195-1229 | reachable states of the unguarded code that break the cursor, quiescence and compaction |
| `SyncTheorems.FallbackDuringSync` | extension/src/background/index.ts:696-704 | and one reached by a sync begun before the fall-back |
| `SyncServer.Server.Push` | server/src/routes/sync.rs:27-68 | appends one row with a new sequence id to the profile's log and nothing elsewhere, or answers 403 or 400 |
| `SyncServer.Server.FetchDeltasSince` | server/src/db/queries.rs:89-110 | the first 500 rows above the cursor, and whether there are more |
| `SyncServer.Server.Pull` | server/src/routes/sync.rs:94-120 | a page, or 400 before 403 |
| `SyncServer.Server.MaxSequenceId` | server/src/db/queries.rs:113-120 | the greatest sequence id of the profile, taken from a row of it |
| `SyncServer.Server.GetSnapshot` | server/src/routes/sync.rs:147-163 | what is returned lies within the log, and a pull from its sequence id gives every row it does not stand for |
| `SyncServer.Server.PutSnapshot` | server/src/routes/sync.rs:168-201 | advances the stored snapshot only, within the log; agrees with the protocol's upsert step |
| `SyncClient.PullSince` | extension/src/sync/client.ts:313-344 | with pushes between pages: exactly the deltas above the cursor as of the last page, and termination |
| `SyncClient.PullComplete` | extension/src/sync/client.ts:313-344 | no gap, no repeat, nothing missed |
| `DeltaQueues.DeltaQueue.Peek` | extension/src/storage/db.ts:100-105 | the oldest items, oldest first |
| `DeltaQueues.PushPending` | extension/src/sync/client.ts:265-304 | an item of the batch of at most 50 leaves the queue only if it is in the log or was answered 400, 403 or 404; with any other failure it and all later ones stay; nothing leaves when a request is lost or access was revoked |
| `Devices.Device.SyncFromInner` | extension/src/background/index.ts:836-871 | whichever write is the last, what is stored is consistent; completed, the document has everything in the log and nothing but that and what it had |
| `Devices.Device.Initialize` | extension/src/background/index.ts:645-744 | the same for a start from the local snapshot, the server's or none |
| `Devices.Device.MaybeUpload` | extension/src/background/index.ts:877-885 | uploads after 50 sequence ids, and what it uploads covers the log |
| `SyncGates.SyncGate.SyncFrom` | extension/src/background/index.ts:797-809 | starts unless paused, or exclusive during a switch or another sync; a call skipped outside a pause and a switch is remembered, and no need is forgotten but by starting a pull |
| `SyncGates.SyncGate.Finished` | extension/src/background/index.ts:810-819 | a remembered need ends up in one more scheduled catch-up, unless paused, switching, locked or in a dialog |
| `SyncGates.SkipRemembered` | extension/src/background/index.ts:785-834 | an unserviced skip is held by a running sync or a scheduled catch-up |
| `SyncGates.NoLostWakeUp` | extension/src/background/index.ts:785-834 | every skipped sync is followed by a pull that starts after it, unless the situation cancels the catch-up |
| `RateLimit.RateLimiter.Request` | server/src/rate_limit.rs:105-122 | drops what is before the cutoff and admits below ten; on a faithful deque past the first minute: admitted exactly when the full history has fewer than ten in 60 seconds, and the deque stays faithful |
| `RateLimit.RateLimiter.Cleanup` | server/src/rate_limit.rs:28-46 | from 60 seconds on every address keeps what is not older than 60 seconds, and empty ones are forgotten; before that nothing changes |
| `RateLimit.Refines` | server/src/rate_limit.rs:105-122 | from one tick before 60 seconds of clock on the deques decide as the full history |
| `RateLimit.CleanupChangesNothing` | server/src/rate_limit.rs:28-46 | cleanup steps inserted anywhere change no decision, whatever the clock reads |
| `RateLimit.AtMostTen` | server/src/rate_limit.rs:80-89 | no closed 60-second window has more than ten requests of an address that the limiter let through |
| `RateLimit.ClockConditionExact` | server/src/rate_limit.rs:105-106 | all runs from a clock reading on are decided right, and capped, exactly when it is at most one tick short of 60 seconds |
| `RateLimit.WrongAtSixtySeconds` | server/src/rate_limit.rs:105-122 | a run whose early requests make the decision at 60 seconds wrong |
| `EventStream.ReadStream` | extension/src/sync/client.ts:405-431 | whatever the chunks, the data lines of the whole text are delivered |
| `EventStream.ChunkStep` | extension/src/sync/client.ts:409-413 | what a chunk completes is what the longer text delivers in addition |
| `EventStream.NotificationArrives` | extension/src/sync/client.ts:418-423 | `data: x` and a blank line deliver exactly x |
| `EventStream.OtherLine` | extension/src/sync/client.ts:418-423 | a line with any other beginning delivers nothing |
| `EventStream.LinesExact` | extension/src/sync/client.ts:418-418 | the lines are the only pieces without newlines that join to the text |
| `EventStream.MatchesStandard` | extension/src/sync/client.ts:412-423 | the splitter delivers the data fields that section 9.2.6 of the WHATWG HTML standard dispatches, for newline line ends, exactly when each has a space behind its colon |
| `EventStream.MissingSpace` | extension/src/sync/client.ts:418-423 | `data:x` delivers nothing where the standard delivers x |

## Left out

- Order after a single pass: new nodes are appended and step 4 skips them, so one pass promises the order of the surviving siblings only; new ones are in order from the next pass on.
- `Bridges.Bridge.Reconcile`: a survivor whose folder cannot be reached in this pass, because something above it is in the wrong place or the chain of parents has no end, is promised to stay mapped, to be refreshed, and to be where it was or below that folder; which of the two, and its order there, is left open.
- `Passes.Converge`: when and how a start whose strays were not mapped top down becomes clean is not followed over the passes; each purge forgets the topmost strays, but a pass may put new nodes below the others.
- `Bridges.Bridge.PurgeStale`: the lag of Orion's and Opera's tree is not modelled; the tree is accurate.
- `RootTables.InitBrowserRoots`: a browser with an unknown virtual root whose containers nevertheless have the ids "1" to "3" is not covered; they would be roots without a table entry.
- `Bridges.Bridge.ComputeOfflineChanges`: with equal sibling indices the number of reordered folders depends on the order in which a JavaScript object lists its keys; only its bounds are stated then.
- `Bridges.Bridge.MergeImport`: which of several equally matching server folders is taken depends on the order of a JavaScript object; the model takes any.
- `Bridges.Bridge.CreateEntry`: saving the mapping is one assignment; a failing save is not modelled.
- `DeltaQueues.DeltaQueue.Peek`: ties between equal timestamps are broken by UUID in IndexedDB and arbitrarily here.
- `DeltaQueues.PushPending`: the chain that serialises drains and the pause flag are not modelled; one drain runs at a time.
- `SyncState.Do`: pages of a pull may have any length, and an upload may happen after any sync; `FetchDeltasSince` and `MaybeUpload` state the 500 and the 50.
- `Devices.Device.SyncFromInner`: syncs of one device do not overlap there; overlapping is covered by the state machine.
- Live bookmark event handlers: they run between awaits of each other and of the bridge functions; the sequential functions are modelled instead.
- Profile switches, several profiles in one client, import dialogs and credential updates: the protocol runs on one profile, and a second initialization while a sync of the first is in flight is not modelled.
- Loro, AES-GCM, Argon2id, HKDF, base64 and JWT: library code; operations, opaque payloads and validity flags stand for them.
- HTTP plumbing, reconnect timers, alarms, LISTEN/NOTIFY, logging, icons, the popup, login and profile administration: easy members or plumbing.
- JSON parsing of event lines, carriage returns, and the standard's joining of several data lines of one event: the splitter delivers the text after `data: ` line by line.
- `client_ip`, `trust_proxy` and the test mode of the limiter: pure lookups of request headers and environment.
