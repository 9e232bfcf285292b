# A verified model of the rust-blockchain backends, importers and best-depth sync

This project models the core of the `blockchain` Rust crate and its example
network and runtime in Dafny, and proves properties of that model. It covers
the following parts:

- **Settlement** (`Operation::settle`, src/backend/operation.rs). A batch
  operation imports blocks, optionally moves the head and updates auxiliary
  data. The settlement runs in four steps:
  - A verification pass orders the imported blocks so that every parent is
    stored or imported earlier. Each block's depth is its parent's depth plus
    one. A parentless block fails with `IsGenesis`; a batch that cannot be
    ordered fails with `InvalidOperation`.
  - The head and the auxiliaries are checked to refer to known blocks.
  - The blocks are written, and each new child is appended to its parent's
    children list.
  - The canonical chain is moved along the tree route from the old head to
    the new one: retracted blocks lose their canonical flag and depth entry,
    and enacted blocks gain them.
- **The backends**:
  - `DirectBackend` (src/backend/direct.rs) settles the same way on a
    database. It is modelled by the `Store.ChainStore` class, which holds the
    block records, the canonical depth index, the head, the genesis block and
    the auxiliaries.
  - The older `MemoryBackend` (src/backend/memory.rs) keeps only block, state
    and depth per id, plus a head. It stores a parentless block at depth 0 and
    a child at its parent's own depth, as written.
- **The tree route** (src/backend/route.rs). The imperative walk that finds
  the retracted blocks, the common ancestor and the enacted blocks between
  two blocks. It is proved equal to a declarative route defined from
  ancestors and the deepest common ancestor.
- **The importers**:
  - the pending-operation builder `ImportAction` (src/import/action.rs);
  - the older `Importer` (src/chain/importer.rs) and `Chain`
    (src/importer.rs);
  - the best-depth importers of network/src/sync/depth.rs,
    network/simple/src/lib.rs and the counter example. A block becomes the
    head only when it is strictly deeper than the current head.
- **The best-depth sync** (`SimpleSync` / `BestDepthSync`):
  - a tick broadcasts the node's status;
  - a deeper peer's status is answered with a block request;
  - a request is answered with the contiguous canonical blocks from the
    requested depth;
  - a response is imported in order up to the first failure.
- **Key-value block state** (src/backend/state.rs) and the **counter
  runtime** (examples/counter/src/runtime.rs). The runtime's executor reads a
  128-bit little-endian counter under the key `counter`, adds every
  extrinsic's amount, and writes the counter back. Its block builder
  re-hashes the block at every step. `apply_extrinsic` updates the counter
  but does not add the extrinsic to the block's list, and the model keeps
  that behaviour.

The main results are these:
- Settlement keeps the store a well-formed tree, with depths counted from the
  genesis block (`Preservation.SettleKeepsWf`).
- A best-depth import, successful or not, never lowers the head's depth
  (`BestDepth.HeadDepthNeverDecreases`). Importing a whole block response
  does not lower it either (`Sync.ResponseKeepsBestDepth`).
- Settlement keeps the canonical depth index naming stored blocks
  (`CanonChain.SettleKeepsCanonStored`). A batch of blocks not yet stored
  keeps the canonical flags and the index exactly on the head's line of
  ancestors (`CanonChain.SettleKeepsCanonConsistent`).
- Re-importing a stored block rewrites its record as not canonical with no
  children (src/backend/operation.rs:128-132). Re-importing the head
  therefore leaves a head that is not canonical
  (`CanonChain.ReimportClearsCanon`, `BestDepth.ReimportedHeadLosesCanon`).
- The tree-route walk computes exactly the route between the two blocks
  through their deepest common ancestor (`Route.FindTreeRoute`,
  `Route.RetractedMembers`, `Route.EnactedMembers`).
- The counter codec round-trips, and a block's execution adds the sum of its
  extrinsics to the counter (`CounterRuntime.U128RoundTrip`,
  `CounterRuntime.ExecuteAddsTotal`).

Modules: `Wrappers`, `ChainTypes` (types.dfy), `Tree`, `Route`, `Precheck`,
`Store`, `Settlement`, `Preservation` (settled.dfy), `CanonChain` (canon.dfy), `Memory`, `Direct`,
`Action`, `Importers`, `KeyValueState` (state.dfy), `BestDepth`, `Sync` and
`CounterRuntime` (runtime.dfy).

## Model

| member | source | states |
|---|---|---|
| Tree.MeetDepthCorrect | src/backend/route.rs:115-135 | two equal-depth ancestor lines coincide at the meeting depth and differ at every depth above it, which is where the lockstep walk stops |
| Tree.CommonDepthCorrect | src/backend/route.rs:86-135 | after both blocks are walked down to the smaller depth, the common depth is the deepest depth where their ancestors agree |
| Route.TreeRoute.Retracted | src/backend/route.rs:52-54 | the retracted part is the route before the pivot, element by element |
| Route.TreeRoute.CommonBlock | src/backend/route.rs:58-62 | the common block is the route element at the pivot |
| Route.TreeRoute.Enacted | src/backend/route.rs:65-67 | the enacted part is the route after the pivot, element by element |
| Route.SplitsRoute | src/backend/route.rs:45-67 | retracted, then the common block, then enacted, give back the whole route |
| Route.FindTreeRoute | src/backend/route.rs:71-146 | fails with `NotExist` exactly when either end is not stored; otherwise returns the declarative route between the two blocks |
| Route.RouteParts | src/backend/route.rs:71-146 | retracted is the path up from `from` to the common depth, and enacted is the path down to `to`; the common block is `to`'s ancestor at the common depth |
| Route.RouteCommon | src/backend/route.rs:71-146 | the common block is an ancestor of both ends, and no deeper common ancestor exists; the retracted and enacted lengths are the depth differences |
| Route.RouteSteps | src/backend/route.rs:100-145 | each retracted block is an ancestor of `from` one level above the previous; each enacted block is an ancestor of `to`, in increasing depth from just below the common depth |
| Route.RouteInTree | src/backend/route.rs:71-146 | every retracted and enacted block is stored |
| Route.RetractedMembers | src/backend/route.rs:71-146 | a block is retracted exactly when it is an ancestor-or-self of `from` deeper than the common depth |
| Route.EnactedMembers | src/backend/route.rs:71-146 | a block is enacted exactly when it is an ancestor-or-self of `to` deeper than the common depth |
| Route.RouteToSelf | src/backend/route.rs:71-146 | the route from a block to itself retracts and enacts nothing, and its common block is the block |
| Route.RouteToDescendant | src/backend/route.rs:71-146 | the route to a descendant retracts nothing, has the start as common block, and enacts one block per level |
| Precheck.DepthFor | src/backend/operation.rs:66-79 | a depth is found exactly when the block has no parent, or its parent is stored or already accepted |
| Precheck.ParentsOf | src/backend/operation.rs:83-85 | the parent map holds exactly the accepted blocks that have a parent, each mapped to that parent |
| Precheck.VerifiedEntry | src/backend/operation.rs:61-107 | every entry of a verified batch comes from the batch under its own id, has an available parent, and sits at the depth its rule gives |
| Precheck.TryAccept | src/backend/operation.rs:66-95 | a block is accepted exactly when its parent is stored or accepted; then it joins the accepted set and the batch invariant holds; otherwise nothing changes |
| Precheck.VerifyPass | src/backend/operation.rs:61-106 | one pass: fails on a parentless block under the settlement rule, keeps the batch invariant, and every block is accepted or carried over; without progress nothing changes |
| Precheck.VerifyImports | src/backend/operation.rs:56-107 | `IsGenesis` exactly when the batch has a parentless block (settlement rule); `InvalidOperation` exactly when some set of blocks can never find its parents; otherwise a verified batch |
| Precheck.MemoryRuleChildSharesParentDepth | src/backend/memory.rs:201-217 | under the memory rule a child gets exactly its parent's depth, from the store or from a parent accepted earlier in the batch |
| Precheck.SettlementChildBelowParent | src/backend/operation.rs:66-79 | under the settlement rule a child is one level deeper than its parent, stored or accepted earlier in the batch |
| ChainTypes.DefaultOperation | src/backend/operation.rs:39-48 | the empty operation: nothing imported, no new head, no auxiliary inserted or removed |
| ChainTypes.DefaultLegacyOperation | src/importer.rs:15-22 | the empty legacy operation: nothing imported, no new head |
| Store.ShapeOf | src/backend/direct.rs:34-46 | the tree shape has one link per stored block, with that block's parent and depth |
| Store.ChainStore.WithGenesis | src/backend/direct.rs:239-243 | a store holding only the parentless genesis block at depth 0, canonical and as head, is well formed, its canonical chain is consistent, and its depth index names only stored blocks |
| Store.ChainStore.Contains | src/backend/direct.rs:189-194 | true exactly when the block is stored |
| Store.ChainStore.DepthAt | src/backend/direct.rs:213-218 | the stored depth, or `NotExist` exactly when the block is not stored |
| Store.ChainStore.BlockAt | src/backend/direct.rs:231-236 | the stored block, or `NotExist` exactly when it is not stored |
| Store.ChainStore.StateAt | src/backend/direct.rs:225-230 | the stored state, or `NotExist` exactly when the block is not stored |
| Store.ChainStore.ChildrenAt | src/backend/direct.rs:219-224 | the stored children list, or `NotExist` exactly when the block is not stored |
| Store.ChainStore.IsCanon | src/backend/direct.rs:195-200 | the stored canonical flag, or `NotExist` exactly when the block is not stored |
| Store.ChainStore.LookupCanonDepth | src/backend/direct.rs:201-206 | the canonical block at a depth, present exactly when the depth is indexed |
| Store.ChainStore.Auxiliary | src/backend/direct.rs:207-212 | the auxiliary under a key, present exactly when the key is stored |
| Store.ChainStore.InsertBlock | src/backend/operation.rs:128-132 | the record under the id is replaced, and nothing else changes |
| Store.ChainStore.PushChild | src/backend/operation.rs:134-137 | the child is appended to the parent's children, and nothing else changes |
| Store.ChainStore.SetCanon | src/backend/operation.rs:143-155 | only the block's canonical flag changes |
| Store.ChainStore.InsertCanonDepthMapping | src/backend/operation.rs:150-155 | only the depth index entry is set |
| Store.ChainStore.RemoveCanonDepthMapping | src/backend/operation.rs:143-148 | only the depth index entry is removed |
| Store.ChainStore.InsertAuxiliary | src/backend/operation.rs:164-166 | only the auxiliary under the key is set |
| Store.ChainStore.RemoveAuxiliary | src/backend/operation.rs:160-162 | only the auxiliary under the key is removed |
| Store.ChainStore.SetHead | src/backend/operation.rs:157 | only the head changes |
| Settlement.KnownDepths | src/backend/operation.rs:68-69 | the depth of every stored block, as the verification pass reads it |
| Settlement.CheckAuxiliaries | src/backend/operation.rs:119-126 | passes exactly when every block named by an inserted auxiliary is stored or being imported |
| Settlement.InsertImported | src/backend/operation.rs:128-132 | every accepted block is written at its depth with no children and not canonical; other records stay |
| Settlement.FixChildren | src/backend/operation.rs:134-137 | each accepted child is appended exactly once to its parent's children; every other field of every record stays |
| Settlement.Retract | src/backend/operation.rs:143-148 | the retracted blocks lose their canonical flag and their depth index entry |
| Settlement.Enact | src/backend/operation.rs:150-155 | the enacted blocks gain their canonical flag and their depth index entry |
| Settlement.Reroute | src/backend/operation.rs:139-158 | the store after retracting and enacting the tree route from the old head to the new one, with the head moved |
| Settlement.InsertAllKeys | src/backend/operation.rs:164-166 | after the insertions a key is present exactly when it was before or some inserted auxiliary has it |
| Settlement.InsertAllLast | src/backend/operation.rs:164-166 | the last inserted auxiliary under a key wins |
| Settlement.InsertAllOther | src/backend/operation.rs:164-166 | a key no insertion touches keeps its auxiliary |
| Settlement.ApplyAuxiliaries | src/backend/operation.rs:160-166 | the removals are applied, then the insertions, in order; nothing else changes |
| Settlement.InsertedIsTree | src/backend/operation.rs:128-132 | writing a verified, consistent batch keeps the store a tree and does not change the depth of any block already stored |
| Settlement.CheckOperation | src/backend/operation.rs:56-126 | `IsGenesis` exactly for a parentless block; `InvalidOperation` exactly for an unorderable batch, an unknown head or an unknown auxiliary block; otherwise a verified batch |
| Settlement.Apply | src/backend/operation.rs:128-166 | the store after writing, child fixing, rerouting and auxiliary updates is the applied form of the verified batch |
| Settlement.Settle | src/backend/operation.rs:52-169 | the outcome and the new store satisfy the settlement relation: each error condition exactly, no change on failure, the applied batch on success |
| Preservation.SettleKeepsWf | src/backend/operation.rs:52-169 | a successful settlement keeps the store well formed: records under their ids, one tree rooted at genesis, stored head |
| Preservation.SettleDepths | src/backend/operation.rs:79 | stored blocks keep their depth, and each imported block is one level below its stored parent |
| Preservation.SettleKeepsAuxSound | src/backend/operation.rs:119-126 | if every auxiliary names only stored blocks before, it does after a successful settlement |
| Preservation.SettledHead | src/backend/operation.rs:139-158 | the head after success is the requested head, or the old one when none was requested |
| Preservation.SettleRecords | src/backend/operation.rs:128-132 | every imported id is stored with the block and state of one of the batch's operations |
| Preservation.SettleKeepsBlocks | src/backend/operation.rs:128-132 | a stored block that is not imported keeps its block |
| Preservation.SettleKeys | src/backend/operation.rs:128-132 | the stored ids after success are the old ones plus the batch's ids |
| Preservation.SettledOneBlock | src/backend/operation.rs:52-169 | a one-block import keeps the store well formed, needs a stored parent, stores the block one level below it, and leaves the old head's depth |
| Preservation.OneBlockKeepsOthers | src/backend/operation.rs:128-132 | a one-block import does not change the parent of any other stored block |
| Preservation.NoChildrenAppended | src/backend/operation.rs:134-137 | when no block is imported, no children list grows |
| Preservation.SettleDefaultChangesNothing | src/backend/operation.rs:39-48 | the empty operation always settles and leaves the store exactly as it was |
| CanonChain.EnactAllStored | src/backend/operation.rs:150-155 | enacting stored blocks into an index of stored blocks keeps every indexed id stored |
| CanonChain.SettleKeepsCanonStored | src/backend/operation.rs:128-158 | after a successful settlement every id of the canonical depth index is still stored |
| CanonChain.ExtendedAncestor | src/backend/operation.rs:128-132 | adding links to a tree without changing old ones keeps every old block's ancestors |
| CanonChain.ExtendedAncestorOrSelf | src/backend/operation.rs:128-132 | adding links keeps the ancestor relation between old blocks |
| CanonChain.FreshInserted | src/backend/operation.rs:128-132 | writing new blocks keeps the head's line and its depth index, and the new blocks are not canonical and not on the line |
| CanonChain.RerouteLine | src/backend/route.rs:45-67 | after rerouting, a block is on the new head's line exactly when enacted, or on the old head's line and not retracted |
| CanonChain.RetractAllAbove | src/backend/operation.rs:143-148 | retracting the upward part of the route leaves exactly the depths up to the common depth indexed |
| CanonChain.EnactAllRun | src/backend/operation.rs:150-155 | enacting blocks at consecutive depths indexes each at its depth and keeps the lower depths |
| CanonChain.EnactedLine | src/backend/route.rs:65-67 | the enacted part of a route is the new head's ancestors above the common depth, in order |
| CanonChain.EnactLine | src/backend/operation.rs:150-155 | enacting the new head's ancestors above the common depth indexes exactly the new head's line |
| CanonChain.Line | src/backend/route.rs:65-67 | the new head's ancestors above the common depth, one per depth |
| CanonChain.Kept | src/backend/operation.rs:143-148 | the old line's index cut at the common depth, with its entries unchanged |
| CanonChain.MovedIsRerouted | src/backend/operation.rs:139-158 | the index after retracting and enacting the route is the kept index with the new line added |
| CanonChain.RerouteIndex | src/backend/operation.rs:139-158 | rerouting an index of the old head's line gives exactly the index of the new head's line |
| CanonChain.KeptHeadConsistent | src/backend/operation.rs:128-137 | new blocks without a head change keep the canonical flags and the index on the head's line |
| CanonChain.ReroutedFlags | src/backend/operation.rs:143-155 | after a reroute the canonical flags mark exactly the new head's line |
| CanonChain.ReroutedIndex | src/backend/operation.rs:143-155 | after a reroute the index names exactly the new head's line |
| CanonChain.OnLineConsistent | src/backend/operation.rs:139-158 | flags and index on the new head's line make the canonical chain consistent |
| CanonChain.MovedHeadConsistent | src/backend/operation.rs:139-158 | new blocks with a head change leave a consistent canonical chain on the new head's line |
| CanonChain.SettleKeepsCanonConsistent | src/backend/operation.rs:52-169 | a successful settlement of blocks not yet stored keeps the store well formed and the canonical flags and index exactly on the head's line |
| CanonChain.ReimportClearsCanon | src/backend/operation.rs:128-132 | without a head change, every re-imported block is stored as not canonical and the head stays, so re-importing the head leaves the canonical chain inconsistent |
| CanonChain.Unstored | src/backend/operation.rs:128-132 | the batch operations whose block is not stored, and no others |
| CanonChain.SkipStored | src/backend/operation.rs:128-132 | the operation with stored blocks dropped from the batch, head change and auxiliary updates kept |
| CanonChain.SettleSkippingStoredKeepsCanon | src/backend/operation.rs:52-169 | settling with stored blocks skipped keeps the store well formed and the canonical chain on the head's line for every batch |
| Memory.DepthsOf | src/backend/memory.rs:203-204 | the depth of every stored entry, as the memory pass reads it |
| Memory.Extended | src/backend/memory.rs:244 | every accepted block is added at its depth, replacing a stored entry, and every other entry stays |
| Memory.MemoryBackend.WithGenesis | src/backend/memory.rs:123-138 | a backend holding only the genesis block at depth 0 with the given storage, as head |
| Memory.MemoryBackend.Head | src/backend/memory.rs:71-73 | the current head |
| Memory.MemoryBackend.Contains | src/backend/memory.rs:75-80 | always succeeds, true exactly when the block is stored |
| Memory.MemoryBackend.DepthAt | src/backend/memory.rs:82-89 | the stored depth, or `NotExist` exactly when the block is not stored |
| Memory.MemoryBackend.BlockAt | src/backend/memory.rs:91-98 | the stored block, or `NotExist` exactly when it is not stored |
| Memory.MemoryBackend.StateAt | src/backend/memory.rs:100-107 | the stored state, or `NotExist` exactly when the block is not stored |
| Memory.MemoryBackend.Commit | src/backend/memory.rs:186-251 | fails with `InvalidOperation`, changing nothing, exactly when the batch cannot be ordered or the new head is unknown; otherwise adds the verified batch and moves the head when asked |
| Memory.CommittedBatch | src/backend/memory.rs:195-244 | a passing commit added a batch verified under the memory rule |
| Memory.ChildStoredAtParentDepth | src/backend/memory.rs:201-217 | a committed block with a stored parent is recorded at the parent's own depth |
| Memory.ParentlessStoredAtZero | src/backend/memory.rs:212 | a committed parentless block is recorded at depth 0 |
| Memory.CommitKeys | src/backend/memory.rs:235-248 | a passing commit keeps every id and adds exactly the batch's ids, and a requested head is stored |
| Direct.DirectBackend.constructor | src/backend/direct.rs:241-243 | the backend wraps the given database |
| Direct.DirectBackend.Commit | src/backend/direct.rs:60-177 | the commit satisfies the settlement relation on the backend's database |
| Direct.DirectBackend.Genesis | src/backend/direct.rs:183-185 | the stored genesis id |
| Direct.DirectBackend.Head | src/backend/direct.rs:186-188 | the stored head |
| Direct.DirectBackend.Contains | src/backend/direct.rs:189-194 | always succeeds, true exactly when the block is stored |
| Direct.DirectBackend.IsCanon | src/backend/direct.rs:195-200 | the canonical flag, or `NotExist` exactly when the block is not stored |
| Direct.DirectBackend.LookupCanonDepth | src/backend/direct.rs:201-206 | always succeeds; the canonical block at a depth exactly when the depth is indexed |
| Direct.DirectBackend.Auxiliary | src/backend/direct.rs:207-212 | always succeeds; the auxiliary under a key exactly when it is stored |
| Direct.DirectBackend.DepthAt | src/backend/direct.rs:213-218 | the depth, or `NotExist` exactly when the block is not stored |
| Direct.DirectBackend.ChildrenAt | src/backend/direct.rs:219-224 | the children, or `NotExist` exactly when the block is not stored |
| Direct.DirectBackend.StateAt | src/backend/direct.rs:225-230 | the state, or `NotExist` exactly when the block is not stored |
| Direct.DirectBackend.BlockAt | src/backend/direct.rs:231-236 | the block, or `NotExist` exactly when it is not stored |
| Action.ImportAction.constructor | src/import/action.rs:24-30 | a builder over the backend with nothing pending |
| Action.ImportAction.Backend | src/import/action.rs:33-35 | the backend the builder was made for |
| Action.ImportAction.ImportRaw | src/import/action.rs:43-45 | the raw import is appended to the pending imports; nothing else changes |
| Action.ImportAction.ImportBlock | src/import/action.rs:38-40 | the block and state are appended as one raw import |
| Action.ImportAction.SetHead | src/import/action.rs:48-50 | the pending head becomes the given id; the last call wins |
| Action.ImportAction.InsertAuxiliary | src/import/action.rs:53-55 | the auxiliary is appended to the pending insertions |
| Action.ImportAction.RemoveAuxiliary | src/import/action.rs:58-60 | the key is appended to the pending removals |
| Action.ImportAction.Commit | src/import/action.rs:12-18 | the backend settles exactly the collected operation |
| Action.CollectFromEmpty | src/import/action.rs:24-61 | from nothing pending, the imports are collected in call order and the head is the last one set |
| Importers.Prepared | src/chain/importer.rs:26-35 | a parentless block is `IsGenesis`; an unknown parent is `NotExist`; otherwise the block with the executor's state on its parent's state, or the executor's error |
| Importers.MemoryStates | src/backend/memory.rs:100-107 | the state of every stored block |
| Importers.Lifted | src/chain/importer.rs:49-57 | a backend outcome passes through, its error wrapped as a backend error |
| Importers.Importer.constructor | src/chain/importer.rs:15-20 | an importer over the backend and executor with nothing pending |
| Importers.Importer.ImportBlock | src/chain/importer.rs:26-35 | queues the prepared import exactly when preparation succeeds; otherwise reports its error and queues nothing |
| Importers.Importer.ImportRaw | src/chain/importer.rs:37-41 | always succeeds, appending the operation |
| Importers.Importer.SetHead | src/chain/importer.rs:43-47 | always succeeds, setting the pending head |
| Importers.Importer.Commit | src/chain/importer.rs:49-57 | the pending operation is emptied whatever happens, and the backend commit's outcome is reported |
| Importers.Importer.Discard | src/chain/importer.rs:59-63 | always succeeds, emptying the pending operation |
| Importers.Chain.constructor | src/importer.rs:42-48 | a chain over the backend and executor with nothing pending |
| Importers.Chain.ImportBlock | src/importer.rs:50-61 | queues the prepared import exactly when preparation succeeds; otherwise reports its error and queues nothing |
| Importers.Chain.SetHead | src/importer.rs:63-67 | always succeeds, setting the pending head |
| Importers.Chain.Commit | src/importer.rs:69-77 | the pending operation is emptied whatever happens, and the backend commit's outcome is reported |
| Importers.Chain.Discard | src/importer.rs:79-83 | always succeeds, emptying the pending operation |
| KeyValueState.Read | src/backend/state.rs:24-27 | the value under a key, present exactly when the key is stored |
| KeyValueState.KeyValueMemoryState.constructor | src/backend/state.rs:7-10 | the default state holds no keys |
| KeyValueState.KeyValueMemoryState.FromStorage | src/backend/memory.rs:33-35 | a state over the given storage |
| KeyValueState.KeyValueMemoryState.ReadStorage | src/backend/state.rs:24-27 | always succeeds with the value under the key, if any |
| KeyValueState.KeyValueMemoryState.WriteStorage | src/backend/state.rs:29-31 | only the key is set to the value |
| KeyValueState.KeyValueMemoryState.RemoveStorage | src/backend/state.rs:33-35 | only the key is removed |
| KeyValueState.ReadAfterWrite | src/backend/state.rs:24-31 | a read after a write of the same key returns the written value |
| KeyValueState.ReadAfterRemove | src/backend/state.rs:24-35 | a read after removing a key finds nothing |
| KeyValueState.OtherKeysUnchanged | src/backend/memory.rs:45-56 | writing or removing one key leaves every other key's read unchanged |
| KeyValueState.DefaultIsEmpty | src/backend/state.rs:7-10 | the default state answers every read with nothing |
| BestDepth.Cmp | network/src/sync/depth.rs:13-17 | less, equal and greater each exactly when the first depth is below, equal to or above the second |
| BestDepth.CmpIsDepthOrder | network/src/sync/depth.rs:13-23 | statuses compare as their depths: greater and equal exactly by depth, antisymmetric and transitive |
| BestDepth.Generate | network/src/sync/depth.rs:44-53 | the status is the head's depth |
| BestDepth.NewDepth | network/src/sync/depth.rs:105-110 | the new depth is the stored parent's depth plus one, and 1 for a parentless block |
| BestDepth.HeadChoice | network/src/sync/depth.rs:117-119 | the new block becomes the head exactly when its new depth is strictly greater than the head's depth |
| BestDepth.HeadStateOperation | network/src/sync/depth.rs:92-120 | panics exactly when the parent is not stored; otherwise the block executed on the head's state with the head choice, or the executor's error |
| BestDepth.ParentStateOperation | network/simple/src/lib.rs:203-223 | panics exactly when the parent is not stored; `IsGenesis` exactly for a parentless block; otherwise the block executed on its parent's state with the head choice, or the executor's error |
| BestDepth.StatesOf | network/simple/src/lib.rs:204 | the state of every stored block |
| BestDepth.Reported | examples/counter/src/network/mod.rs:171-175 | propagated errors are reported as they are; unwrapped ones as a panic |
| BestDepth.ImportedOperation | network/src/sync/depth.rs:92-120 | the operation of the head-state or parent-state importer, by the importer's kind |
| BestDepth.Committed | network/src/sync/depth.rs:120 | the commit's outcome, with a failure reported as a backend error |
| BestDepth.BestDepthImporter.constructor | network/src/sync/depth.rs:79-81 | an importer over the backend and executor |
| BestDepth.BestDepthImporter.Prepare | network/src/sync/depth.rs:98-119 | the reads before the commit produce exactly the importer's operation or error |
| BestDepth.BestDepthImporter.ImportBlock | network/src/sync/depth.rs:92-123 | an error before the commit leaves the store unchanged and is reported; otherwise the operation is settled and the outcome reported |
| BestDepth.ExecutionBase | network/simple/src/lib.rs:203-219 | the head's state for the head-state importer and the parent's state for the others |
| BestDepth.SettledSingleImport | network/src/sync/depth.rs:116-120 | a settled single import keeps the store well formed, stores the block at its new depth, and makes it the head exactly when strictly deeper |
| BestDepth.HeadDepthNeverDecreases | network/src/sync/depth.rs:92-123 | after any import the store is well formed and the head is at least as deep; a failure changes nothing; a success stores the block at its parent's depth plus one with the executed state, and moves the head exactly when strictly deeper |
| BestDepth.ImportKeepsCanonStored | network/src/sync/depth.rs:92-123 | any import keeps every id of the canonical depth index stored |
| BestDepth.SettledNewBlock | network/src/sync/depth.rs:116-120 | settling one new block keeps the store well formed and its canonical chain consistent |
| BestDepth.ImportNewKeepsCanonConsistent | network/src/sync/depth.rs:92-123 | importing a block that is not stored yet keeps the canonical chain consistent, whether it passes or fails |
| BestDepth.ReimportedHeadLosesCanon | network/src/sync/depth.rs:92-123 | a successful re-import of the head keeps it as head but stores it as not canonical, so the canonical chain is no longer consistent |
| Sync.StatusReply | network/src/sync/mod.rs:42-56 | a single request from just above the own head exactly when the peer's status is greater; 256 blocks, or exactly the depths up to the peer's in the counter example |
| Sync.CanonRun | network/src/sync/mod.rs:61-73 | at most `count` blocks |
| Sync.CanonRunIsCanonical | network/src/sync/mod.rs:57-78 | the reply holds the canonical block of each depth from the start, in order, and stops short only at a depth with no canonical block |
| Sync.CanonRunStep | network/src/sync/mod.rs:64-72 | one depth of the reply: its canonical block then the rest, or nothing when the depth is not canonical |
| Sync.ResponseNext | network/src/sync/mod.rs:82-90 | a passing import keeps the response's progress; a failing one ends the response with the imports in order |
| Sync.ResponseComplete | network/src/sync/mod.rs:82-90 | when every block is imported, the response is imported in order |
| Sync.ResponseKeepsBestDepth | network/src/sync/mod.rs:79-91 | importing a response keeps the store well formed and never lowers the head's depth |
| Sync.ResponseKeepsCanonStored | network/src/sync/mod.rs:79-91 | importing a response keeps every id of the canonical depth index stored |
| Sync.BestDepthSync.constructor | network/simple/src/lib.rs:96-101 | the sync handler over the backend and importer |
| Sync.BestDepthSync.OnTick | network/src/sync/mod.rs:27-34 | one broadcast of the own status, the head's depth |
| Sync.BestDepthSync.OnStatus | network/src/sync/mod.rs:42-56 | the status reply to the peer's status against the own head's depth |
| Sync.BestDepthSync.OnBlockRequest | network/src/sync/mod.rs:57-78 | one response to the peer holding the canonical run from the start depth |
| Sync.BestDepthSync.OnBlockResponse | network/src/sync/mod.rs:79-91 | the blocks are imported in order, stopping after the first failure, from the old store to the new one |
| Sync.BestDepthSync.OnMessage | network/src/sync/mod.rs:36-93 | dispatches on the message; only a response changes the store, each branch sends what its handler sends, and the store stays well formed with a stored depth index |
| CounterRuntime.HashOfContent | examples/counter/src/runtime.rs:15-22 | the hash depends only on the parent and the extrinsics; two verifying blocks with the same content are the same block |
| CounterRuntime.FixHash | examples/counter/src/runtime.rs:15-26 | the re-hashed block verifies and keeps its parent and extrinsics |
| CounterRuntime.FixHashIdempotent | examples/counter/src/runtime.rs:20-26 | re-hashing twice is re-hashing once, and a block verifies exactly when re-hashing leaves it unchanged |
| CounterRuntime.Genesis | examples/counter/src/runtime.rs:28-36 | the genesis block has no parent and no extrinsics, and verifies |
| CounterRuntime.U128BoundIsPow256 | examples/counter/src/runtime.rs:91 | sixteen bytes hold exactly the unsigned 128-bit range |
| CounterRuntime.EncodeLE | examples/counter/src/runtime.rs:99 | the encoding has the given width |
| CounterRuntime.DecodeLE | examples/counter/src/runtime.rs:91 | the decoded value fits the number of bytes read |
| CounterRuntime.DecodeEncodeLE | examples/counter/src/runtime.rs:91-99 | decoding a little-endian encoding gives back the value |
| CounterRuntime.EncodeDecodeLE | examples/counter/src/runtime.rs:91-99 | encoding a decoded value at the same width gives back the bytes |
| CounterRuntime.EncodeU128 | examples/counter/src/runtime.rs:99 | a counter is written as sixteen bytes |
| CounterRuntime.DecodeU128 | examples/counter/src/runtime.rs:91 | decoding fails exactly when fewer than sixteen bytes are stored; a decoded value is below the 128-bit bound |
| CounterRuntime.U128RoundTrip | examples/counter/src/runtime.rs:91-99 | a written counter reads back as itself |
| CounterRuntime.U128DecodeThenEncode | examples/counter/src/runtime.rs:91-99 | a readable value re-encodes to the first sixteen stored bytes |
| CounterRuntime.ReadCounter | examples/counter/src/runtime.rs:81-96 | a storage error is a failure; a missing counter is 0; stored bytes give `StateCorruption` exactly when too short; a read counter is in range and re-encodes to the stored prefix |
| CounterRuntime.WriteCounter | examples/counter/src/runtime.rs:98-100 | a written counter reads back, and every other key is unchanged |
| CounterRuntime.AddWrapping | examples/counter/src/runtime.rs:121 | the sum stays in the 128-bit range, and is the exact sum when it does not overflow |
| CounterRuntime.TotalFront | examples/counter/src/runtime.rs:119-123 | the total of the extrinsics is the first amount plus the total of the rest |
| CounterRuntime.WrapThenAdd | examples/counter/src/runtime.rs:119-123 | adding two amounts in turn is adding their sum, with wrap-around |
| CounterRuntime.AddAll | examples/counter/src/runtime.rs:119-123 | adding every extrinsic in order is adding their total |
| CounterRuntime.Execute | examples/counter/src/runtime.rs:108-128 | `HashMismatch` exactly for an unverified block; `StateCorruption` for an unreadable counter; otherwise the storage with the counter increased by the extrinsics' total |
| CounterRuntime.ExecuteAddsTotal | examples/counter/src/runtime.rs:108-128 | without overflow the counter after execution is the old counter plus the total, and every other key is unchanged |
| CounterRuntime.ExecuteBlock | examples/counter/src/runtime.rs:108-128 | the loop over the extrinsics agrees with `Execute`; a failure leaves the state unchanged |
| CounterRuntime.InitializeBlock | examples/counter/src/runtime.rs:139-150 | always succeeds with a verifying block whose parent is the given block, carrying its extrinsics |
| CounterRuntime.ApplyExtrinsic | examples/counter/src/runtime.rs:152-170 | succeeds exactly when the counter is readable; it then adds the amount and re-hashes the block, whose extrinsics are unchanged; on failure the state is unchanged |
| CounterRuntime.FinalizeBlock | examples/counter/src/runtime.rs:172-180 | always succeeds with the re-hashed block, which verifies |
| CounterRuntime.BuildOnHead | examples/counter/src/main.rs:96-121 | finalizing a freshly initialized block changes nothing, and the built block's parent is the head |

## Left out

- Locks and threads are not modelled: the import lock, `RwLock` and `Arc` sharing, and the builder thread. Every call is one atomic step.
- The network transport (channels, libp2p and the local peer loop) is not modelled. Handlers return the messages they send as a list of outgoing messages.
- The `println!` warnings are not modelled.
- Block ids are content hashes. The settlement requires that equal ids carry equal parents, within the batch and against the store (`SameIdSameParent`, `StoredParentsAgree`, `SameParentIfStored`, `Coherent`). Without this, the source's own `tree_route` could fail its `expect`.
- Sync.BestDepthSync.OnBlockRequest: requires that every canonical depth names a stored block (`CanonStored`). This stands in for the "Found hash cannot fail" `expect`. `Store.ChainStore.WithGenesis` establishes it, and settlement, imports, responses and `OnMessage` keep it.
- Store queries never fail in the model. `expect`s on a well-formed store (the head's depth and state) are preconditions rather than panics.
- Children lists are filled in `HashMap` iteration order in the source. Settlement is therefore specified as a relation (`Settlement.Settled`): each child is appended exactly once, in an unspecified order.
- src/chain/action.rs (`begin_import`) is not part of this model. The simple and counter best-depth importers are modelled through `ImportAction`, with the same execution on the parent's state and the same genesis refusal.
- `unwrap` panics that an input can trigger (an unknown parent in a best-depth import, the counter importer's unwrapped errors) are modelled as the `Panicked` error, not as aborting the process.
- `usize`/`u64` widths are unbounded, including `start_depth + count` in a block request and the depth counters.
- Store.ChainStore.WithGenesis: `DirectBackend::new` wraps an existing database, and the source has no constructor that builds one. The store with only the genesis block is the model's own starting point.
- Memory.MemoryBackend.WithGenesis: the `assert!` at src/backend/memory.rs:124 that the block has no parent is a precondition, not a panic.
- The database trait of src/backend/database.rs is modelled by the `Store.ChainStore` class. The stubs under src/backends are not part of this model.
- The `PartialEq` of `BestDepthStatus` in network/src/sync/depth.rs:25-29 calls itself, and is not modelled. Statuses compare through `Cmp`.
- The generic status type of the sync is modelled only as `BestDepthStatus`.
- SHA3-256 and the parity codec of the block hash are a `Hasher` function parameter. The 128-bit counter codec is modelled concretely as sixteen little-endian bytes.
- CounterRuntime.AddWrapping: models the `+=` on `u128` as wrap-around, as in a release build. A debug build panics on overflow instead.
- CounterRuntime.Execute: amounts of extrinsics are unbounded naturals, not `u128` values. Only their wrapped sum matters.
- CounterRuntime.InitializeBlock: the unused state and inherent parameters of `initialize_block` and `finalize_block` are left out.
- The `seal` call of the counter example's builder (examples/counter/src/main.rs:113) is not part of this model; `CounterRuntime.BuildOnHead` stops at the finalized block.
- `Status` requests 256 blocks in network/src/sync/mod.rs and network/simple/src/lib.rs, but exactly the depth gap in the counter example. Both are modelled through the `Sync.RequestSize` parameter.

## Findings

| source | as written | input that shows it | evidently intended | confidence | as-written member | corrected member |
|---|---|---|---|---|---|---|
| src/backend/operation.rs:128-132 | every batch block is written with no children and `is_canon = false`, also when it is already stored | a store whose head `H` is a canonical child of genesis, and an operation that imports `H` again with no new head, as `BestDepthImporter::import_block` does for a block at the head's depth: the head stays `H` but is stored as not canonical, with no children | a stored block keeps its record, so the head stays canonical and its children stay listed | medium, not executed | CanonChain.ReimportClearsCanon | CanonChain.SettleSkippingStoredKeepsCanon |

The settlement and the importers above model the code as written, since that
is what the backends and the sync run; `CanonChain.SkipStored` is the
corrected settlement, proved to keep the canonical chain consistent.

