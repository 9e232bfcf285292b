/**
 * The best-depth policy (network/src/sync/depth.rs, with the same rules in
 * network/simple/src/lib.rs and the counter example's network module):
 * statuses are ordered by depth alone, a node's status is its head's depth,
 * and an imported block becomes the head only when it is strictly deeper
 * than the current head.
 */
module BestDepth {
  import opened Wrappers
  import opened ChainTypes
  import opened Tree
  import opened Store
  import opened Precheck
  import opened Settlement
  import opened Preservation
  import opened Direct
  import opened Action
  import opened Importers
  import opened CanonChain

  datatype Ordering = Less | Equal | Greater

  datatype BestDepthStatus = BestDepthStatus(bestDepth: nat)

  /** `Ord::cmp` of `BestDepthStatus`: the comparison of the depths. */
  function Cmp(a: BestDepthStatus, b: BestDepthStatus): (o: Ordering)
    ensures o == Less <==> a.bestDepth < b.bestDepth
    ensures o == Equal <==> a.bestDepth == b.bestDepth
    ensures o == Greater <==> a.bestDepth > b.bestDepth
  {
    if a.bestDepth < b.bestDepth then Less
    else if a.bestDepth == b.bestDepth then Equal
    else Greater
  }

  /** The ordering is the order of the depths: antisymmetric, total and transitive. */
  lemma CmpIsDepthOrder(a: BestDepthStatus, b: BestDepthStatus, c: BestDepthStatus)
    ensures Cmp(a, b) == Greater <==> a.bestDepth > b.bestDepth
    ensures Cmp(a, b) == Equal <==> a.bestDepth == b.bestDepth
    ensures Cmp(a, b) == Less <==> Cmp(b, a) == Greater
    ensures Cmp(a, b) == Greater && Cmp(b, c) == Greater ==> Cmp(a, c) == Greater
  {
  }

  /** `generate`: the status is the head's depth. */
  function Generate(db: ChainStore): (s: BestDepthStatus)
    reads db
    requires db.head in db.blocks
    ensures s.bestDepth == db.View().blocks[db.View().head].depth
  {
    BestDepthStatus(db.blocks[db.head].depth)
  }

  /** The depth an imported block is given: its stored parent's depth plus one, or 1 without a parent. */
  function NewDepth(v: StoreView, block: Block): (d: nat)
    requires block.parentHash.Some? ==> block.parentHash.value in v.blocks
    ensures d >= 1
    ensures block.parentHash.Some? ==> d == v.blocks[block.parentHash.value].depth + 1
  {
    match block.parentHash
    case None => 1
    case Some(p) => v.blocks[p].depth + 1
  }

  /** The head choice of the policy: the new block when strictly deeper than the head, else none. */
  function HeadChoice(v: StoreView, block: Block): (h: Option<Id>)
    requires v.head in v.blocks
    requires block.parentHash.Some? ==> block.parentHash.value in v.blocks
    ensures h.Some? <==> NewDepth(v, block) > v.blocks[v.head].depth
    ensures h.Some? ==> h.value == block.hash
  {
    if NewDepth(v, block) > v.blocks[v.head].depth then Some(block.hash) else None
  }

  /**
   * The operation `BestDepthImporter::import_block` of depth.rs commits: the
   * block executed on the head's state (not its parent's), with the head
   * choice. A parent that is not stored makes the parent-depth `unwrap`
   * panic; a failed execution is the executor's error.
   */
  function HeadStateOperation(v: StoreView, executor: Executor, block: Block): (r: Result<Operation, ImportError>)
    requires v.head in v.blocks
    ensures r == Err(Panicked) <==> block.parentHash.Some? && block.parentHash.value !in v.blocks
    ensures r.Ok? ==> && executor(block, v.blocks[v.head].state).Ok?
                      && r.value.importBlock == [ImportOperation(block, executor(block, v.blocks[v.head].state).value)]
                      && r.value.setHead == HeadChoice(v, block)
                      && r.value.insertAuxiliaries == [] && r.value.removeAuxiliaries == []
    ensures r.Err? && r.error != Panicked ==>
      executor(block, v.blocks[v.head].state).Err? && r.error == Executor(executor(block, v.blocks[v.head].state).error)
  {
    if block.parentHash.Some? && block.parentHash.value !in v.blocks then Err(Panicked)
    else
      match executor(block, v.blocks[v.head].state)
      case Err(e) => Err(Executor(e))
      case Ok(state) => Ok(Operation([ImportOperation(block, state)], HeadChoice(v, block), [], []))
  }

  /**
   * The operation the simple and counter importers commit through the
   * chain importer they begin: the block executed on its parent's state,
   * with the head choice. A parent that is not stored makes the
   * parent-depth `unwrap` panic first; a parentless block is refused as
   * genesis by the chain importer; a failed execution is the executor's error.
   */
  function ParentStateOperation(v: StoreView, executor: Executor, block: Block): (r: Result<Operation, ImportError>)
    requires v.head in v.blocks
    ensures r == Err(Panicked) <==> block.parentHash.Some? && block.parentHash.value !in v.blocks
    ensures r == Err(ImportIsGenesis) <==> block.parentHash.None?
    ensures r.Ok? ==> && block.parentHash.Some?
                      && executor(block, v.blocks[block.parentHash.value].state).Ok?
                      && r.value.importBlock == [ImportOperation(block, executor(block, v.blocks[block.parentHash.value].state).value)]
                      && r.value.setHead == HeadChoice(v, block)
                      && r.value.insertAuxiliaries == [] && r.value.removeAuxiliaries == []
    ensures r.Err? && r.error != Panicked && r.error != ImportIsGenesis ==>
      && block.parentHash.Some?
      && executor(block, v.blocks[block.parentHash.value].state).Err?
      && r.error == Executor(executor(block, v.blocks[block.parentHash.value].state).error)
  {
    if block.parentHash.Some? && block.parentHash.value !in v.blocks then Err(Panicked)
    else
      match Prepared(StatesOf(v.blocks), executor, block)
      case Err(e) => Err(e)
      case Ok(imported) => Ok(Operation([imported], HeadChoice(v, block), [], []))
  }

  /** The state of every stored block. */
  function StatesOf(blocks: Blocks): (states: map<Id, StateMap>)
    ensures states.Keys == blocks.Keys
    ensures forall x :: x in states ==> states[x] == blocks[x].state
  {
    map x | x in blocks :: blocks[x].state
  }

  /** Which state a best-depth importer executes the block on. */
  datatype Execution = OnHeadState | OnParentState

  /** How a best-depth importer reports a failure: returned with `?`, or a panic of `unwrap`. */
  datatype Failures = Propagated | Unwrapped

  /** The error an importer reports for a failure `e`. */
  function Reported(failures: Failures, e: ImportError): (r: ImportError)
    ensures failures == Propagated ==> r == e
    ensures failures == Unwrapped ==> r == Panicked
  {
    if failures == Propagated then e else Panicked
  }

  /** The operation an importer of the given execution commits for `block`, or the error it stops with. */
  function ImportedOperation(v: StoreView, executor: Executor, execution: Execution, block: Block): (r: Result<Operation, ImportError>)
    requires v.head in v.blocks
    ensures execution == OnHeadState ==> r == HeadStateOperation(v, executor, block)
    ensures execution == OnParentState ==> r == ParentStateOperation(v, executor, block)
  {
    if execution == OnHeadState then HeadStateOperation(v, executor, block)
    else ParentStateOperation(v, executor, block)
  }

  /** A block already stored under its id has the same parent there (ids are content hashes). */
  ghost predicate SameParentIfStored(v: StoreView, block: Block)
  {
    block.hash in v.blocks ==> v.blocks[block.hash].block.parentHash == block.parentHash
  }

  /**
   * What importing `block` does: an error before the commit leaves the store
   * as it was and is reported; otherwise the operation is settled and a
   * settlement error is reported as a backend error.
   */
  ghost predicate BestDepthImported(before: StoreView, executor: Executor, execution: Execution, failures: Failures,
                                    block: Block, after: StoreView, r: Outcome<ImportError>)
    requires before.head in before.blocks
  {
    match ImportedOperation(before, executor, execution, block)
    case Err(e) => r == Fail(Reported(failures, e)) && after == before
    case Ok(op) => exists s :: Settled(before, op, after, s) && r == Committed(failures, s)
  }

  /** The outcome an importer reports for the backend's commit outcome. */
  function Committed(failures: Failures, s: Outcome<BackendError>): (r: Outcome<ImportError>)
    ensures r.Pass? <==> s.Pass?
    ensures s.Fail? ==> r.error == Reported(failures, Backend(s.error))
  {
    match s
    case Pass => Pass
    case Fail(cause) => Fail(Reported(failures, Backend(cause)))
  }

  /**
   * `BestDepthImporter` of network/src/sync/depth.rs (executes on the head's
   * state, propagates errors), of network/simple/src/lib.rs (executes on the
   * parent's state, propagates errors) and of the counter example's network
   * modules (executes on the parent's state, unwraps errors).
   */
  class BestDepthImporter {
    const backend: DirectBackend
    const executor: Executor
    const execution: Execution
    const failures: Failures

    constructor (executor: Executor, backend: DirectBackend, execution: Execution, failures: Failures)
      ensures this.backend == backend && this.executor == executor
      ensures this.execution == execution && this.failures == failures
    {
      this.backend := backend;
      this.executor := executor;
      this.execution := execution;
      this.failures := failures;
    }

    /**
     * The reads before the commit: the head's depth, the new depth (the
     * parent-depth `unwrap` panics on an unknown parent), and the block
     * executed on the base state.
     */
    method Prepare(block: Block) returns (r: Result<Operation, ImportError>)
      requires Wf(backend.db.View())
      ensures r == ImportedOperation(backend.db.View(), executor, execution, block)
    {
      var currentHead := backend.Head();
      var currentDepth := backend.DepthAt(currentHead).value;
      var newDepth := 1;
      if block.parentHash.Some? {
        var parentDepth := backend.DepthAt(block.parentHash.value);
        if parentDepth.Err? {
          return Err(Panicked);
        }
        newDepth := parentDepth.value + 1;
      }
      var base;
      if execution == OnHeadState {
        base := backend.StateAt(currentHead).value;
      } else if block.parentHash.None? {
        return Err(ImportIsGenesis);
      } else {
        base := backend.StateAt(block.parentHash.value).value;
      }
      var executed := executor(block, base);
      if executed.Err? {
        return Err(Executor(executed.error));
      }
      var head := if newDepth > currentDepth then Some(block.hash) else None;
      r := Ok(Operation([ImportOperation(block, executed.value)], head, [], []));
    }

    method ImportBlock(block: Block) returns (r: Outcome<ImportError>)
      requires Wf(backend.db.View()) && SameParentIfStored(backend.db.View(), block)
      modifies backend.db
      ensures BestDepthImported(old(backend.db.View()), executor, execution, failures, block, backend.db.View(), r)
    {
      var prepared := Prepare(block);
      if prepared.Err? {
        return Fail(Reported(failures, prepared.error));
      }
      var action := new ImportAction(backend);
      action.ImportBlock(block, prepared.value.importBlock[0].state);
      if prepared.value.setHead.Some? {
        action.SetHead(block.hash);
      }
      assert action.pending == prepared.value;
      var committed := action.Commit();
      r := Committed(failures, committed);
    }
  }

  /** The state an importer of the given execution runs the block on. */
  function ExecutionBase(v: StoreView, execution: Execution, block: Block): (st: StateMap)
    requires v.head in v.blocks
    requires execution == OnParentState ==> block.parentHash.Some? && block.parentHash.value in v.blocks
    ensures execution == OnHeadState ==> st == v.blocks[v.head].state
    ensures execution == OnParentState ==> st == v.blocks[block.parentHash.value].state
  {
    if execution == OnHeadState then v.blocks[v.head].state else v.blocks[block.parentHash.value].state
  }

  /**
   * A successful single-block import with the head choice of the policy:
   * the store stays well formed, the block is stored at its new depth with
   * the given state, and it becomes the head exactly when that depth is
   * strictly greater than the old head's, which otherwise stays the head.
   */
  lemma SettledSingleImport(before: StoreView, block: Block, st: StateMap, after: StoreView)
    requires Wf(before) && SameParentIfStored(before, block)
    requires block.parentHash.Some? ==> block.parentHash.value in before.blocks
    requires Settled(before, Operation([ImportOperation(block, st)], HeadChoice(before, block), [], []), after, Pass)
    ensures Wf(after)
    ensures after.blocks[after.head].depth >= before.blocks[before.head].depth
    ensures block.parentHash.Some? && block.hash in after.blocks
    ensures after.blocks[block.hash].depth == NewDepth(before, block)
    ensures after.blocks[block.hash].state == st
    ensures after.head == if NewDepth(before, block) > before.blocks[before.head].depth then block.hash else before.head
  {
    SettledOneBlock(before, block, st, HeadChoice(before, block), after);
  }

  /**
   * The best depth never decreases: after an import, successful or not, the
   * store is still well formed and its head is at least as deep as before.
   * A successful import stores the block at its new depth (its parent's
   * depth plus one) with the state executed on the importer's base state,
   * and makes it the head exactly when that depth is strictly greater than
   * the old head's; on a tie the old head stays.
   */
  lemma HeadDepthNeverDecreases(before: StoreView, executor: Executor, execution: Execution, failures: Failures,
                                block: Block, after: StoreView, r: Outcome<ImportError>)
    requires Wf(before) && SameParentIfStored(before, block)
    requires BestDepthImported(before, executor, execution, failures, block, after, r)
    ensures Wf(after)
    ensures after.blocks[after.head].depth >= before.blocks[before.head].depth
    ensures r.Fail? ==> after == before
    ensures r.Pass? ==> block.parentHash.Some? && block.parentHash.value in before.blocks && block.hash in after.blocks
    ensures r.Pass? ==> after.blocks[block.hash].depth == NewDepth(before, block)
    ensures r.Pass? ==> after.head == if NewDepth(before, block) > before.blocks[before.head].depth then block.hash else before.head
    ensures r.Pass? ==> Ok(after.blocks[block.hash].state) == executor(block, ExecutionBase(before, execution, block))
  {
    var res := ImportedOperation(before, executor, execution, block);
    if res.Ok? && r.Pass? {
      var s :| Settled(before, res.value, after, s) && r == Committed(failures, s);
      var st := res.value.importBlock[0].state;
      assert res.value == Operation([ImportOperation(block, st)], HeadChoice(before, block), [], []);
      SettledSingleImport(before, block, st, after);
    }
  }

  /** An import, successful or not, keeps every id of the canonical depth index stored. */
  lemma ImportKeepsCanonStored(before: StoreView, executor: Executor, execution: Execution, failures: Failures,
                               block: Block, after: StoreView, r: Outcome<ImportError>)
    requires before.head in before.blocks && CanonStored(before)
    requires BestDepthImported(before, executor, execution, failures, block, after, r)
    ensures CanonStored(after)
  {
    var res := ImportedOperation(before, executor, execution, block);
    if res.Ok? {
      var s :| Settled(before, res.value, after, s) && r == Committed(failures, s);
      if s.Pass? {
        SettleKeepsCanonStored(before, res.value, after);
      }
    }
  }

  /** A successful one-block settlement of a block that is not stored keeps the canonical chain consistent. */
  lemma SettledNewBlock(before: StoreView, block: Block, st: StateMap, setHead: Option<Id>, after: StoreView)
    requires Wf(before) && CanonConsistent(before) && block.hash !in before.blocks
    requires Settled(before, Operation([ImportOperation(block, st)], setHead, [], []), after, Pass)
    ensures Wf(after) && CanonConsistent(after)
  {
    OneBlockConsistent(before, block, st);
    SettleKeepsCanonConsistent(before, Operation([ImportOperation(block, st)], setHead, [], []), after);
  }

  /**
   * Importing a block that is not stored yet keeps the canonical chain the
   * head's line of ancestors, whether the block becomes the head or not.
   */
  lemma ImportNewKeepsCanonConsistent(before: StoreView, executor: Executor, execution: Execution, failures: Failures,
                                      block: Block, after: StoreView, r: Outcome<ImportError>)
    requires Wf(before) && CanonConsistent(before) && block.hash !in before.blocks
    requires BestDepthImported(before, executor, execution, failures, block, after, r)
    ensures Wf(after) && CanonConsistent(after)
  {
    var res := ImportedOperation(before, executor, execution, block);
    if res.Ok? {
      var s :| Settled(before, res.value, after, s) && r == Committed(failures, s);
      if s.Pass? {
        var st := res.value.importBlock[0].state;
        assert res.value == Operation([ImportOperation(block, st)], HeadChoice(before, block), [], []);
        SettledNewBlock(before, block, st, HeadChoice(before, block), after);
      }
    }
  }

  /**
   * Importing the head's own block again succeeds without moving the head
   * (its depth is not greater than the head's), and the rewritten record
   * leaves the head off the canonical chain.
   */
  lemma ReimportedHeadLosesCanon(before: StoreView, executor: Executor, execution: Execution, failures: Failures,
                                 block: Block, after: StoreView, r: Outcome<ImportError>)
    requires Wf(before) && block.hash == before.head && SameParentIfStored(before, block)
    requires BestDepthImported(before, executor, execution, failures, block, after, r) && r.Pass?
    ensures Wf(after) && after.head == before.head
    ensures !after.blocks[after.head].isCanon && !CanonConsistent(after)
  {
    HeadDepthNeverDecreases(before, executor, execution, failures, block, after, r);
    var res := ImportedOperation(before, executor, execution, block);
    var s :| Settled(before, res.value, after, s) && r == Committed(failures, s);
    assert LinkedAt(ShapeOf(before.blocks), before.head);
    assert res.value.setHead.None?;
    var st := res.value.importBlock[0].state;
    assert res.value.importBlock == [ImportOperation(block, st)];
    SingletonBatch(block, st);
    ReimportClearsCanon(before, res.value, after);
  }
}
