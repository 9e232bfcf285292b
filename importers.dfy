/**
 * The importers of the older APIs: `Importer` (src/chain/importer.rs) and
 * `Chain` (src/importer.rs). Both fetch the parent's state from the backend,
 * run the executor on it, queue the block with the executed state, and
 * commit the queued operation in one backend call. Their backend is the
 * in-memory backend, whose commit takes the same two-field operation.
 */
module Importers {
  import opened Wrappers
  import opened ChainTypes
  import opened Memory

  /**
   * The import a block yields given the states of the stored blocks: a
   * parentless block is refused, a parent the backend does not hold is the
   * backend's `NotExist`, and a failed execution is the executor's error;
   * otherwise the block with the executed parent state.
   */
  function Prepared(states: map<Id, StateMap>, executor: Executor, block: Block): (r: Result<ImportOperation, ImportError>)
    ensures block.parentHash.None? ==> r == Err(ImportIsGenesis)
    ensures block.parentHash.Some? && block.parentHash.value !in states ==> r == Err(Backend(NotExist))
    ensures r.Ok? <==> block.parentHash.Some? && block.parentHash.value in states
                       && executor(block, states[block.parentHash.value]).Ok?
    ensures r.Ok? ==> r.value.block == block && Ok(r.value.state) == executor(block, states[block.parentHash.value])
    ensures r.Err? && block.parentHash.Some? && block.parentHash.value in states ==>
      r.error == Executor(executor(block, states[block.parentHash.value]).error)
  {
    match block.parentHash
    case None => Err(ImportIsGenesis)
    case Some(p) =>
      if p !in states then Err(Backend(NotExist))
      else
        match executor(block, states[p])
        case Err(e) => Err(Executor(e))
        case Ok(state) => Ok(ImportOperation(block, state))
  }

  /** The state of every block of a memory backend. */
  function MemoryStates(entries: map<Id, StoredBlock>): (states: map<Id, StateMap>)
    ensures states.Keys == entries.Keys
    ensures forall x :: x in states ==> states[x] == entries[x].state
  {
    map x | x in entries :: entries[x].state
  }

  /** A backend commit outcome as seen by an importer: its error wrapped as `Backend`. */
  function Lifted(r: Outcome<BackendError>): (l: Outcome<ImportError>)
    ensures l.Pass? <==> r.Pass?
    ensures l.Fail? ==> l.error == Backend(r.error)
  {
    match r
    case Pass => Pass
    case Fail(e) => Fail(Backend(e))
  }

  /** `Importer` of src/chain/importer.rs. */
  class Importer {
    const executor: Executor
    const backend: MemoryBackend
    var pending: LegacyOperation

    constructor (backend: MemoryBackend, executor: Executor)
      ensures this.backend == backend && this.executor == executor
      ensures pending == DefaultLegacyOperation()
    {
      this.backend := backend;
      this.executor := executor;
      pending := DefaultLegacyOperation();
    }

    /** `import_block`: queue the executed block, or fail with nothing queued. */
    method ImportBlock(block: Block) returns (r: Outcome<ImportError>)
      modifies this
      ensures var p := Prepared(MemoryStates(old(backend.entries)), executor, block);
        && (r.Pass? <==> p.Ok?)
        && (r.Fail? ==> r.error == p.error && pending == old(pending))
        && (r.Pass? ==> pending == old(pending).(importBlock := old(pending).importBlock + [p.value]))
    {
      if block.parentHash.None? {
        return Fail(ImportIsGenesis);
      }
      var parentState := backend.StateAt(block.parentHash.value);
      if parentState.Err? {
        return Fail(Backend(parentState.error));
      }
      var executed := executor(block, parentState.value);
      if executed.Err? {
        return Fail(Executor(executed.error));
      }
      r := ImportRaw(ImportOperation(block, executed.value));
    }

    method ImportRaw(op: ImportOperation) returns (r: Outcome<ImportError>)
      modifies this
      ensures r.Pass?
      ensures pending == old(pending).(importBlock := old(pending).importBlock + [op])
    {
      pending := pending.(importBlock := pending.importBlock + [op]);
      return Pass;
    }

    method SetHead(head: Id) returns (r: Outcome<ImportError>)
      modifies this
      ensures r.Pass?
      ensures pending == old(pending).(setHead := Some(head))
    {
      pending := pending.(setHead := Some(head));
      return Pass;
    }

    /** `commit`: the queue is emptied before the backend call, so it is empty whatever the outcome. */
    method Commit() returns (r: Outcome<ImportError>)
      modifies this, backend
      ensures pending == DefaultLegacyOperation()
      ensures exists inner :: r == Lifted(inner) && MemoryCommitted(old(backend.View()), old(pending), backend.View(), inner)
    {
      var operation := pending;
      pending := DefaultLegacyOperation();
      var inner := backend.Commit(operation);
      r := Lifted(inner);
    }

    method Discard() returns (r: Outcome<ImportError>)
      modifies this
      ensures r.Pass? && pending == DefaultLegacyOperation()
    {
      pending := DefaultLegacyOperation();
      return Pass;
    }
  }

  /** `Chain` of src/importer.rs: the same importer without `import_raw`. */
  class Chain {
    const executor: Executor
    const backend: MemoryBackend
    var pending: LegacyOperation

    constructor (backend: MemoryBackend, executor: Executor)
      ensures this.backend == backend && this.executor == executor
      ensures pending == DefaultLegacyOperation()
    {
      this.backend := backend;
      this.executor := executor;
      pending := DefaultLegacyOperation();
    }

    method ImportBlock(block: Block) returns (r: Outcome<ImportError>)
      modifies this
      ensures var p := Prepared(MemoryStates(old(backend.entries)), executor, block);
        && (r.Pass? <==> p.Ok?)
        && (r.Fail? ==> r.error == p.error && pending == old(pending))
        && (r.Pass? ==> pending == old(pending).(importBlock := old(pending).importBlock + [p.value]))
    {
      if block.parentHash.None? {
        return Fail(ImportIsGenesis);
      }
      var parentState := backend.StateAt(block.parentHash.value);
      if parentState.Err? {
        return Fail(Backend(parentState.error));
      }
      var executed := executor(block, parentState.value);
      if executed.Err? {
        return Fail(Executor(executed.error));
      }
      pending := pending.(importBlock := pending.importBlock + [ImportOperation(block, executed.value)]);
      return Pass;
    }

    method SetHead(head: Id) returns (r: Outcome<ImportError>)
      modifies this
      ensures r.Pass?
      ensures pending == old(pending).(setHead := Some(head))
    {
      pending := pending.(setHead := Some(head));
      return Pass;
    }

    method Commit() returns (r: Outcome<ImportError>)
      modifies this, backend
      ensures pending == DefaultLegacyOperation()
      ensures exists inner :: r == Lifted(inner) && MemoryCommitted(old(backend.View()), old(pending), backend.View(), inner)
    {
      var operation := pending;
      pending := DefaultLegacyOperation();
      var inner := backend.Commit(operation);
      r := Lifted(inner);
    }

    method Discard() returns (r: Outcome<ImportError>)
      modifies this
      ensures r.Pass? && pending == DefaultLegacyOperation()
    {
      pending := DefaultLegacyOperation();
      return Pass;
    }
  }
}
