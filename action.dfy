/**
 * The pending-operation builder of the current API (`ImportAction` of
 * src/import/action.rs): it collects imports, a head choice and auxiliary
 * changes, then hands them to its backend in a single commit. The import
 * lock it holds is not modelled; every call is one atomic step.
 */
module Action {
  import opened Wrappers
  import opened ChainTypes
  import opened Store
  import opened Settlement
  import opened Direct

  class ImportAction {
    const backend: DirectBackend
    var pending: Operation

    /** `new`: nothing pending yet. */
    constructor (backend: DirectBackend)
      ensures this.backend == backend
      ensures pending == DefaultOperation()
    {
      this.backend := backend;
      pending := DefaultOperation();
    }

    /** `backend`: the backend the action was built on. */
    function Backend(): (b: DirectBackend)
      ensures b == backend
    {
      backend
    }

    /** `import_raw`: one more import at the end of the batch. */
    method ImportRaw(raw: ImportOperation)
      modifies this
      ensures pending == old(pending).(importBlock := old(pending).importBlock + [raw])
    {
      pending := pending.(importBlock := pending.importBlock + [raw]);
    }

    /** `import_block`: the same as importing the pair as one raw operation. */
    method ImportBlock(block: Block, state: StateMap)
      modifies this
      ensures pending == old(pending).(importBlock := old(pending).importBlock + [ImportOperation(block, state)])
    {
      ImportRaw(ImportOperation(block, state));
    }

    /** `set_head`: the last choice wins. */
    method SetHead(head: Id)
      modifies this
      ensures pending == old(pending).(setHead := Some(head))
    {
      pending := pending.(setHead := Some(head));
    }

    method InsertAuxiliary(aux: Auxiliary)
      modifies this
      ensures pending == old(pending).(insertAuxiliaries := old(pending).insertAuxiliaries + [aux])
    {
      pending := pending.(insertAuxiliaries := pending.insertAuxiliaries + [aux]);
    }

    method RemoveAuxiliary(key: AuxKey)
      modifies this
      ensures pending == old(pending).(removeAuxiliaries := old(pending).removeAuxiliaries + [key])
    {
      pending := pending.(removeAuxiliaries := pending.removeAuxiliaries + [key]);
    }

    /** `commit`: the backend settles exactly the collected operation. */
    method Commit() returns (r: Outcome<BackendError>)
      requires Wf(backend.db.View())
      requires SameIdSameParent(pending.importBlock) && StoredParentsAgree(backend.db.blocks, pending.importBlock)
      modifies backend.db
      ensures Settled(old(backend.db.View()), pending, backend.db.View(), r)
    {
      r := backend.Commit(pending);
    }
  }

  /** The operation a sequence of builder calls collects. */
  datatype Call =
    | ImportCall(op: ImportOperation)
    | HeadCall(head: Id)
    | InsertAuxCall(aux: Auxiliary)
    | RemoveAuxCall(key: AuxKey)

  function Collect(pending: Operation, calls: seq<Call>): (o: Operation)
    decreases |calls|
  {
    if calls == [] then pending
    else
      var last := calls[|calls| - 1];
      var p := Collect(pending, calls[..|calls| - 1]);
      match last
      case ImportCall(op) => p.(importBlock := p.importBlock + [op])
      case HeadCall(h) => p.(setHead := Some(h))
      case InsertAuxCall(a) => p.(insertAuxiliaries := p.insertAuxiliaries + [a])
      case RemoveAuxCall(k) => p.(removeAuxiliaries := p.removeAuxiliaries + [k])
  }

  function Imports(calls: seq<Call>): seq<ImportOperation>
  {
    if calls == [] then []
    else if calls[|calls| - 1].ImportCall? then Imports(calls[..|calls| - 1]) + [calls[|calls| - 1].op]
    else Imports(calls[..|calls| - 1])
  }

  function LastHead(calls: seq<Call>): Option<Id>
  {
    if calls == [] then None
    else if calls[|calls| - 1].HeadCall? then Some(calls[|calls| - 1].head)
    else LastHead(calls[..|calls| - 1])
  }

  /**
   * Starting from nothing pending, the collected batch lists the imports in
   * call order and the head is the last one chosen.
   */
  lemma {:induction false} CollectFromEmpty(calls: seq<Call>)
    ensures Collect(DefaultOperation(), calls).importBlock == Imports(calls)
    ensures Collect(DefaultOperation(), calls).setHead == LastHead(calls)
    decreases |calls|
  {
    if calls != [] {
      CollectFromEmpty(calls[..|calls| - 1]);
    }
  }
}
