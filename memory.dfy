/**
 * The older in-memory backend (`MemoryBackend` of src/backend/memory.rs): a
 * map from block id to block, state and depth, and a head. Its commit runs
 * the verification pass under the memory rule, checks the new head, then
 * adds every accepted block and moves the head. It keeps no children lists,
 * no canonical chain and no auxiliaries.
 */
module Memory {
  import opened Wrappers
  import opened ChainTypes
  import opened Precheck

  /** The value `blocks_and_states` holds for every block. */
  datatype StoredBlock = StoredBlock(block: Block, state: StateMap, depth: nat)

  /** A snapshot of a memory backend. */
  datatype MemoryView = MemoryView(entries: map<Id, StoredBlock>, head: Id)

  /** The depth of every stored block, the `known` map of the verification pass. */
  function DepthsOf(entries: map<Id, StoredBlock>): (known: map<Id, nat>)
    ensures known.Keys == entries.Keys
    ensures forall x :: x in known ==> known[x] == entries[x].depth
  {
    map x | x in entries :: entries[x].depth
  }

  /**
   * `blocks_and_states.extend(importing)`: every accepted block is added,
   * replacing a stored entry under the same id, and every other entry stays.
   */
  function Extended(entries: map<Id, StoredBlock>, imp: map<Id, Pending>): (e: map<Id, StoredBlock>)
    ensures e.Keys == entries.Keys + imp.Keys
    ensures forall x :: x in imp ==> e[x] == StoredBlock(imp[x].op.block, imp[x].op.state, imp[x].depth)
    ensures forall x :: x in entries && x !in imp ==> e[x] == entries[x]
  {
    map x | x in entries.Keys + imp.Keys ::
      if x in imp then StoredBlock(imp[x].op.block, imp[x].op.state, imp[x].depth) else entries[x]
  }

  /**
   * What a memory commit of `op` on `before` does, leaving `after`: a batch
   * that cannot be ordered or an unknown new head fails with
   * `InvalidOperation` and changes nothing; otherwise the verified batch is
   * added and the head moves only when one is given. Parentless blocks are
   * accepted, so `IsGenesis` never occurs.
   */
  ghost predicate MemoryCommitted(before: MemoryView, op: LegacyOperation, after: MemoryView, r: Outcome<BackendError>)
  {
    var known := DepthsOf(before.entries);
    var headUnknown := op.setHead.Some? && op.setHead.value !in before.entries && op.setHead.value !in BatchIds(op.importBlock);
    && (r.Fail? <==> SomeStuck(op.importBlock, known) || headUnknown)
    && (r.Fail? ==> r.error == InvalidOperation && after == before)
    && (r.Pass? ==> exists imp ::
          && Verified(MemoryAsWritten, known, op.importBlock, imp)
          && after.entries == Extended(before.entries, imp)
          && after.head == if op.setHead.Some? then op.setHead.value else before.head)
  }

  class MemoryBackend {
    var entries: map<Id, StoredBlock>
    var head: Id

    function View(): (v: MemoryView)
      reads this
      ensures v.entries == entries && v.head == head
    {
      MemoryView(entries, head)
    }

    /** A backend holding only `block`, at depth 0 with `storage`, as head; the block must be parentless. */
    constructor WithGenesis(block: Block, storage: StateMap)
      requires block.parentHash.None?
      ensures entries == map[block.hash := StoredBlock(block, storage, 0)]
      ensures head == block.hash
    {
      entries := map[block.hash := StoredBlock(block, storage, 0)];
      head := block.hash;
    }

    function Head(): (h: Id)
      reads this
      ensures h == View().head
    {
      head
    }

    function Contains(id: Id): (r: Result<bool, BackendError>)
      reads this
      ensures r.Ok? && (r.value <==> id in entries)
    {
      Ok(id in entries)
    }

    function DepthAt(id: Id): (r: Result<nat, BackendError>)
      reads this
      ensures r.Ok? <==> id in entries
      ensures r.Ok? ==> r.value == entries[id].depth
      ensures r.Err? ==> r.error == NotExist
    {
      if id in entries then Ok(entries[id].depth) else Err(NotExist)
    }

    function BlockAt(id: Id): (r: Result<Block, BackendError>)
      reads this
      ensures r.Ok? <==> id in entries
      ensures r.Ok? ==> r.value == entries[id].block
      ensures r.Err? ==> r.error == NotExist
    {
      if id in entries then Ok(entries[id].block) else Err(NotExist)
    }

    function StateAt(id: Id): (r: Result<StateMap, BackendError>)
      reads this
      ensures r.Ok? <==> id in entries
      ensures r.Ok? ==> r.value == entries[id].state
      ensures r.Err? ==> r.error == NotExist
    {
      if id in entries then Ok(entries[id].state) else Err(NotExist)
    }

    /** `commit`: every error return precedes the two writes. */
    method Commit(op: LegacyOperation) returns (r: Outcome<BackendError>)
      modifies this
      ensures MemoryCommitted(old(View()), op, View(), r)
    {
      var checked := VerifyImports(MemoryAsWritten, DepthsOf(entries), op.importBlock);
      if checked.Err? {
        return Fail(checked.error);
      }
      var importing := checked.value;
      if op.setHead.Some? && !(op.setHead.value in entries || op.setHead.value in importing) {
        return Fail(InvalidOperation);
      }
      entries := Extended(entries, importing);
      if op.setHead.Some? {
        head := op.setHead.value;
      }
      return Pass;
    }
  }

  /** The verified batch a passing commit added. */
  lemma CommittedBatch(before: MemoryView, op: LegacyOperation, after: MemoryView) returns (imp: map<Id, Pending>)
    requires MemoryCommitted(before, op, after, Pass)
    ensures Verified(MemoryAsWritten, DepthsOf(before.entries), op.importBlock, imp)
    ensures after.entries == Extended(before.entries, imp)
  {
    imp :| Verified(MemoryAsWritten, DepthsOf(before.entries), op.importBlock, imp)
      && after.entries == Extended(before.entries, imp)
      && after.head == if op.setHead.Some? then op.setHead.value else before.head;
  }

  /**
   * Under the memory rule a block whose parent is stored is recorded at the
   * parent's own depth, not one below it.
   */
  lemma ChildStoredAtParentDepth(before: MemoryView, op: LegacyOperation, after: MemoryView, x: Id, p: Id)
    requires MemoryCommitted(before, op, after, Pass)
    requires SameIdSameParent(op.importBlock)
    requires x in BatchIds(op.importBlock) && x in after.entries
    requires after.entries[x].block.parentHash == Some(p) && p in before.entries
    ensures after.entries[x].depth == before.entries[p].depth
  {
    var imp := CommittedBatch(before, op, after);
    ExtendedChildDepth(before.entries, op.importBlock, imp, x, p);
  }

  lemma ExtendedChildDepth(entries: map<Id, StoredBlock>, ops: seq<ImportOperation>, imp: map<Id, Pending>, x: Id, p: Id)
    requires Verified(MemoryAsWritten, DepthsOf(entries), ops, imp) && SameIdSameParent(ops)
    requires x in imp && p in entries
    requires Extended(entries, imp)[x].block.parentHash == Some(p)
    ensures Extended(entries, imp)[x].depth == entries[p].depth
  {
    VerifiedEntry(MemoryAsWritten, DepthsOf(entries), ops, imp, x);
  }

  /** A parentless block of a committed batch is recorded at depth 0. */
  lemma ParentlessStoredAtZero(before: MemoryView, op: LegacyOperation, after: MemoryView, x: Id)
    requires MemoryCommitted(before, op, after, Pass)
    requires SameIdSameParent(op.importBlock)
    requires x in BatchIds(op.importBlock)
    requires forall o :: o in op.importBlock && o.block.hash == x ==> o.block.parentHash.None?
    ensures x in after.entries && after.entries[x].depth == 0
    ensures after.entries[x].block.parentHash.None?
  {
    var known := DepthsOf(before.entries);
    var imp := CommittedBatch(before, op, after);
    assert x in imp;
    VerifiedEntry(MemoryAsWritten, known, op.importBlock, imp, x);
  }

  /** A commit that passes keeps every stored id and adds exactly the ids of the batch. */
  lemma CommitKeys(before: MemoryView, op: LegacyOperation, after: MemoryView)
    requires MemoryCommitted(before, op, after, Pass)
    ensures after.entries.Keys == before.entries.Keys + BatchIds(op.importBlock)
    ensures op.setHead.Some? ==> after.head in after.entries
  {
    var known := DepthsOf(before.entries);
    var imp := CommittedBatch(before, op, after);
  }
}
