/**
 * Values shared by the chain backends, importers and the counter runtime.
 *
 * The backends are generic over the block type; this model fixes the block of
 * the counter example (a hash, an optional parent hash and a list of
 * extrinsics), since that is the only block type the repository instantiates.
 */
module ChainTypes {
  import opened Wrappers

  /** Block identifiers (256-bit hashes in the source). */
  type Id = nat

  newtype Byte = x: int | 0 <= x < 256

  type Bytes = seq<Byte>

  /** A key-value storage snapshot, the state attached to every stored block. */
  type StateMap = map<Bytes, Bytes>

  /** Exclusive upper bound of an unsigned 128-bit integer. */
  const U128_BOUND: nat := 0x1_0000_0000_0000_0000_0000_0000_0000_0000

  /** The counter example's only extrinsic: add an unsigned 128-bit amount. */
  datatype Extrinsic = Add(amount: nat)

  datatype Block = Block(hash: Id, parentHash: Option<Id>, extrinsics: seq<Extrinsic>)

  /** One block to import together with the state reached after executing it. */
  datatype ImportOperation = ImportOperation(block: Block, state: StateMap)

  type AuxKey = nat

  /** Auxiliary data stored beside the chain; `associated` names blocks it refers to. */
  datatype Auxiliary = Auxiliary(key: AuxKey, associated: seq<Id>, payload: Bytes)

  /** A batch of backend changes applied together by one commit. */
  datatype Operation = Operation(
    importBlock: seq<ImportOperation>,
    setHead: Option<Id>,
    insertAuxiliaries: seq<Auxiliary>,
    removeAuxiliaries: seq<AuxKey>)

  /** The empty operation (`Operation::default`). */
  function DefaultOperation(): (o: Operation)
    ensures o.importBlock == [] && o.setHead.None?
    ensures o.insertAuxiliaries == [] && o.removeAuxiliaries == []
  {
    Operation([], None, [], [])
  }

  /** The operation of the older importer API: imports and an optional head only. */
  datatype LegacyOperation = LegacyOperation(importBlock: seq<ImportOperation>, setHead: Option<Id>)

  function DefaultLegacyOperation(): (o: LegacyOperation)
    ensures o.importBlock == [] && o.setHead.None?
  {
    LegacyOperation([], None)
  }

  /** Errors a backend reports (`Error` of direct.rs and memory.rs). */
  datatype BackendError = InvalidOperation | IsGenesis | NotExist

  /** Errors of block execution (the counter executor's own errors). */
  datatype ExecError = HashMismatch | StateCorruption | StorageFailure

  /**
   * Errors of the importers. `Panicked` stands for a Rust panic (an `unwrap`
   * or `expect` on a failed lookup), which aborts the import.
   */
  datatype ImportError = Backend(cause: BackendError) | Executor(failure: ExecError) | ImportIsGenesis | Panicked

  /** Executors are given as functions from a block and its pre-state to the post-state. */
  type Executor = (Block, StateMap) -> Result<StateMap, ExecError>

  /** The ids of the blocks of an import batch. */
  ghost function BatchIds(ops: seq<ImportOperation>): set<Id>
  {
    set i | 0 <= i < |ops| :: ops[i].block.hash
  }

  /** Blocks with the same id have the same parent (ids are content hashes). */
  ghost predicate SameIdSameParent(ops: seq<ImportOperation>)
  {
    forall a, b :: a in ops && b in ops && a.block.hash == b.block.hash ==>
      a.block.parentHash == b.block.parentHash
  }

  ghost predicate HasParentless(ops: seq<ImportOperation>)
  {
    exists o :: o in ops && o.block.parentHash.None?
  }
}
