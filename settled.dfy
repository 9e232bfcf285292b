/**
 * What a successful settlement preserves: the store stays a well-formed
 * tree, every stored block keeps its depth, every imported block sits one
 * level below its parent, and auxiliaries keep referring to stored blocks.
 */
module Preservation {
  import opened Wrappers
  import opened ChainTypes
  import opened Tree
  import opened Store
  import opened Precheck
  import opened Settlement

  /** The verified batch a successful settlement applied. */
  lemma SettledBatch(before: StoreView, op: Operation, after: StoreView) returns (imp: map<Id, Pending>)
    requires Settled(before, op, after, Pass)
    ensures Verified(Settlement, KnownDepths(before.blocks), op.importBlock, imp)
    ensures Applied(before, op, imp, after)
  {
    imp :| Verified(Settlement, KnownDepths(before.blocks), op.importBlock, imp) && Applied(before, op, imp, after);
  }

  /** Changing only children and canonical flags keeps the tree shape. */
  lemma FlagsAndChildrenShape(mid: Blocks, blocks: Blocks)
    requires FlagsAndChildrenOnly(mid, blocks)
    ensures ShapeOf(blocks) == ShapeOf(mid)
  {
  }

  /**
   * After a successful settlement every block stored before is still stored
   * at the same depth, and every block of the batch is stored, one level
   * below its parent.
   */
  lemma SettleDepths(before: StoreView, op: Operation, after: StoreView)
    requires Wf(before) && SameIdSameParent(op.importBlock) && StoredParentsAgree(before.blocks, op.importBlock)
    requires Settled(before, op, after, Pass)
    ensures after.blocks.Keys == before.blocks.Keys + BatchIds(op.importBlock)
    ensures forall x :: x in before.blocks ==> after.blocks[x].depth == before.blocks[x].depth
    ensures forall x :: x in BatchIds(op.importBlock) ==>
      && after.blocks[x].block.parentHash.Some?
      && after.blocks[x].block.parentHash.value in after.blocks
      && after.blocks[x].depth == after.blocks[after.blocks[x].block.parentHash.value].depth + 1
  {
    var imp := SettledBatch(before, op, after);
    var known := KnownDepths(before.blocks);
    var mid := Inserted(before.blocks, imp);
    InsertedIsTree(before, op.importBlock, imp);
    assert after.blocks.Keys == mid.Keys;
    forall x | x in before.blocks
      ensures after.blocks[x].depth == before.blocks[x].depth
    {
      assert after.blocks[x].depth == mid[x].depth;
    }
    forall x | x in BatchIds(op.importBlock)
      ensures after.blocks[x].block.parentHash.Some?
      ensures after.blocks[x].block.parentHash.value in after.blocks
      ensures after.blocks[x].depth == after.blocks[after.blocks[x].block.parentHash.value].depth + 1
    {
      assert x in imp;
      VerifiedEntry(Settlement, known, op.importBlock, imp, x);
      var p := imp[x].op.block.parentHash.value;
      assert after.blocks[x].block == imp[x].op.block && after.blocks[x].depth == imp[x].depth;
      assert p in mid;
      assert after.blocks[p].depth == mid[p].depth;
    }
  }

  /** Changing only children and canonical flags keeps every record under its own id. */
  lemma FlagsAndChildrenKeysMatch(mid: Blocks, blocks: Blocks)
    requires FlagsAndChildrenOnly(mid, blocks) && KeysMatch(mid)
    ensures KeysMatch(blocks)
  {
    forall x | x in blocks
      ensures blocks[x].block.hash == x
    {
      assert blocks[x].block == mid[x].block;
    }
  }

  /** Writing verified blocks keeps every record under its own id. */
  lemma InsertedKeysMatch(blocks: Blocks, known: map<Id, nat>, ops: seq<ImportOperation>, imp: map<Id, Pending>)
    requires KeysMatch(blocks) && Verified(Settlement, known, ops, imp)
    ensures KeysMatch(Inserted(blocks, imp))
  {
  }

  /** The head after a settlement is stored. */
  lemma SettledHeadStored(before: StoreView, op: Operation, imp: map<Id, Pending>, after: StoreView)
    requires Wf(before) && Applied(before, op, imp, after)
    ensures after.head in after.blocks
  {
    var mid := Inserted(before.blocks, imp);
    assert after.blocks.Keys == mid.Keys;
  }

  /** After a successful settlement every block of the batch is stored with a block and state the batch gave for its id. */
  lemma SettleRecords(before: StoreView, op: Operation, after: StoreView, x: Id)
    requires Settled(before, op, after, Pass) && x in BatchIds(op.importBlock)
    ensures x in after.blocks
    ensures exists o :: o in op.importBlock && o.block.hash == x && after.blocks[x].block == o.block && after.blocks[x].state == o.state
  {
    var imp := SettledBatch(before, op, after);
    var mid := Inserted(before.blocks, imp);
    assert x in imp && x in mid;
    var o := imp[x].op;
    assert after.blocks[x].block == mid[x].block && after.blocks[x].state == mid[x].state;
    assert o in op.importBlock && o.block.hash == x;
  }

  /** A successful settlement keeps the block record of every stored block outside the batch. */
  lemma SettleKeepsBlocks(before: StoreView, op: Operation, after: StoreView, x: Id)
    requires Settled(before, op, after, Pass) && x in before.blocks && x !in BatchIds(op.importBlock)
    ensures x in after.blocks && after.blocks[x].block == before.blocks[x].block
  {
    var imp := SettledBatch(before, op, after);
    var mid := Inserted(before.blocks, imp);
    assert x !in imp && x in mid;
    assert after.blocks[x].block == mid[x].block;
  }

  /** A successful settlement keeps the store well formed. */
  lemma SettleKeepsWf(before: StoreView, op: Operation, after: StoreView)
    requires Wf(before) && SameIdSameParent(op.importBlock) && StoredParentsAgree(before.blocks, op.importBlock)
    requires Settled(before, op, after, Pass)
    ensures Wf(after)
  {
    var imp := SettledBatch(before, op, after);
    var mid := Inserted(before.blocks, imp);
    InsertedIsTree(before, op.importBlock, imp);
    FlagsAndChildrenShape(mid, after.blocks);
    InsertedKeysMatch(before.blocks, KnownDepths(before.blocks), op.importBlock, imp);
    FlagsAndChildrenKeysMatch(mid, after.blocks);
    SettledHeadStored(before, op, imp, after);
    assert before.genesis !in imp;
    assert after.blocks[before.genesis].block == mid[before.genesis].block;
  }

  /** A successful settlement whose inserted auxiliaries passed the precheck keeps auxiliaries sound. */
  lemma SettleKeepsAuxSound(before: StoreView, op: Operation, after: StoreView)
    requires AuxSound(before)
    requires Settled(before, op, after, Pass)
    ensures AuxSound(after)
  {
    var imp := SettledBatch(before, op, after);
    assert AuxKnown(before, op);
    assert after.blocks.Keys == before.blocks.Keys + imp.Keys;
    forall k, id | k in after.aux && id in after.aux[k].associated
      ensures id in after.blocks
    {
      InsertAllFrom(RemoveAll(before.aux, op.removeAuxiliaries), op.insertAuxiliaries, k);
    }
  }

  /** The head after a successful settlement is the chosen one, or the old head when none was chosen. */
  lemma SettledHead(before: StoreView, op: Operation, after: StoreView)
    requires Settled(before, op, after, Pass)
    ensures after.head == if op.setHead.Some? then op.setHead.value else before.head
  {
    var imp := SettledBatch(before, op, after);
  }

  /** A one-block batch is consistent with a store that holds the block, if at all, with the same parent. */
  lemma OneBlockConsistent(before: StoreView, block: Block, st: StateMap)
    requires block.hash in before.blocks ==> before.blocks[block.hash].block.parentHash == block.parentHash
    ensures SameIdSameParent([ImportOperation(block, st)])
    ensures StoredParentsAgree(before.blocks, [ImportOperation(block, st)])
    ensures block.hash in BatchIds([ImportOperation(block, st)])
  {
    assert [ImportOperation(block, st)][0].block.hash == block.hash;
  }

  /** A successful one-block settlement stores the block with its state, below a parent stored before. */
  lemma SettledOneBlockRecord(before: StoreView, block: Block, st: StateMap, setHead: Option<Id>, after: StoreView)
    requires Settled(before, Operation([ImportOperation(block, st)], setHead, [], []), after, Pass)
    requires block.hash in BatchIds([ImportOperation(block, st)]) && SameIdSameParent([ImportOperation(block, st)])
    ensures block.hash in after.blocks && after.blocks[block.hash].block == block && after.blocks[block.hash].state == st
    ensures block.parentHash.Some? && block.parentHash.value in before.blocks
  {
    var ops := [ImportOperation(block, st)];
    var op := Operation(ops, setHead, [], []);
    SettleRecords(before, op, after, block.hash);
    var imp := SettledBatch(before, op, after);
    VerifiedEntry(Settlement, KnownDepths(before.blocks), ops, imp, block.hash);
  }

  /** A one-block batch names exactly that block's id. */
  lemma SingletonBatch(block: Block, st: StateMap)
    ensures BatchIds([ImportOperation(block, st)]) == {block.hash}
  {
    assert [ImportOperation(block, st)][0].block.hash == block.hash;
  }

  /** A successful settlement stores exactly the blocks stored before and those of the batch. */
  lemma SettleKeys(before: StoreView, op: Operation, after: StoreView)
    requires Settled(before, op, after, Pass)
    ensures after.blocks.Keys == before.blocks.Keys + BatchIds(op.importBlock)
  {
    var imp := SettledBatch(before, op, after);
    assert after.blocks.Keys == Inserted(before.blocks, imp).Keys;
  }

  /**
   * A successful one-block settlement keeps every other block: a block with
   * another id that agreed with the store on its parent still agrees.
   */
  lemma OneBlockKeepsOthers(before: StoreView, block: Block, st: StateMap, setHead: Option<Id>, after: StoreView, other: Block)
    requires Settled(before, Operation([ImportOperation(block, st)], setHead, [], []), after, Pass)
    requires other.hash != block.hash
    requires other.hash in before.blocks ==> before.blocks[other.hash].block.parentHash == other.parentHash
    ensures other.hash in after.blocks ==> after.blocks[other.hash].block.parentHash == other.parentHash
  {
    var op := Operation([ImportOperation(block, st)], setHead, [], []);
    SingletonBatch(block, st);
    SettleKeys(before, op, after);
    if other.hash in after.blocks {
      SettleKeepsBlocks(before, op, after, other.hash);
    }
  }

  /**
   * A successful settlement of one block (and no auxiliaries): the block has
   * a parent, is stored one level below it with the given state, the head
   * is the chosen one, and the old head keeps its depth.
   */
  lemma SettledOneBlock(before: StoreView, block: Block, st: StateMap, setHead: Option<Id>, after: StoreView)
    requires Wf(before)
    requires block.hash in before.blocks ==> before.blocks[block.hash].block.parentHash == block.parentHash
    requires Settled(before, Operation([ImportOperation(block, st)], setHead, [], []), after, Pass)
    ensures Wf(after)
    ensures block.parentHash.Some? && block.parentHash.value in before.blocks
    ensures block.hash in after.blocks && after.blocks[block.hash].state == st
    ensures after.blocks[block.hash].depth == before.blocks[block.parentHash.value].depth + 1
    ensures after.head == if setHead.Some? then setHead.value else before.head
    ensures after.blocks[before.head].depth == before.blocks[before.head].depth
  {
    var op := Operation([ImportOperation(block, st)], setHead, [], []);
    OneBlockConsistent(before, block, st);
    SettleKeepsWf(before, op, after);
    SettleDepths(before, op, after);
    SettledHead(before, op, after);
    SettledOneBlockRecord(before, block, st, setHead, after);
  }

  /** A sequence is empty or holds its first element. */
  lemma EmptyOrHeadIn(s: seq<Id>)
    ensures s == [] || s[0] in s
  {
  }

  /** An empty batch appends no children: every children list stays as it was. */
  lemma NoChildrenAppended(mid: Blocks, blocks: Blocks)
    requires ChildrenAppended(mid, map[], {}, blocks)
    ensures forall x :: x in mid ==> blocks[x].children == mid[x].children
  {
    forall x | x in mid
      ensures blocks[x].children == mid[x].children
    {
      var tail := blocks[x].children[|mid[x].children|..];
      assert ChildrenOf(map[], {}, x) == {};
      EmptyOrHeadIn(tail);
      assert blocks[x].children == mid[x].children + tail;
    }
  }

  /** A settle outcome passes or fails with one of the three backend errors. */
  lemma OutcomeCases(r: Outcome<BackendError>)
    ensures r == Pass || r == Fail(IsGenesis) || r == Fail(InvalidOperation) || r == Fail(NotExist)
  {
    match r
    case Pass =>
    case Fail(e) =>
      match e
      case InvalidOperation =>
      case IsGenesis =>
      case NotExist =>
  }

  /**
   * The default operation, with nothing to import, no new head and no
   * auxiliaries, always settles and leaves the store exactly as it was.
   */
  lemma SettleDefaultChangesNothing(before: StoreView, after: StoreView, r: Outcome<BackendError>)
    requires Settled(before, DefaultOperation(), after, r)
    ensures r == Pass && after == before
  {
    var op := DefaultOperation();
    assert !SomeStuck(op.importBlock, KnownDepths(before.blocks));
    assert !HasParentless(op.importBlock);
    assert HeadKnown(before, op) && AuxKnown(before, op);
    assert r != Fail(IsGenesis) && r != Fail(InvalidOperation) && r != Fail(NotExist);
    OutcomeCases(r);
    if r.Pass? {
      var imp := SettledBatch(before, op, after);
      assert imp == map[];
      var mid := Inserted(before.blocks, imp);
      assert mid == before.blocks;
      assert ParentsOf(imp) == map[];
      NoChildrenAppended(mid, after.blocks);
      forall x | x in before.blocks
        ensures after.blocks[x] == before.blocks[x]
      {
        assert after.blocks[x] == mid[x].(children := after.blocks[x].children, isCanon := after.blocks[x].isCanon);
      }
      assert after.blocks == before.blocks;
      assert RemoveAll(before.aux, []) == before.aux;
      assert InsertAll(before.aux, []) == before.aux;
    }
  }
}
