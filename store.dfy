/**
 * The chain store behind a backend: the block records, the canonical
 * depth-to-id mapping, the head, the genesis id and the auxiliaries. The
 * store's primitive updates are those of the `Database` interface
 * (src/backend/database.rs); its queries are those of `ChainQuery`.
 */
module Store {
  import opened Wrappers
  import opened ChainTypes
  import opened Tree

  /** The record kept for every stored block (`BlockData`). */
  datatype BlockData = BlockData(block: Block, state: StateMap, depth: nat, children: seq<Id>, isCanon: bool)

  type Blocks = map<Id, BlockData>

  /** A snapshot of everything a chain store holds. */
  datatype StoreView = StoreView(
    blocks: Blocks,
    canonDepth: map<nat, Id>,
    head: Id,
    genesis: Id,
    aux: map<AuxKey, Auxiliary>)

  /** The tree shape of the stored blocks: parent and depth of every id. */
  function ShapeOf(blocks: Blocks): (s: Shape)
    ensures s.Keys == blocks.Keys
    ensures forall x :: x in s ==> s[x] == Link(blocks[x].block.parentHash, blocks[x].depth)
  {
    map x | x in blocks :: Link(blocks[x].block.parentHash, blocks[x].depth)
  }

  /** Every record is stored under its own block's id. */
  ghost predicate KeysMatch(blocks: Blocks)
  {
    forall x :: x in blocks ==> blocks[x].block.hash == x
  }

  /**
   * A well-formed store: records under their own ids, one tree rooted at
   * the parentless genesis block with depths counted from it, and a stored head.
   */
  ghost predicate Wf(v: StoreView)
  {
    && KeysMatch(v.blocks)
    && IsTree(ShapeOf(v.blocks))
    && v.head in v.blocks
    && v.genesis in v.blocks
    && v.blocks[v.genesis].block.parentHash.None?
  }

  /**
   * The canonical chain is the head's line of ancestors: the depth mapping
   * names the head's ancestor at every depth up to the head's, and a block
   * is flagged canonical exactly when it is on that line.
   */
  ghost predicate CanonConsistent(v: StoreView)
    requires Wf(v)
  {
    var s := ShapeOf(v.blocks);
    && (forall d: nat :: d in v.canonDepth <==> d <= v.blocks[v.head].depth)
    && (forall d :: d in v.canonDepth ==> v.canonDepth[d] == AncestorAt(s, v.head, d))
    && (forall x :: x in v.blocks ==> (v.blocks[x].isCanon <==> IsAncestorOrSelf(s, x, v.head)))
  }

  /** Every auxiliary refers only to stored blocks. */
  ghost predicate AuxSound(v: StoreView)
  {
    forall k, id :: k in v.aux && id in v.aux[k].associated ==> id in v.blocks
  }

  /** Every id the canonical depth mapping names is stored. */
  ghost predicate CanonStored(v: StoreView)
  {
    forall d :: d in v.canonDepth ==> v.canonDepth[d] in v.blocks
  }

  /** The store of a backend: the `Database` updates and the `ChainQuery` lookups. */
  class ChainStore {
    var blocks: Blocks
    var canonDepth: map<nat, Id>
    var head: Id
    var genesis: Id
    var aux: map<AuxKey, Auxiliary>

    function View(): (v: StoreView)
      reads this
      ensures v.blocks == blocks && v.canonDepth == canonDepth && v.head == head
      ensures v.genesis == genesis && v.aux == aux
    {
      StoreView(blocks, canonDepth, head, genesis, aux)
    }

    /** A store holding only a parentless genesis block, canonical at depth 0. */
    constructor WithGenesis(block: Block, state: StateMap)
      requires block.parentHash.None?
      ensures blocks == map[block.hash := BlockData(block, state, 0, [], true)]
      ensures canonDepth == map[0 := block.hash]
      ensures head == block.hash && genesis == block.hash && aux == map[]
      ensures Wf(View()) && CanonConsistent(View()) && CanonStored(View())
    {
      blocks := map[block.hash := BlockData(block, state, 0, [], true)];
      canonDepth := map[0 := block.hash];
      head := block.hash;
      genesis := block.hash;
      aux := map[];
      new;
      assert LinkedAt(ShapeOf(blocks), block.hash);
      assert forall d: nat :: d in canonDepth <==> d == 0;
    }

    // ----------------------------------------------------------- queries

    function Contains(id: Id): (r: bool)
      reads this
      ensures r <==> id in blocks
    {
      id in blocks
    }

    function DepthAt(id: Id): (r: Result<nat, BackendError>)
      reads this
      ensures r.Ok? <==> id in blocks
      ensures r.Ok? ==> r.value == blocks[id].depth
      ensures r.Err? ==> r.error == NotExist
    {
      if id in blocks then Ok(blocks[id].depth) else Err(NotExist)
    }

    function BlockAt(id: Id): (r: Result<Block, BackendError>)
      reads this
      ensures r.Ok? <==> id in blocks
      ensures r.Ok? ==> r.value == blocks[id].block
      ensures r.Err? ==> r.error == NotExist
    {
      if id in blocks then Ok(blocks[id].block) else Err(NotExist)
    }

    function StateAt(id: Id): (r: Result<StateMap, BackendError>)
      reads this
      ensures r.Ok? <==> id in blocks
      ensures r.Ok? ==> r.value == blocks[id].state
      ensures r.Err? ==> r.error == NotExist
    {
      if id in blocks then Ok(blocks[id].state) else Err(NotExist)
    }

    function ChildrenAt(id: Id): (r: Result<seq<Id>, BackendError>)
      reads this
      ensures r.Ok? <==> id in blocks
      ensures r.Ok? ==> r.value == blocks[id].children
      ensures r.Err? ==> r.error == NotExist
    {
      if id in blocks then Ok(blocks[id].children) else Err(NotExist)
    }

    function IsCanon(id: Id): (r: Result<bool, BackendError>)
      reads this
      ensures r.Ok? <==> id in blocks
      ensures r.Ok? ==> r.value == blocks[id].isCanon
      ensures r.Err? ==> r.error == NotExist
    {
      if id in blocks then Ok(blocks[id].isCanon) else Err(NotExist)
    }

    function LookupCanonDepth(depth: nat): (r: Option<Id>)
      reads this
      ensures r.Some? <==> depth in canonDepth
      ensures r.Some? ==> r.value == canonDepth[depth]
    {
      if depth in canonDepth then Some(canonDepth[depth]) else None
    }

    function Auxiliary(key: AuxKey): (r: Option<Auxiliary>)
      reads this
      ensures r.Some? <==> key in aux
      ensures r.Some? ==> r.value == aux[key]
    {
      if key in aux then Some(aux[key]) else None
    }

    // ----------------------------------------------------------- updates

    method InsertBlock(id: Id, block: Block, state: StateMap, depth: nat, children: seq<Id>, isCanon: bool)
      modifies this
      ensures View() == old(View()).(blocks := old(blocks)[id := BlockData(block, state, depth, children, isCanon)])
    {
      blocks := blocks[id := BlockData(block, state, depth, children, isCanon)];
    }

    method PushChild(id: Id, child: Id)
      requires id in blocks
      modifies this
      ensures View() == old(View()).(blocks := old(blocks)[id := old(blocks)[id].(children := old(blocks)[id].children + [child])])
    {
      blocks := blocks[id := blocks[id].(children := blocks[id].children + [child])];
    }

    method SetCanon(id: Id, isCanon: bool)
      requires id in blocks
      modifies this
      ensures View() == old(View()).(blocks := old(blocks)[id := old(blocks)[id].(isCanon := isCanon)])
    {
      blocks := blocks[id := blocks[id].(isCanon := isCanon)];
    }

    method InsertCanonDepthMapping(depth: nat, id: Id)
      modifies this
      ensures View() == old(View()).(canonDepth := old(canonDepth)[depth := id])
    {
      canonDepth := canonDepth[depth := id];
    }

    method RemoveCanonDepthMapping(depth: nat)
      modifies this
      ensures View() == old(View()).(canonDepth := old(canonDepth) - {depth})
    {
      canonDepth := canonDepth - {depth};
    }

    method InsertAuxiliary(key: AuxKey, value: Auxiliary)
      modifies this
      ensures View() == old(View()).(aux := old(aux)[key := value])
    {
      aux := aux[key := value];
    }

    method RemoveAuxiliary(key: AuxKey)
      modifies this
      ensures View() == old(View()).(aux := old(aux) - {key})
    {
      aux := aux - {key};
    }

    method SetHead(newHead: Id)
      modifies this
      ensures View() == old(View()).(head := newHead)
    {
      head := newHead;
    }
  }
}
