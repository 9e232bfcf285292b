/**
 * Settling an operation on a chain store (`Operation::settle`,
 * src/backend/operation.rs lines 52-169; `DirectBackend::commit`,
 * src/backend/direct.rs lines 60-177, runs the same steps).
 *
 * Every check comes first: the verification pass, the new head, the blocks
 * named by inserted auxiliaries. Only then is the store written: accepted
 * blocks are inserted, parents learn their new children, the canonical chain
 * is moved along the tree route from the old head to the new one, and the
 * auxiliaries are removed and inserted.
 */
module Settlement {
  import opened Wrappers
  import opened ChainTypes
  import opened Tree
  import opened Route
  import opened Store
  import opened Precheck

  /** What `contains` and `depth_at` report for the stored blocks. */
  function KnownDepths(blocks: Blocks): (known: map<Id, nat>)
    ensures known.Keys == blocks.Keys
    ensures forall x :: x in known ==> known[x] == blocks[x].depth
  {
    map x | x in blocks :: blocks[x].depth
  }

  /** Stored blocks and batch blocks with the same id have the same parent (ids are content hashes). */
  ghost predicate StoredParentsAgree(blocks: Blocks, ops: seq<ImportOperation>)
  {
    forall o :: o in ops && o.block.hash in blocks ==> blocks[o.block.hash].block.parentHash == o.block.parentHash
  }

  // ------------------------------------------------------------ prechecks

  /** The new head, if any, is stored or part of the batch. */
  ghost predicate HeadKnown(v: StoreView, op: Operation)
  {
    op.setHead.Some? ==> op.setHead.value in v.blocks || op.setHead.value in BatchIds(op.importBlock)
  }

  /** Every block named by an inserted auxiliary is stored or part of the batch. */
  ghost predicate AuxKnown(v: StoreView, op: Operation)
  {
    forall a, id :: a in op.insertAuxiliaries && id in a.associated ==>
      id in v.blocks || id in BatchIds(op.importBlock)
  }

  /** The auxiliary precheck: every associated id is stored or being imported. */
  method CheckAuxiliaries(known: map<Id, nat>, importing: map<Id, Pending>, inserts: seq<Auxiliary>)
    returns (ok: bool)
    ensures ok <==> forall a, id :: a in inserts && id in a.associated ==> id in known || id in importing
  {
    for i := 0 to |inserts|
      invariant forall k, id :: 0 <= k < i && id in inserts[k].associated ==> id in known || id in importing
    {
      var associated := inserts[i].associated;
      for j := 0 to |associated|
        invariant forall k :: 0 <= k < j ==> associated[k] in known || associated[k] in importing
      {
        if !(associated[j] in known || associated[j] in importing) {
          return false;
        }
      }
    }
    return true;
  }

  // ------------------------------------------------------------ inserting

  /** The store after the accepted blocks are written: no children, not canonical. */
  ghost function Inserted(blocks: Blocks, imp: map<Id, Pending>): (b: Blocks)
    ensures b.Keys == blocks.Keys + imp.Keys
    ensures forall x :: x in imp ==> b[x] == BlockData(imp[x].op.block, imp[x].op.state, imp[x].depth, [], false)
    ensures forall x :: x in blocks && x !in imp ==> b[x] == blocks[x]
  {
    blocks + map x | x in imp :: BlockData(imp[x].op.block, imp[x].op.state, imp[x].depth, [], false)
  }

  /** `blocks` holds the accepted blocks outside `todo` written over `before`. */
  ghost predicate PartlyInserted(before: Blocks, imp: map<Id, Pending>, todo: set<Id>, blocks: Blocks)
  {
    && blocks.Keys == before.Keys + (imp.Keys - todo)
    && (forall x :: x in imp && x !in todo ==>
          blocks[x] == BlockData(imp[x].op.block, imp[x].op.state, imp[x].depth, [], false))
    && (forall x :: x in before && (x !in imp || x in todo) ==> blocks[x] == before[x])
  }

  lemma InsertOne(before: Blocks, imp: map<Id, Pending>, todo: set<Id>, blocks: Blocks, id: Id)
    requires PartlyInserted(before, imp, todo, blocks) && id in todo && id in imp
    ensures PartlyInserted(before, imp, todo - {id},
      blocks[id := BlockData(imp[id].op.block, imp[id].op.state, imp[id].depth, [], false)])
  {
  }

  lemma InsertedAll(before: Blocks, imp: map<Id, Pending>, blocks: Blocks)
    requires PartlyInserted(before, imp, {}, blocks)
    ensures blocks == Inserted(before, imp)
  {
  }

  /** Writes every accepted block (`insert_block` for each entry of `importing`). */
  method InsertImported(store: ChainStore, importing: map<Id, Pending>)
    modifies store
    ensures store.View() == old(store.View()).(blocks := Inserted(old(store.blocks), importing))
  {
    ghost var before := store.blocks;
    var todo := importing.Keys;
    while todo != {}
      invariant todo <= importing.Keys
      invariant PartlyInserted(before, importing, todo, store.blocks)
      invariant store.View() == old(store.View()).(blocks := store.blocks)
      decreases todo
    {
      var id :| id in todo;
      var data := importing[id];
      InsertOne(before, importing, todo, store.blocks, id);
      store.InsertBlock(id, data.op.block, data.op.state, data.depth, [], false);
      todo := todo - {id};
    }
    InsertedAll(before, importing, store.blocks);
  }

  // ------------------------------------------------------------- children

  ghost predicate Distinct(xs: seq<Id>)
  {
    forall i, j :: 0 <= i < j < |xs| ==> xs[i] != xs[j]
  }

  /** The blocks of `done` whose recorded parent is `x`. */
  ghost function ChildrenOf(parents: map<Id, Id>, done: set<Id>, x: Id): set<Id>
  {
    set c | c in done && c in parents && parents[c] == x
  }

  /** `now` keeps the children listed `before` and appends each of `added` exactly once. */
  ghost predicate AppendedOnce(before: seq<Id>, now: seq<Id>, added: set<Id>)
  {
    && before <= now
    && Distinct(now[|before|..])
    && forall c :: c in now[|before|..] <==> c in added
  }

  /** After `push_child` for the blocks of `done`, each parent lists those children after its own. */
  ghost predicate ChildrenAppended(mid: Blocks, parents: map<Id, Id>, done: set<Id>, blocks: Blocks)
  {
    && blocks.Keys == mid.Keys
    && forall x :: x in mid ==> AppendedOnce(mid[x].children, blocks[x].children, ChildrenOf(parents, done, x))
  }

  lemma AppendOne(before: seq<Id>, now: seq<Id>, added: set<Id>, c: Id)
    requires AppendedOnce(before, now, added) && c !in added
    ensures AppendedOnce(before, now + [c], added + {c})
  {
    var tail := now[|before|..];
    assert (now + [c])[|before|..] == tail + [c];
  }

  /** Apart from their children, the records of `blocks` are those of `mid`. */
  ghost predicate RecordsKept(mid: Blocks, blocks: Blocks)
  {
    blocks.Keys == mid.Keys && forall x :: x in mid ==> blocks[x] == mid[x].(children := blocks[x].children)
  }

  lemma PushOne(mid: Blocks, parents: map<Id, Id>, done: set<Id>, blocks: Blocks, id: Id)
    requires ChildrenAppended(mid, parents, done, blocks) && RecordsKept(mid, blocks)
    requires id in parents && id !in done && parents[id] in blocks
    ensures var p := parents[id];
      var blocks' := blocks[p := blocks[p].(children := blocks[p].children + [id])];
      ChildrenAppended(mid, parents, done + {id}, blocks') && RecordsKept(mid, blocks')
  {
    var p := parents[id];
    var blocks' := blocks[p := blocks[p].(children := blocks[p].children + [id])];
    forall x | x in mid
      ensures AppendedOnce(mid[x].children, blocks'[x].children, ChildrenOf(parents, done + {id}, x))
    {
      if x == p {
        AppendOne(mid[x].children, blocks[x].children, ChildrenOf(parents, done, x), id);
        assert ChildrenOf(parents, done + {id}, x) == ChildrenOf(parents, done, x) + {id};
      } else {
        assert ChildrenOf(parents, done + {id}, x) == ChildrenOf(parents, done, x);
      }
    }
  }

  lemma NothingPushed(mid: Blocks, parents: map<Id, Id>)
    ensures ChildrenAppended(mid, parents, {}, mid) && RecordsKept(mid, mid)
  {
    forall x | x in mid
      ensures AppendedOnce(mid[x].children, mid[x].children, ChildrenOf(parents, {}, x))
    {
      assert mid[x].children[|mid[x].children|..] == [];
    }
  }

  /**
   * Pushes every newly accepted block onto its parent's children (the
   * `parent_ides` loop). The map is a hash map, so the order in which a
   * parent's new children are appended is left open.
   */
  method FixChildren(store: ChainStore, parents: map<Id, Id>)
    requires forall c :: c in parents ==> parents[c] in store.blocks
    modifies store
    ensures ChildrenAppended(old(store.blocks), parents, parents.Keys, store.blocks)
    ensures RecordsKept(old(store.blocks), store.blocks)
    ensures store.View() == old(store.View()).(blocks := store.blocks)
  {
    ghost var mid := store.blocks;
    ghost var done := {};
    var todo := parents.Keys;
    NothingPushed(mid, parents);
    while todo != {}
      invariant todo <= parents.Keys && done == parents.Keys - todo
      invariant ChildrenAppended(mid, parents, done, store.blocks) && RecordsKept(mid, store.blocks)
      invariant store.View() == old(store.View()).(blocks := store.blocks)
      decreases todo
    {
      var id :| id in todo;
      PushOne(mid, parents, done, store.blocks, id);
      store.PushChild(parents[id], id);
      todo := todo - {id};
      done := done + {id};
    }
  }

  // ------------------------------------------------------- canonical chain

  /** The depth mapping after the depths of the retracted blocks are removed. */
  ghost function RetractAll(canon: map<nat, Id>, s: Shape, ids: seq<Id>): map<nat, Id>
    requires forall x :: x in ids ==> x in s
  {
    canon - set x | x in ids :: s[x].depth
  }

  /** The depth mapping after each enacted block, in order, is mapped at its depth. */
  ghost function EnactAll(canon: map<nat, Id>, s: Shape, ids: seq<Id>): map<nat, Id>
    requires forall x :: x in ids ==> x in s
  {
    if ids == [] then canon
    else
      var last := ids[|ids| - 1];
      EnactAll(canon, s, ids[..|ids| - 1])[s[last].depth := last]
  }

  /** The records after `set_canon(x, flag)` for every `x` of `ids`. */
  ghost function Reflagged(blocks: Blocks, ids: seq<Id>, flag: bool): (b: Blocks)
    ensures b.Keys == blocks.Keys
    ensures forall x :: x in b ==> b[x] == if x in ids then blocks[x].(isCanon := flag) else blocks[x]
  {
    map x | x in blocks :: if x in ids then blocks[x].(isCanon := flag) else blocks[x]
  }

  /** Canon flags are not part of the tree shape. */
  lemma ReflaggedShape(blocks: Blocks, ids: seq<Id>, flag: bool)
    ensures ShapeOf(Reflagged(blocks, ids, flag)) == ShapeOf(blocks)
  {
  }

  /** The store after the canonical chain is moved from its head to `h` along the tree route. */
  ghost function Rerouted(v: StoreView, h: Id): StoreView
    requires IsTree(ShapeOf(v.blocks)) && v.head in v.blocks && h in v.blocks
  {
    var s := ShapeOf(v.blocks);
    var r := RouteOf(s, v.head, h);
    RouteInTree(s, v.head, h);
    v.(blocks := Reflagged(Reflagged(v.blocks, r.Retracted(), false), r.Enacted(), true),
       canonDepth := EnactAll(RetractAll(v.canonDepth, s, r.Retracted()), s, r.Enacted()),
       head := h)
  }

  lemma RetractStep(blocks: Blocks, canon: map<nat, Id>, s: Shape, ids: seq<Id>, i: nat)
    requires i < |ids| && forall x :: x in ids ==> x in s && x in blocks
    ensures var b := Reflagged(blocks, ids[..i], false);
      && b[ids[i] := b[ids[i]].(isCanon := false)] == Reflagged(blocks, ids[..i + 1], false)
      && RetractAll(canon, s, ids[..i]) - {s[ids[i]].depth} == RetractAll(canon, s, ids[..i + 1])
  {
    assert ids[..i + 1] == ids[..i] + [ids[i]];
  }

  lemma EnactStep(blocks: Blocks, canon: map<nat, Id>, s: Shape, ids: seq<Id>, j: nat)
    requires j < |ids| && forall x :: x in ids ==> x in s && x in blocks
    ensures var b := Reflagged(blocks, ids[..j], true);
      && b[ids[j] := b[ids[j]].(isCanon := true)] == Reflagged(blocks, ids[..j + 1], true)
      && EnactAll(canon, s, ids[..j])[s[ids[j]].depth := ids[j]] == EnactAll(canon, s, ids[..j + 1])
  {
    assert ids[..j + 1] == ids[..j] + [ids[j]];
    assert ids[..j + 1][..j] == ids[..j];
  }

  /** The retracted loop: clears the flag and the depth mapping of every block of `ids`. */
  method Retract(store: ChainStore, ghost s: Shape, ids: seq<Id>)
    requires ShapeOf(store.blocks) == s && forall x :: x in ids ==> x in s
    modifies store
    ensures store.View() == old(store.View()).(blocks := Reflagged(old(store.blocks), ids, false),
                                              canonDepth := RetractAll(old(store.canonDepth), s, ids))
  {
    ghost var before := store.View();
    assert Reflagged(before.blocks, [], false) == before.blocks;
    for i := 0 to |ids|
      invariant store.View() == before.(blocks := Reflagged(before.blocks, ids[..i], false),
                                        canonDepth := RetractAll(before.canonDepth, s, ids[..i]))
    {
      RetractStep(before.blocks, before.canonDepth, s, ids, i);
      store.SetCanon(ids[i], false);
      var depth := store.DepthAt(ids[i]).value;
      store.RemoveCanonDepthMapping(depth);
    }
    assert ids[..|ids|] == ids;
  }

  /** The enacted loop: sets the flag of every block of `ids` and maps it at its depth. */
  method Enact(store: ChainStore, ghost s: Shape, ids: seq<Id>)
    requires ShapeOf(store.blocks) == s && forall x :: x in ids ==> x in s
    modifies store
    ensures store.View() == old(store.View()).(blocks := Reflagged(old(store.blocks), ids, true),
                                              canonDepth := EnactAll(old(store.canonDepth), s, ids))
  {
    ghost var before := store.View();
    assert Reflagged(before.blocks, [], true) == before.blocks;
    for j := 0 to |ids|
      invariant store.View() == before.(blocks := Reflagged(before.blocks, ids[..j], true),
                                        canonDepth := EnactAll(before.canonDepth, s, ids[..j]))
    {
      EnactStep(before.blocks, before.canonDepth, s, ids, j);
      store.SetCanon(ids[j], true);
      var depth := store.DepthAt(ids[j]).value;
      store.InsertCanonDepthMapping(depth, ids[j]);
    }
    assert ids[..|ids|] == ids;
  }

  /**
   * Moves the canonical chain to `newHead` along the tree route from the
   * current head: retracted blocks first, then enacted ones, then the head.
   */
  method Reroute(store: ChainStore, newHead: Id)
    requires IsTree(ShapeOf(store.blocks)) && store.head in store.blocks && newHead in store.blocks
    modifies store
    ensures store.View() == Rerouted(old(store.View()), newHead)
  {
    ghost var s := ShapeOf(store.blocks);
    var route := FindTreeRoute(ShapeOf(store.blocks), store.head, newHead);
    RouteInTree(s, store.head, newHead);
    Retract(store, s, route.value.Retracted());
    ReflaggedShape(old(store.blocks), route.value.Retracted(), false);
    Enact(store, s, route.value.Enacted());
    store.SetHead(newHead);
  }

  // ----------------------------------------------------------- auxiliaries

  ghost function RemoveAll(aux: map<AuxKey, Auxiliary>, keys: seq<AuxKey>): map<AuxKey, Auxiliary>
  {
    aux - set k | k in keys
  }

  /** The auxiliaries after each of `items`, in order, is stored under its key. */
  ghost function InsertAll(aux: map<AuxKey, Auxiliary>, items: seq<Auxiliary>): map<AuxKey, Auxiliary>
  {
    if items == [] then aux
    else
      var last := items[|items| - 1];
      InsertAll(aux, items[..|items| - 1])[last.key := last]
  }

  /** A key is present after the insertions when it was before or some inserted auxiliary carries it. */
  lemma {:induction false} InsertAllKeys(aux: map<AuxKey, Auxiliary>, items: seq<Auxiliary>, k: AuxKey)
    ensures k in InsertAll(aux, items) <==> k in aux || exists i :: 0 <= i < |items| && items[i].key == k
    decreases |items|
  {
    if items != [] {
      var init := items[..|items| - 1];
      InsertAllKeys(aux, init, k);
      if exists i :: 0 <= i < |init| && init[i].key == k {
        var i :| 0 <= i < |init| && init[i].key == k;
        assert items[i].key == k;
      }
    }
  }

  /** Every auxiliary present after the insertions was inserted or was present before. */
  lemma {:induction false} InsertAllFrom(aux: map<AuxKey, Auxiliary>, items: seq<Auxiliary>, k: AuxKey)
    requires k in InsertAll(aux, items)
    ensures InsertAll(aux, items)[k] in items || (k in aux && InsertAll(aux, items)[k] == aux[k])
    decreases |items|
  {
    if items != [] && items[|items| - 1].key != k {
      InsertAllFrom(aux, items[..|items| - 1], k);
    }
  }

  /** A key holds the last auxiliary inserted under it. */
  lemma {:induction false} InsertAllLast(aux: map<AuxKey, Auxiliary>, items: seq<Auxiliary>, i: nat)
    requires i < |items| && forall j :: i < j < |items| ==> items[j].key != items[i].key
    ensures items[i].key in InsertAll(aux, items) && InsertAll(aux, items)[items[i].key] == items[i]
    decreases |items|
  {
    if i < |items| - 1 {
      var init := items[..|items| - 1];
      assert init[i] == items[i];
      InsertAllLast(aux, init, i);
    }
  }

  /** A key no inserted auxiliary carries keeps its value. */
  lemma {:induction false} InsertAllOther(aux: map<AuxKey, Auxiliary>, items: seq<Auxiliary>, k: AuxKey)
    requires k in aux && forall i :: 0 <= i < |items| ==> items[i].key != k
    ensures k in InsertAll(aux, items) && InsertAll(aux, items)[k] == aux[k]
    decreases |items|
  {
    if items != [] {
      InsertAllOther(aux, items[..|items| - 1], k);
    }
  }

  /** Removes the listed keys, then inserts the listed auxiliaries. */
  method ApplyAuxiliaries(store: ChainStore, removals: seq<AuxKey>, inserts: seq<Auxiliary>)
    modifies store
    ensures store.View() == old(store.View()).(aux := InsertAll(RemoveAll(old(store.aux), removals), inserts))
  {
    for i := 0 to |removals|
      invariant store.View() == old(store.View()).(aux := RemoveAll(old(store.aux), removals[..i]))
    {
      store.RemoveAuxiliary(removals[i]);
      assert removals[..i + 1] == removals[..i] + [removals[i]];
    }
    assert removals[..|removals|] == removals;
    ghost var removed := store.aux;
    for j := 0 to |inserts|
      invariant store.View() == old(store.View()).(aux := InsertAll(removed, inserts[..j]))
    {
      store.InsertAuxiliary(inserts[j].key, inserts[j]);
      assert inserts[..j + 1][..j] == inserts[..j];
    }
    assert inserts[..|inserts|] == inserts;
  }

  // ------------------------------------------------------------ settlement

  /**
   * The store after a successful settlement whose verification pass produced
   * `imp`: accepted blocks inserted, children appended, the canonical chain
   * rerouted to the new head when one is given, auxiliaries updated.
   */
  /** Every stored record equals its written form except for its children and its canonical flag. */
  ghost predicate FlagsAndChildrenOnly(mid: Blocks, blocks: Blocks)
  {
    blocks.Keys == mid.Keys &&
    forall x :: x in mid ==> blocks[x] == mid[x].(children := blocks[x].children, isCanon := blocks[x].isCanon)
  }

  /**
   * The canonical chain after an optional head change: without one, the
   * flags, the depth index and the head stay; with a new head `h`, the blocks
   * on the tree route from `head` to `h` are retracted then enacted.
   */
  ghost predicate HeadMoved(head: Id, canonDepth: map<nat, Id>, mid: Blocks, setHead: Option<Id>, after: StoreView)
    requires after.blocks.Keys == mid.Keys
  {
    match setHead
    case None =>
      && (forall x :: x in mid ==> after.blocks[x].isCanon == mid[x].isCanon)
      && after.canonDepth == canonDepth
      && after.head == head
    case Some(h) =>
      && IsTree(ShapeOf(mid)) && head in mid && h in mid
      && var r := RouteOf(ShapeOf(mid), head, h);
      RouteInTree(ShapeOf(mid), head, h);
      && (forall x :: x in mid ==>
            after.blocks[x].isCanon == (x in r.Enacted() || (x !in r.Retracted() && mid[x].isCanon)))
      && after.canonDepth == EnactAll(RetractAll(canonDepth, ShapeOf(mid), r.Retracted()), ShapeOf(mid), r.Enacted())
      && after.head == h
  }

  /**
   * What applying the verified batch `imp` of `op` to `before` leaves: the
   * accepted blocks written, each new child appended once to its parent,
   * the canonical chain moved to the new head if one is given, and the
   * auxiliary removals then insertions applied.
   */
  ghost predicate Applied(before: StoreView, op: Operation, imp: map<Id, Pending>, after: StoreView)
  {
    var mid := Inserted(before.blocks, imp);
    && ChildrenAppended(mid, ParentsOf(imp), ParentsOf(imp).Keys, after.blocks)
    && FlagsAndChildrenOnly(mid, after.blocks)
    && after.genesis == before.genesis
    && after.aux == InsertAll(RemoveAll(before.aux, op.removeAuxiliaries), op.insertAuxiliaries)
    && HeadMoved(before.head, before.canonDepth, mid, op.setHead, after)
  }

  /**
   * What settling `op` on the store `before` does, leaving `after`: a
   * parentless block fails with `IsGenesis`; a batch that cannot be ordered,
   * an unknown new head or an auxiliary naming an unknown block fails with
   * `InvalidOperation`; a failure changes nothing; a success applies the
   * verified batch.
   */
  ghost predicate Settled(before: StoreView, op: Operation, after: StoreView, r: Outcome<BackendError>)
  {
    var known := KnownDepths(before.blocks);
    var genesis := HasParentless(op.importBlock);
    && (r == Fail(IsGenesis) <==> genesis)
    && (r == Fail(InvalidOperation) <==>
          !genesis && (SomeStuck(op.importBlock, known) || !HeadKnown(before, op) || !AuxKnown(before, op)))
    && r != Fail(NotExist)
    && (r.Fail? ==> after == before)
    && (r.Pass? ==> exists imp :: Verified(Settlement, known, op.importBlock, imp) && Applied(before, op, imp, after))
  }

  /** Writing the accepted blocks of a consistent batch keeps the store a tree at unchanged depths. */
  lemma InsertedIsTree(before: StoreView, ops: seq<ImportOperation>, imp: map<Id, Pending>)
    requires Wf(before) && SameIdSameParent(ops) && StoredParentsAgree(before.blocks, ops)
    requires Verified(Settlement, KnownDepths(before.blocks), ops, imp)
    ensures IsTree(ShapeOf(Inserted(before.blocks, imp)))
    ensures forall x :: x in imp && x in before.blocks ==> imp[x].depth == before.blocks[x].depth
    ensures forall x :: x in imp ==> imp[x].op.block.parentHash.Some?
  {
    var known := KnownDepths(before.blocks);
    var s := ShapeOf(before.blocks);
    var t := ShapeOf(Inserted(before.blocks, imp));
    forall x | x in imp
      ensures imp[x].op.block.parentHash.Some?
      ensures x in before.blocks ==> imp[x].depth == before.blocks[x].depth
    {
      assert ParentAvailable(Settlement, known, imp, x);
      if x in before.blocks {
        assert LinkedAt(s, x);
        assert DepthOk(Settlement, known, imp, x);
      }
    }
    forall x | x in t
      ensures LinkedAt(t, x)
    {
      if x in imp {
        assert ParentAvailable(Settlement, known, imp, x);
        assert DepthOk(Settlement, known, imp, x);
      } else {
        assert LinkedAt(s, x);
      }
    }
    forall x, y | IsRoot(t, x) && IsRoot(t, y)
      ensures x == y
    {
      assert IsRoot(s, x) && IsRoot(s, y);
    }
  }

  /** Children lists are not part of the tree shape. */
  lemma RecordsKeptShape(mid: Blocks, blocks: Blocks)
    requires RecordsKept(mid, blocks)
    ensures ShapeOf(blocks) == ShapeOf(mid)
  {
  }

  /** Changing canonical flags keeps the appended children and the written records. */
  lemma ReflagKeeps(mid: Blocks, parents: map<Id, Id>, blocks: Blocks, ids: seq<Id>, flag: bool)
    requires ChildrenAppended(mid, parents, parents.Keys, blocks) && FlagsAndChildrenOnly(mid, blocks)
    ensures var b := Reflagged(blocks, ids, flag);
      ChildrenAppended(mid, parents, parents.Keys, b) && FlagsAndChildrenOnly(mid, b)
  {
    var b := Reflagged(blocks, ids, flag);
    forall x | x in mid
      ensures b[x].children == blocks[x].children
      ensures b[x] == mid[x].(children := b[x].children, isCanon := b[x].isCanon)
    {
    }
  }

  /** The flags after retracting `rs` and enacting `es`. */
  lemma RerouteFlags(blocks: Blocks, rs: seq<Id>, es: seq<Id>)
    ensures var b := Reflagged(Reflagged(blocks, rs, false), es, true);
      forall x :: x in blocks ==> b[x].isCanon == (x in es || (x !in rs && blocks[x].isCanon))
  {
  }

  /** Rerouting keeps the children lists and the written records, and moves the chain as `HeadMoved` says. */
  lemma RerouteApplies(mid: Blocks, parents: map<Id, Id>, fixed: StoreView, h: Id)
    requires IsTree(ShapeOf(mid)) && RecordsKept(mid, fixed.blocks)
    requires ChildrenAppended(mid, parents, parents.Keys, fixed.blocks)
    requires fixed.head in mid && h in mid
    ensures IsTree(ShapeOf(fixed.blocks))
    ensures var after := Rerouted(fixed, h);
      && ChildrenAppended(mid, parents, parents.Keys, after.blocks)
      && FlagsAndChildrenOnly(mid, after.blocks)
      && HeadMoved(fixed.head, fixed.canonDepth, mid, Some(h), after)
  {
    RecordsKeptShape(mid, fixed.blocks);
    var s := ShapeOf(mid);
    RouteInTree(s, fixed.head, h);
    var r := RouteOf(s, fixed.head, h);
    var after := Rerouted(fixed, h);
    var b1 := Reflagged(fixed.blocks, r.Retracted(), false);
    assert FlagsAndChildrenOnly(mid, fixed.blocks);
    ReflagKeeps(mid, parents, fixed.blocks, r.Retracted(), false);
    ReflagKeeps(mid, parents, b1, r.Enacted(), true);
    RerouteFlags(fixed.blocks, r.Retracted(), r.Enacted());
    assert after.blocks == Reflagged(b1, r.Enacted(), true);
  }

  /** Rerouting, when a head is given, and the auxiliary updates complete an application. */
  lemma AppliedSteps(before: StoreView, op: Operation, imp: map<Id, Pending>, mid: Blocks, fixed: StoreView,
                     rerouted: StoreView, after: StoreView)
    requires mid == Inserted(before.blocks, imp) && IsTree(ShapeOf(mid))
    requires ChildrenAppended(mid, ParentsOf(imp), ParentsOf(imp).Keys, fixed.blocks)
    requires RecordsKept(mid, fixed.blocks) && IsTree(ShapeOf(fixed.blocks))
    requires fixed == before.(blocks := fixed.blocks)
    requires op.setHead.Some? ==> before.head in mid && op.setHead.value in mid
    requires rerouted == if op.setHead.Some? then Rerouted(fixed, op.setHead.value) else fixed
    requires after == rerouted.(aux := InsertAll(RemoveAll(rerouted.aux, op.removeAuxiliaries), op.insertAuxiliaries))
    ensures Applied(before, op, imp, after)
  {
    if op.setHead.Some? {
      RerouteApplies(mid, ParentsOf(imp), fixed, op.setHead.value);
    }
  }

  /**
   * The prechecks of a settlement, none of which writes: the verification
   * pass, the new head and the blocks named by inserted auxiliaries.
   */
  method CheckOperation(op: Operation, store: ChainStore) returns (r: Result<map<Id, Pending>, BackendError>)
    ensures (r.Err? && r.error == IsGenesis) <==> HasParentless(op.importBlock)
    ensures (r.Err? && r.error == InvalidOperation) <==>
      && !HasParentless(op.importBlock)
      && (SomeStuck(op.importBlock, KnownDepths(store.blocks)) || !HeadKnown(store.View(), op) || !AuxKnown(store.View(), op))
    ensures r.Err? ==> r.error != NotExist
    ensures r.Ok? ==> Verified(Settlement, KnownDepths(store.blocks), op.importBlock, r.value)
  {
    var known := KnownDepths(store.blocks);
    r := VerifyImports(Settlement, known, op.importBlock);
    if r.Err? {
      return;
    }
    var importing := r.value;
    if op.setHead.Some? && !(store.Contains(op.setHead.value) || op.setHead.value in importing) {
      return Err(InvalidOperation);
    }
    var auxOk := CheckAuxiliaries(known, importing, op.insertAuxiliaries);
    if !auxOk {
      return Err(InvalidOperation);
    }
  }

  /** The writes of a settlement whose prechecks passed with the accepted blocks `importing`. */
  method Apply(op: Operation, store: ChainStore, importing: map<Id, Pending>)
    requires Wf(store.View())
    requires SameIdSameParent(op.importBlock) && StoredParentsAgree(store.blocks, op.importBlock)
    requires Verified(Settlement, KnownDepths(store.blocks), op.importBlock, importing)
    requires HeadKnown(store.View(), op)
    modifies store
    ensures Applied(old(store.View()), op, importing, store.View())
  {
    ghost var before := store.View();
    ghost var known := KnownDepths(store.blocks);
    InsertedIsTree(before, op.importBlock, importing);
    InsertImported(store, importing);
    var parents := ParentsOf(importing);
    forall c | c in parents
      ensures parents[c] in store.blocks
    {
      assert ParentAvailable(Settlement, known, importing, c);
    }
    FixChildren(store, parents);
    ghost var fixed := store.View();
    ghost var mid := Inserted(before.blocks, importing);
    RecordsKeptShape(mid, fixed.blocks);
    if op.setHead.Some? {
      Reroute(store, op.setHead.value);
    }
    ghost var rerouted := store.View();
    ApplyAuxiliaries(store, op.removeAuxiliaries, op.insertAuxiliaries);
    AppliedSteps(before, op, importing, mid, fixed, rerouted, store.View());
  }

  /**
   * Settles `op` on `store`. Every check precedes the first write, so a
   * failed settlement leaves the store as it was.
   */
  method Settle(op: Operation, store: ChainStore) returns (r: Outcome<BackendError>)
    requires Wf(store.View())
    requires SameIdSameParent(op.importBlock) && StoredParentsAgree(store.blocks, op.importBlock)
    modifies store
    ensures Settled(old(store.View()), op, store.View(), r)
  {
    var checked := CheckOperation(op, store);
    if checked.Err? {
      return Fail(checked.error);
    }
    Apply(op, store, checked.value);
    return Pass;
  }
}
