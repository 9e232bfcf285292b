/**
 * The canonical chain across a settlement (src/backend/operation.rs lines
 * 128-158). The depth index keeps naming stored blocks whatever the batch.
 * A batch of new blocks keeps the index and the canonical flags on the
 * head's line of ancestors. A batch that re-imports a stored block rewrites
 * that block's record as not canonical, so without a new head the line and
 * the flags disagree afterwards.
 */
module CanonChain {
  import opened Wrappers
  import opened ChainTypes
  import opened Tree
  import opened Route
  import opened Store
  import opened Precheck
  import opened Settlement
  import opened Preservation

  // ------------------------------------------------ the index stays stored

  /** Enacting stored blocks over an index of stored blocks gives an index of stored blocks. */
  lemma {:induction false} EnactAllStored(canon: map<nat, Id>, s: Shape, ids: seq<Id>, keys: set<Id>)
    requires forall x :: x in ids ==> x in s && x in keys
    requires forall d :: d in canon ==> canon[d] in keys
    ensures forall d :: d in EnactAll(canon, s, ids) ==> EnactAll(canon, s, ids)[d] in keys
    decreases |ids|
  {
    if ids != [] {
      var n := |ids| - 1;
      assert forall x :: x in ids[..n] ==> x in ids;
      EnactAllStored(canon, s, ids[..n], keys);
    }
  }

  /** A successful settlement keeps every id of the canonical depth index stored. */
  lemma SettleKeepsCanonStored(before: StoreView, op: Operation, after: StoreView)
    requires CanonStored(before) && Settled(before, op, after, Pass)
    ensures CanonStored(after)
  {
    var imp := SettledBatch(before, op, after);
    var mid := Inserted(before.blocks, imp);
    assert after.blocks.Keys == mid.Keys;
    if op.setHead.Some? {
      var s := ShapeOf(mid);
      var r := RouteOf(s, before.head, op.setHead.value);
      RouteInTree(s, before.head, op.setHead.value);
      var kept := RetractAll(before.canonDepth, s, r.Retracted());
      assert forall d :: d in kept ==> kept[d] == before.canonDepth[d];
      EnactAllStored(kept, s, r.Enacted(), mid.Keys);
    }
  }

  // --------------------------------------------- new blocks keep the line

  /** Every block of `s` keeps its link in `t`. */
  ghost predicate Extends(s: Shape, t: Shape)
  {
    forall x :: x in s ==> x in t && t[x] == s[x]
  }

  /** The ancestors of a block of `s` are the same in any shape extending `s`. */
  lemma {:induction false} ExtendedAncestor(s: Shape, t: Shape, x: Id, d: nat)
    requires Linked(s) && Linked(t) && Extends(s, t) && x in s && d <= s[x].depth
    ensures AncestorAt(t, x, d) == AncestorAt(s, x, d)
    decreases s[x].depth - d
  {
    assert LinkedAt(s, x);
    if s[x].depth != d {
      ExtendedAncestor(s, t, s[x].parent.value, d);
    }
  }

  /** The ancestors-or-self of a block of `s` are the same in any shape extending `s`. */
  lemma ExtendedAncestorOrSelf(s: Shape, t: Shape, a: Id, x: Id)
    requires Linked(s) && Linked(t) && Extends(s, t) && x in s
    ensures IsAncestorOrSelf(t, a, x) <==> IsAncestorOrSelf(s, a, x)
  {
    if IsAncestorOrSelf(t, a, x) {
      ExtendedAncestor(s, t, x, t[a].depth);
    }
    if IsAncestorOrSelf(s, a, x) {
      ExtendedAncestor(s, t, x, s[a].depth);
    }
  }

  /**
   * Writing a batch of new blocks over a consistent store extends its shape,
   * leaves the new blocks off the head's line (they are not canonical) and
   * keeps the head's line of ancestors.
   */
  lemma FreshInserted(before: StoreView, imp: map<Id, Pending>)
    requires Wf(before) && CanonConsistent(before)
    requires imp.Keys !! before.blocks.Keys
    requires IsTree(ShapeOf(Inserted(before.blocks, imp)))
    ensures Extends(ShapeOf(before.blocks), ShapeOf(Inserted(before.blocks, imp)))
    ensures var mid := Inserted(before.blocks, imp);
      forall x :: x in mid ==> (mid[x].isCanon <==> IsAncestorOrSelf(ShapeOf(mid), x, before.head))
    ensures forall d :: d in before.canonDepth ==>
      before.canonDepth[d] == AncestorAt(ShapeOf(Inserted(before.blocks, imp)), before.head, d)
  {
    var mid := Inserted(before.blocks, imp);
    var s0, s := ShapeOf(before.blocks), ShapeOf(mid);
    assert Extends(s0, s);
    forall x | x in mid
      ensures mid[x].isCanon <==> IsAncestorOrSelf(s, x, before.head)
    {
      ExtendedAncestorOrSelf(s0, s, x, before.head);
    }
    forall d | d in before.canonDepth
      ensures before.canonDepth[d] == AncestorAt(s, before.head, d)
    {
      ExtendedAncestor(s0, s, before.head, d);
    }
  }

  /**
   * After rerouting from `from` to `to`, a block is on `to`'s line exactly
   * when it was enacted, or was on `from`'s line and was not retracted.
   */
  lemma RerouteLine(s: Shape, from: Id, to: Id, x: Id)
    requires IsTree(s) && from in s && to in s && x in s
    ensures var r := RouteOf(s, from, to);
      IsAncestorOrSelf(s, x, to) <==> x in r.Enacted() || (x !in r.Retracted() && IsAncestorOrSelf(s, x, from))
  {
    var c := CommonDepth(s, from, to);
    RetractedMembers(s, from, to, x);
    EnactedMembers(s, from, to, x);
    CommonDepthCorrect(s, from, to);
    if s[x].depth <= c {
      AgreeBelow(s, from, to, c, s[x].depth);
    }
  }

  /** Retracting the upward part `rs` of the route clears exactly the depths above the common depth. */
  lemma RetractAllAbove(canon: map<nat, Id>, s: Shape, from: Id, to: Id, rs: seq<Id>)
    requires IsTree(s) && from in s && to in s && rs == RouteOf(s, from, to).Retracted()
    requires forall x :: x in rs ==> x in s
    requires forall d: nat :: d in canon <==> d <= s[from].depth
    ensures forall d: nat :: d in RetractAll(canon, s, rs) <==> d <= CommonDepth(s, from, to)
  {
    var c := CommonDepth(s, from, to);
    RouteCommon(s, from, to);
    RouteSteps(s, from, to);
    var cleared := set x | x in rs :: s[x].depth;
    forall d: nat | c < d <= s[from].depth
      ensures d in cleared
    {
      var i := s[from].depth - d;
      assert rs[i] in rs && s[rs[i]].depth == d;
    }
    forall y | y in rs
      ensures c < s[y].depth
    {
      RetractedMembers(s, from, to, y);
    }
    assert RetractAll(canon, s, rs) == canon - cleared;
  }

  /**
   * Enacting blocks at the consecutive depths above `c` maps each of those
   * depths to its block and keeps every other entry.
   */
  lemma {:induction false} EnactAllRun(canon: map<nat, Id>, s: Shape, ids: seq<Id>, c: nat)
    requires forall x :: x in ids ==> x in s
    requires forall j :: 0 <= j < |ids| ==> s[ids[j]].depth == c + 1 + j
    ensures var m := EnactAll(canon, s, ids);
      && (forall d :: d in m <==> d in canon || c < d <= c + |ids|)
      && (forall j :: 0 <= j < |ids| ==> m[c + 1 + j] == ids[j])
      && (forall d :: d in canon && !(c < d <= c + |ids|) ==> m[d] == canon[d])
    decreases |ids|
  {
    if ids != [] {
      var n := |ids| - 1;
      var front := ids[..n];
      assert forall x :: x in front ==> x in ids;
      assert forall j :: 0 <= j < |front| ==> front[j] == ids[j];
      EnactAllRun(canon, s, front, c);
    }
  }

  /** The enacted part of a route holds `to`'s ancestors at the depths above the common depth. */
  lemma EnactedLine(s: Shape, from: Id, to: Id)
    requires IsTree(s) && from in s && to in s
    ensures var r := RouteOf(s, from, to); var c := CommonDepth(s, from, to);
      && |r.Enacted()| == s[to].depth - c
      && (forall j :: 0 <= j < |r.Enacted()| ==>
            r.Enacted()[j] in s && r.Enacted()[j] == AncestorAt(s, to, c + 1 + j) && s[r.Enacted()[j]].depth == c + 1 + j)
  {
    RouteParts(s, from, to);
  }

  /**
   * Enacting `to`'s ancestors at the depths above `c` over an index of the
   * depths up to `c` gives an index of every depth up to `to`'s.
   */
  lemma EnactLine(kept: map<nat, Id>, s: Shape, to: Id, es: seq<Id>, c: nat)
    requires Linked(s) && to in s && c + |es| == s[to].depth
    requires forall j :: 0 <= j < |es| ==> es[j] in s && es[j] == AncestorAt(s, to, c + 1 + j) && s[es[j]].depth == c + 1 + j
    requires forall d: nat :: d in kept <==> d <= c
    ensures var m := EnactAll(kept, s, es);
      && (forall d: nat :: d in m <==> d <= s[to].depth)
      && (forall d :: d in m && d <= c ==> m[d] == kept[d])
      && (forall d :: d in m && c < d ==> m[d] == AncestorAt(s, to, d))
  {
    assert forall x :: x in es ==> x in s;
    EnactAllRun(kept, s, es, c);
    var m := EnactAll(kept, s, es);
    forall d | d in m && c < d
      ensures m[d] == AncestorAt(s, to, d)
    {
      assert m[c + 1 + (d - c - 1)] == es[d - c - 1];
    }
  }

  /** The enacted part of the route from `from` to `to`: `to`'s ancestors above the common depth. */
  ghost function Line(s: Shape, from: Id, to: Id): (es: seq<Id>)
    requires IsTree(s) && from in s && to in s
    ensures |es| + CommonDepth(s, from, to) == s[to].depth
    ensures forall j :: 0 <= j < |es| ==>
      es[j] in s && es[j] == AncestorAt(s, to, CommonDepth(s, from, to) + 1 + j)
      && s[es[j]].depth == CommonDepth(s, from, to) + 1 + j
  {
    EnactedLine(s, from, to);
    RouteOf(s, from, to).Enacted()
  }

  /** A depth index of `from`'s line with the retracted part of the route removed: the depths up to the common depth. */
  ghost function Kept(canon: map<nat, Id>, s: Shape, from: Id, to: Id): (k: map<nat, Id>)
    requires IsTree(s) && from in s && to in s
    requires forall d: nat :: d in canon <==> d <= s[from].depth
    ensures forall d: nat :: d in k <==> d <= CommonDepth(s, from, to)
    ensures forall d :: d in k ==> k[d] == canon[d]
  {
    var r := RouteOf(s, from, to);
    RouteInTree(s, from, to);
    RetractAllAbove(canon, s, from, to, r.Retracted());
    RetractAll(canon, s, r.Retracted())
  }

  /**
   * The depth index after the canonical chain is moved along the tree route
   * from `from` to `to`: the retracted part's depths removed, then the
   * enacted part's blocks mapped at theirs.
   */
  ghost function Moved(canon: map<nat, Id>, s: Shape, from: Id, to: Id): map<nat, Id>
    requires IsTree(s) && from in s && to in s
    requires forall d: nat :: d in canon <==> d <= s[from].depth
  {
    EnactAll(Kept(canon, s, from, to), s, Line(s, from, to))
  }

  /** `Moved` is the index the reroute of a settlement leaves. */
  lemma MovedIsRerouted(canon: map<nat, Id>, s: Shape, from: Id, to: Id)
    requires IsTree(s) && from in s && to in s
    requires forall d: nat :: d in canon <==> d <= s[from].depth
    ensures (RouteInTree(s, from, to);
      Moved(canon, s, from, to) == EnactAll(RetractAll(canon, s, RouteOf(s, from, to).Retracted()), s, RouteOf(s, from, to).Enacted()))
  {
  }

  /**
   * Moving the canonical chain along the tree route from `from` to `to`
   * turns a depth index of `from`'s line into a depth index of `to`'s line.
   */
  lemma RerouteIndex(canon: map<nat, Id>, s: Shape, from: Id, to: Id)
    requires IsTree(s) && from in s && to in s
    requires forall d: nat :: d in canon <==> d <= s[from].depth
    requires forall d :: d in canon ==> canon[d] == AncestorAt(s, from, d)
    ensures var m := Moved(canon, s, from, to);
      && (forall d: nat :: d in m <==> d <= s[to].depth)
      && (forall d :: d in m ==> m[d] == AncestorAt(s, to, d))
  {
    var c := CommonDepth(s, from, to);
    var kept := Kept(canon, s, from, to);
    EnactLine(kept, s, to, Line(s, from, to), c);
    CommonDepthCorrect(s, from, to);
    var m := Moved(canon, s, from, to);
    forall d | d in m && d <= c
      ensures m[d] == AncestorAt(s, to, d)
    {
      AgreeBelow(s, from, to, c, d);
    }
  }

  /** The canonical chain of an application of new blocks that stays on the old head. */
  lemma KeptHeadConsistent(before: StoreView, op: Operation, imp: map<Id, Pending>, after: StoreView)
    requires Wf(before) && CanonConsistent(before) && Wf(after)
    requires imp.Keys !! before.blocks.Keys && IsTree(ShapeOf(Inserted(before.blocks, imp)))
    requires Applied(before, op, imp, after) && op.setHead.None?
    ensures CanonConsistent(after)
  {
    var mid := Inserted(before.blocks, imp);
    FreshInserted(before, imp);
    FlagsAndChildrenShape(mid, after.blocks);
    assert after.blocks[after.head].depth == before.blocks[before.head].depth;
  }

  /** The flags after a reroute from the head's line, as the tree route from `head` to `h` leaves them. */
  lemma ReroutedFlags(head: Id, canon: map<nat, Id>, mid: Blocks, h: Id, after: StoreView)
    requires IsTree(ShapeOf(mid)) && head in mid && h in mid
    requires forall x :: x in mid ==> (mid[x].isCanon <==> IsAncestorOrSelf(ShapeOf(mid), x, head))
    requires after.blocks.Keys == mid.Keys && HeadMoved(head, canon, mid, Some(h), after)
    ensures forall x :: x in after.blocks ==> (after.blocks[x].isCanon <==> IsAncestorOrSelf(ShapeOf(mid), x, h))
  {
    forall x | x in after.blocks
      ensures after.blocks[x].isCanon <==> IsAncestorOrSelf(ShapeOf(mid), x, h)
    {
      RerouteLine(ShapeOf(mid), head, h, x);
    }
  }

  /** The depth index after a reroute from the head's line is `Moved`. */
  lemma ReroutedIndex(head: Id, canon: map<nat, Id>, mid: Blocks, h: Id, after: StoreView)
    requires IsTree(ShapeOf(mid)) && head in mid && h in mid
    requires forall d: nat :: d in canon <==> d <= mid[head].depth
    requires after.blocks.Keys == mid.Keys && HeadMoved(head, canon, mid, Some(h), after)
    ensures after.canonDepth == Moved(canon, ShapeOf(mid), head, h)
  {
    MovedIsRerouted(canon, ShapeOf(mid), head, h);
  }

  /** A store whose head, flags and index follow `h`'s line in its own shape is consistent. */
  lemma OnLineConsistent(s: Shape, canon: map<nat, Id>, from: Id, h: Id, after: StoreView)
    requires Wf(after) && ShapeOf(after.blocks) == s && after.head == h && from in s
    requires forall x :: x in after.blocks ==> (after.blocks[x].isCanon <==> IsAncestorOrSelf(s, x, h))
    requires forall d: nat :: d in canon <==> d <= s[from].depth
    requires forall d :: d in canon ==> canon[d] == AncestorAt(s, from, d)
    requires after.canonDepth == Moved(canon, s, from, h)
    ensures CanonConsistent(after)
  {
    RerouteIndex(canon, s, from, h);
  }

  /** The canonical chain of an application of new blocks that moves to a new head. */
  lemma MovedHeadConsistent(before: StoreView, op: Operation, imp: map<Id, Pending>, after: StoreView)
    requires Wf(before) && CanonConsistent(before) && Wf(after)
    requires imp.Keys !! before.blocks.Keys && IsTree(ShapeOf(Inserted(before.blocks, imp)))
    requires Applied(before, op, imp, after) && op.setHead.Some?
    ensures CanonConsistent(after)
  {
    var mid := Inserted(before.blocks, imp);
    var h := op.setHead.value;
    FreshInserted(before, imp);
    FlagsAndChildrenShape(mid, after.blocks);
    assert mid[before.head].depth == before.blocks[before.head].depth;
    ReroutedFlags(before.head, before.canonDepth, mid, h, after);
    ReroutedIndex(before.head, before.canonDepth, mid, h, after);
    OnLineConsistent(ShapeOf(mid), before.canonDepth, before.head, h, after);
  }

  /**
   * A successful settlement of a batch of blocks none of which is stored
   * keeps the canonical chain the head's line of ancestors: the depth index
   * and the canonical flags follow the head, moved or not.
   */
  lemma SettleKeepsCanonConsistent(before: StoreView, op: Operation, after: StoreView)
    requires Wf(before) && CanonConsistent(before) && SameIdSameParent(op.importBlock)
    requires forall o :: o in op.importBlock ==> o.block.hash !in before.blocks
    requires Settled(before, op, after, Pass)
    ensures Wf(after) && CanonConsistent(after)
  {
    SettleKeepsWf(before, op, after);
    var imp := SettledBatch(before, op, after);
    forall x | x in imp
      ensures x !in before.blocks
    {
      assert imp[x].op in op.importBlock;
    }
    InsertedIsTree(before, op.importBlock, imp);
    if op.setHead.Some? {
      MovedHeadConsistent(before, op, imp, after);
    } else {
      KeptHeadConsistent(before, op, imp, after);
    }
  }

  // ------------------------------------------------------ re-importing

  /**
   * Re-importing stored blocks without a new head: every block of the batch
   * is left not canonical and the head stays, so when the head itself is
   * re-imported the store's head is no longer on the canonical chain.
   */
  lemma ReimportClearsCanon(before: StoreView, op: Operation, after: StoreView)
    requires op.setHead.None? && Settled(before, op, after, Pass)
    ensures after.head == before.head
    ensures forall x :: x in BatchIds(op.importBlock) ==> x in after.blocks && !after.blocks[x].isCanon
    ensures before.head in BatchIds(op.importBlock) && Wf(after) ==> !CanonConsistent(after)
  {
    var imp := SettledBatch(before, op, after);
    var mid := Inserted(before.blocks, imp);
    assert forall x :: x in imp ==> !mid[x].isCanon;
    if before.head in BatchIds(op.importBlock) && Wf(after) {
      var s := ShapeOf(after.blocks);
      assert AncestorAt(s, after.head, s[after.head].depth) == after.head;
      assert IsAncestorOrSelf(s, after.head, after.head);
    }
  }

  // ------------------------------------------- skipping stored blocks

  /** The operations of `ops` whose block is not stored, in order. */
  function Unstored(blocks: Blocks, ops: seq<ImportOperation>): (r: seq<ImportOperation>)
    ensures forall o :: o in r <==> o in ops && o.block.hash !in blocks
    ensures |r| <= |ops|
  {
    if ops == [] then []
    else
      var rest := Unstored(blocks, ops[1..]);
      assert forall o :: o in ops <==> o == ops[0] || o in ops[1..];
      if ops[0].block.hash in blocks then rest else [ops[0]] + rest
  }

  /**
   * The settlement as evidently intended: a batch block that is already
   * stored is left as it is, so only the new blocks are written; the head
   * change and the auxiliary updates are kept.
   */
  function SkipStored(blocks: Blocks, op: Operation): (o: Operation)
    ensures o.setHead == op.setHead
    ensures o.insertAuxiliaries == op.insertAuxiliaries && o.removeAuxiliaries == op.removeAuxiliaries
    ensures forall x :: x in o.importBlock <==> x in op.importBlock && x.block.hash !in blocks
  {
    op.(importBlock := Unstored(blocks, op.importBlock))
  }

  /**
   * Settling with stored blocks skipped keeps the store well formed and the
   * canonical chain on the head's line for every batch, re-imports included.
   */
  lemma SettleSkippingStoredKeepsCanon(before: StoreView, op: Operation, after: StoreView)
    requires Wf(before) && CanonConsistent(before) && SameIdSameParent(op.importBlock)
    requires Settled(before, SkipStored(before.blocks, op), after, Pass)
    ensures Wf(after) && CanonConsistent(after)
  {
    var skipped := SkipStored(before.blocks, op);
    assert SameIdSameParent(skipped.importBlock);
    SettleKeepsCanonConsistent(before, skipped, after);
  }
}
