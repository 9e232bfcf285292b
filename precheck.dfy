/**
 * The verification pass every commit starts with (src/backend/operation.rs
 * lines 56-107, src/backend/direct.rs lines 64-115, src/backend/memory.rs
 * lines 186-230): the batch is checked block by block against the store and
 * against the blocks accepted so far, repeating passes while any block is
 * accepted, so the batch may arrive in any order.
 */
module Precheck {
  import opened Wrappers
  import opened ChainTypes

  /**
   * The depth rule of a commit. `Settlement` is the rule of operation.rs and
   * direct.rs: a parentless block is refused and a child sits one level below
   * its parent. `MemoryAsWritten` is the rule of memory.rs: a parentless block
   * is accepted at depth 0 and a child is given its parent's own depth.
   */
  datatype Rule = Settlement | MemoryAsWritten

  /** A block accepted by the verification pass, with the depth assigned to it. */
  datatype Pending = Pending(op: ImportOperation, depth: nat)

  function Increment(rule: Rule): nat
  {
    if rule == Settlement then 1 else 0
  }

  /**
   * The depth a block is accepted at: from a stored parent, else from a parent
   * accepted earlier in the batch; `None` while the parent is neither.
   */
  function DepthFor(rule: Rule, known: map<Id, nat>, importing: map<Id, Pending>, b: Block): (d: Option<nat>)
    requires rule == MemoryAsWritten || b.parentHash.Some?
    ensures d.Some? <==> b.parentHash.None? || b.parentHash.value in known || b.parentHash.value in importing
  {
    match b.parentHash
    case None => Some(0)
    case Some(p) =>
      if p in known then Some(known[p] + Increment(rule))
      else if p in importing then Some(importing[p].depth + Increment(rule))
      else None
  }

  /** The parent of an accepted block is stored or accepted; only the memory rule accepts parentless blocks. */
  ghost predicate ParentAvailable(rule: Rule, known: map<Id, nat>, imp: map<Id, Pending>, x: Id)
    requires x in imp
  {
    match imp[x].op.block.parentHash
    case None => rule == MemoryAsWritten
    case Some(p) => p in known || p in imp
  }

  /** The depth of an accepted block follows its rule from its parent's depth. */
  ghost predicate DepthOk(rule: Rule, known: map<Id, nat>, imp: map<Id, Pending>, x: Id)
    requires x in imp
  {
    match imp[x].op.block.parentHash
    case None => imp[x].depth == 0
    case Some(p) =>
      || (p in known && imp[x].depth == known[p] + Increment(rule))
      || (p !in known && p in imp && imp[x].depth == imp[p].depth + Increment(rule))
  }

  /**
   * A non-empty set `R` of blocks of the batch that can never be accepted:
   * each has a parent that is not stored and is not the id of any block of
   * the batch outside `R`.
   */
  ghost predicate Stuck(ops: seq<ImportOperation>, known: map<Id, nat>, R: set<ImportOperation>)
  {
    && R != {}
    && forall o :: o in R ==>
      && o in ops
      && o.block.parentHash.Some?
      && o.block.parentHash.value !in known
      && forall o' :: o' in ops && o' !in R ==> o'.block.hash != o.block.parentHash.value
  }

  ghost predicate SomeStuck(ops: seq<ImportOperation>, known: map<Id, nat>)
  {
    exists R :: Stuck(ops, known, R)
  }

  /** The ids of the blocks in `S`. */
  ghost function HashesOf(S: set<ImportOperation>): set<Id>
  {
    set o | o in S :: o.block.hash
  }

  /**
   * What a successful verification pass produces: one entry per id of the
   * batch, each taken from a block of the batch, each with an available
   * parent, and (when equal ids carry equal parents) each at the depth its
   * rule gives.
   */
  ghost predicate Verified(rule: Rule, known: map<Id, nat>, ops: seq<ImportOperation>, imp: map<Id, Pending>)
  {
    && imp.Keys == BatchIds(ops)
    && (forall x :: x in imp ==> imp[x].op in ops && imp[x].op.block.hash == x)
    && (forall x {:trigger ParentAvailable(rule, known, imp, x)} :: x in imp ==> ParentAvailable(rule, known, imp, x))
    && (SameIdSameParent(ops) ==> forall x {:trigger DepthOk(rule, known, imp, x)} :: x in imp ==> DepthOk(rule, known, imp, x))
  }

  /** One accepted block of a verified batch, at the depth its rule gives. */
  lemma VerifiedEntry(rule: Rule, known: map<Id, nat>, ops: seq<ImportOperation>, imp: map<Id, Pending>, x: Id)
    requires Verified(rule, known, ops, imp) && SameIdSameParent(ops) && x in imp
    ensures imp[x].op in ops && imp[x].op.block.hash == x
    ensures ParentAvailable(rule, known, imp, x) && DepthOk(rule, known, imp, x)
  {
    assert ParentAvailable(rule, known, imp, x);
    assert DepthOk(rule, known, imp, x);
  }

  /** `parent_ides`: the parent of every accepted block that has one. */
  function ParentsOf(imp: map<Id, Pending>): (parents: map<Id, Id>)
    ensures forall x :: x in parents <==> x in imp && imp[x].op.block.parentHash.Some?
    ensures forall x :: x in parents ==> imp[x].op.block.parentHash == Some(parents[x])
  {
    map x | x in imp && imp[x].op.block.parentHash.Some? :: imp[x].op.block.parentHash.value
  }

  /** The state of the verification pass after accepting the blocks in `accepted`. */
  ghost predicate BatchInv(rule: Rule, known: map<Id, nat>, ops: seq<ImportOperation>, imp: map<Id, Pending>,
                           accepted: set<ImportOperation>)
  {
    && (forall o :: o in accepted ==> o in ops)
    && imp.Keys == HashesOf(accepted)
    && (forall x :: x in imp ==> imp[x].op in ops && imp[x].op.block.hash == x)
    && (forall x {:trigger ParentAvailable(rule, known, imp, x)} :: x in imp ==> ParentAvailable(rule, known, imp, x))
    && (SameIdSameParent(ops) ==> forall x {:trigger DepthOk(rule, known, imp, x)} :: x in imp ==> DepthOk(rule, known, imp, x))
    && (forall R :: Stuck(ops, known, R) ==> R !! accepted)
  }

  /** Accepting one more block keeps the pass's invariant. */
  lemma AcceptKeeps(rule: Rule, known: map<Id, nat>, ops: seq<ImportOperation>, imp: map<Id, Pending>,
                    accepted: set<ImportOperation>, op: ImportOperation, dep: nat)
    requires BatchInv(rule, known, ops, imp, accepted)
    requires op in ops && (rule == MemoryAsWritten || op.block.parentHash.Some?)
    requires DepthFor(rule, known, imp, op.block) == Some(dep)
    ensures BatchInv(rule, known, ops, imp[op.block.hash := Pending(op, dep)], accepted + {op})
  {
    assert HashesOf(accepted + {op}) == HashesOf(accepted) + {op.block.hash};
    AcceptKeepsParents(rule, known, imp, op, dep);
    if SameIdSameParent(ops) {
      AcceptKeepsDepths(rule, known, ops, imp, op, dep);
    }
    AcceptKeepsStuck(rule, known, ops, imp, accepted, op, dep);
  }

  lemma AcceptKeepsParents(rule: Rule, known: map<Id, nat>, imp: map<Id, Pending>, op: ImportOperation, dep: nat)
    requires forall x {:trigger ParentAvailable(rule, known, imp, x)} :: x in imp ==> ParentAvailable(rule, known, imp, x)
    requires rule == MemoryAsWritten || op.block.parentHash.Some?
    requires DepthFor(rule, known, imp, op.block) == Some(dep)
    ensures var imp' := imp[op.block.hash := Pending(op, dep)];
      forall y :: y in imp' ==> ParentAvailable(rule, known, imp', y)
  {
    var imp' := imp[op.block.hash := Pending(op, dep)];
    forall y | y in imp'
      ensures ParentAvailable(rule, known, imp', y)
    {
      if y != op.block.hash {
        assert ParentAvailable(rule, known, imp, y);
      }
    }
  }

  lemma AcceptKeepsDepths(rule: Rule, known: map<Id, nat>, ops: seq<ImportOperation>, imp: map<Id, Pending>,
                          op: ImportOperation, dep: nat)
    requires SameIdSameParent(ops)
    requires forall x :: x in imp ==> imp[x].op in ops && imp[x].op.block.hash == x
    requires forall x {:trigger DepthOk(rule, known, imp, x)} :: x in imp ==> DepthOk(rule, known, imp, x)
    requires op in ops && (rule == MemoryAsWritten || op.block.parentHash.Some?)
    requires DepthFor(rule, known, imp, op.block) == Some(dep)
    ensures var imp' := imp[op.block.hash := Pending(op, dep)];
      forall y :: y in imp' ==> DepthOk(rule, known, imp', y)
  {
    var x := op.block.hash;
    var imp' := imp[x := Pending(op, dep)];
    forall y | y in imp'
      ensures DepthOk(rule, known, imp', y)
    {
      if y == x {
        if x in imp {
          assert DepthOk(rule, known, imp, x);
        }
      } else {
        assert DepthOk(rule, known, imp, y);
        if x in imp && x !in known {
          assert imp[x].op.block.parentHash == op.block.parentHash;
          assert DepthOk(rule, known, imp, x);
        }
      }
    }
  }

  lemma AcceptKeepsStuck(rule: Rule, known: map<Id, nat>, ops: seq<ImportOperation>, imp: map<Id, Pending>,
                         accepted: set<ImportOperation>, op: ImportOperation, dep: nat)
    requires imp.Keys == HashesOf(accepted)
    requires forall o :: o in accepted ==> o in ops
    requires forall R :: Stuck(ops, known, R) ==> R !! accepted
    requires rule == MemoryAsWritten || op.block.parentHash.Some?
    requires DepthFor(rule, known, imp, op.block) == Some(dep)
    ensures forall R :: Stuck(ops, known, R) ==> R !! (accepted + {op})
  {
    forall R | Stuck(ops, known, R)
      ensures R !! (accepted + {op})
    {
      if op.block.parentHash.Some? && op.block.parentHash.value !in known {
        var p := op.block.parentHash.value;
        assert p in HashesOf(accepted);
        var a :| a in accepted && a.block.hash == p;
        assert a !in R;
      }
    }
  }

  /** Once every block of the batch is accepted, nothing is stuck. */
  lemma NoneStuck(ops: seq<ImportOperation>, known: map<Id, nat>, accepted: set<ImportOperation>)
    requires forall o :: o in ops ==> o in accepted
    requires forall R :: Stuck(ops, known, R) ==> R !! accepted
    ensures !SomeStuck(ops, known)
  {
    forall R
      ensures !Stuck(ops, known, R)
    {
      if R != {} {
        var o :| o in R;
      }
    }
  }

  /**
   * One pass over the pending blocks. A block whose parent is stored or
   * already accepted is accepted at the depth its rule gives; the others are
   * kept, in order, for the next pass. Under the settlement rule a parentless
   * block stops the pass with `genesis` set.
   */
  method VerifyPass(rule: Rule, known: map<Id, nat>, ops: seq<ImportOperation>, verifying: seq<ImportOperation>,
                    importing: map<Id, Pending>, ghost accepted: set<ImportOperation>)
    returns (genesis: bool, progress: bool, next: seq<ImportOperation>,
             importing': map<Id, Pending>, ghost accepted': set<ImportOperation>)
    requires forall o :: o in verifying ==> o in ops
    requires BatchInv(rule, known, ops, importing, accepted)
    ensures genesis <==> rule == Settlement && exists o :: o in verifying && o.block.parentHash.None?
    ensures !genesis ==> BatchInv(rule, known, ops, importing', accepted')
    ensures !genesis ==> accepted <= accepted'
    ensures !genesis ==> forall o :: o in verifying ==> o in accepted' || o in next
    ensures forall o :: o in next ==> o in ops
    ensures progress ==> |next| < |verifying|
    ensures !progress ==> |next| <= |verifying| && importing' == importing && accepted' == accepted
    ensures !genesis && !progress ==> forall o :: o in next ==>
      o.block.parentHash.Some? && o.block.parentHash.value !in known && o.block.parentHash.value !in importing
  {
    genesis, progress, next := false, false, [];
    importing', accepted' := importing, accepted;
    for j := 0 to |verifying|
      invariant forall o :: o in next ==> o in ops
      invariant accepted <= accepted'
      invariant forall k :: 0 <= k < j ==> verifying[k] in accepted' || verifying[k] in next
      invariant BatchInv(rule, known, ops, importing', accepted')
      invariant |next| + (if progress then 1 else 0) <= j
      invariant !progress ==> importing' == importing && accepted' == accepted
      invariant !progress ==> forall o :: o in next ==>
        o.block.parentHash.Some? && o.block.parentHash.value !in known && o.block.parentHash.value !in importing
      invariant rule == Settlement ==> forall k :: 0 <= k < j ==> verifying[k].block.parentHash.Some?
    {
      var op := verifying[j];
      if op.block.parentHash.None? && rule == Settlement {
        genesis := true;
        return;
      }
      var accept;
      accept, importing', accepted' := TryAccept(rule, known, ops, op, importing', accepted');
      if accept {
        progress := true;
      } else {
        next := next + [op];
      }
    }
  }

  /**
   * Accepts `op` when its parent is stored or already accepted, recording its
   * depth and its parent link.
   */
  method TryAccept(rule: Rule, known: map<Id, nat>, ops: seq<ImportOperation>, op: ImportOperation,
                   importing: map<Id, Pending>, ghost accepted: set<ImportOperation>)
    returns (accept: bool, importing': map<Id, Pending>, ghost accepted': set<ImportOperation>)
    requires op in ops && (rule == MemoryAsWritten || op.block.parentHash.Some?)
    requires BatchInv(rule, known, ops, importing, accepted)
    ensures accept <==>
      op.block.parentHash.None? || op.block.parentHash.value in known || op.block.parentHash.value in importing
    ensures accept ==> accepted' == accepted + {op} && BatchInv(rule, known, ops, importing', accepted')
    ensures !accept ==> importing' == importing && accepted' == accepted
  {
    importing', accepted' := importing, accepted;
    var depth := DepthFor(rule, known, importing, op.block);
    accept := depth.Some?;
    if accept {
      AcceptKeeps(rule, known, ops, importing, accepted, op, depth.value);
      importing' := importing[op.block.hash := Pending(op, depth.value)];
      accepted' := accepted + {op};
    }
  }

  /**
   * The verification worklist: passes repeat while blocks are pending. The
   * loop ends when nothing is left, and fails with `InvalidOperation` after a
   * pass that accepted nothing. Under the settlement rule a parentless block
   * fails the whole batch with `IsGenesis`.
   */
  method VerifyImports(rule: Rule, known: map<Id, nat>, ops: seq<ImportOperation>)
    returns (r: Result<map<Id, Pending>, BackendError>)
    ensures (r.Err? && r.error == IsGenesis) <==> rule == Settlement && HasParentless(ops)
    ensures (r.Err? && r.error == InvalidOperation) <==>
      !(rule == Settlement && HasParentless(ops)) && SomeStuck(ops, known)
    ensures r.Err? ==> r.error != NotExist
    ensures r.Ok? ==> Verified(rule, known, ops, r.value)
  {
    var importing: map<Id, Pending> := map[];
    var verifying := ops;
    ghost var accepted: set<ImportOperation> := {};
    ghost var firstPass := true;

    while true
      invariant forall o :: o in verifying ==> o in ops
      invariant forall o :: o in ops ==> o in accepted || o in verifying
      invariant BatchInv(rule, known, ops, importing, accepted)
      invariant firstPass ==> verifying == ops
      invariant !firstPass && rule == Settlement ==> !HasParentless(ops)
      decreases |verifying|
    {
      var genesis, progress, next;
      genesis, progress, next, importing, accepted := VerifyPass(rule, known, ops, verifying, importing, accepted);
      if genesis {
        return Err(IsGenesis);
      }
      if |next| == 0 {
        break;
      }
      if !progress {
        ghost var R := set o | o in next;
        assert next[0] in R;
        assert Stuck(ops, known, R);
        return Err(InvalidOperation);
      }
      verifying := next;
      firstPass := false;
    }

    NoneStuck(ops, known, accepted);
    assert HashesOf(accepted) == BatchIds(ops);
    return Ok(importing);
  }

  // ------------------------------------------------- memory.rs depth rule

  /**
   * As written in memory.rs, a child is given its parent's own depth, whether
   * the parent is stored or accepted earlier in the same batch, so parent and
   * child share a depth.
   */
  lemma MemoryRuleChildSharesParentDepth(known: map<Id, nat>, imp: map<Id, Pending>, child: Block)
    requires child.parentHash.Some?
    ensures child.parentHash.value in known ==>
              DepthFor(MemoryAsWritten, known, imp, child) == Some(known[child.parentHash.value])
    ensures child.parentHash.value !in known && child.parentHash.value in imp ==>
              DepthFor(MemoryAsWritten, known, imp, child) == Some(imp[child.parentHash.value].depth)
  {
  }

  /**
   * Under the settlement rule a child sits exactly one level below its parent,
   * whether the parent is stored or accepted earlier in the same batch.
   */
  lemma SettlementChildBelowParent(known: map<Id, nat>, imp: map<Id, Pending>, child: Block)
    requires child.parentHash.Some?
    ensures child.parentHash.value in known ==>
              DepthFor(Settlement, known, imp, child) == Some(known[child.parentHash.value] + 1)
    ensures child.parentHash.value !in known && child.parentHash.value in imp ==>
              DepthFor(Settlement, known, imp, child) == Some(imp[child.parentHash.value].depth + 1)
  {
  }
}
