/**
 * The block tree as the backends see it: every stored id has an optional
 * parent and a depth. Ancestors, the deepest common ancestor and the tree
 * route between two blocks are defined here, declaratively, as the
 * specification of the imperative walk in `Route.TreeRoute`.
 */
module Tree {
  import opened Wrappers
  import opened ChainTypes

  /** Where a stored block hangs in the tree. */
  datatype Link = Link(parent: Option<Id>, depth: nat)

  type Shape = map<Id, Link>

  /** A parentless block sits at depth 0; a block's parent is stored one level up. */
  ghost predicate LinkedAt(s: Shape, x: Id)
    requires x in s
  {
    match s[x].parent
    case None => s[x].depth == 0
    case Some(p) => p in s && s[p].depth + 1 == s[x].depth
  }

  ghost predicate Linked(s: Shape)
  {
    forall x {:trigger LinkedAt(s, x)} :: x in s ==> LinkedAt(s, x)
  }

  ghost predicate IsRoot(s: Shape, x: Id)
  {
    x in s && s[x].parent.None?
  }

  /** At most one stored block has no parent (the genesis block). */
  ghost predicate SingleRoot(s: Shape)
  {
    forall x, y {:trigger IsRoot(s, x), IsRoot(s, y)} :: IsRoot(s, x) && IsRoot(s, y) ==> x == y
  }

  ghost predicate IsTree(s: Shape)
  {
    Linked(s) && SingleRoot(s)
  }

  /** The ancestor-or-self of `x` at depth `d`. */
  ghost function AncestorAt(s: Shape, x: Id, d: nat): (a: Id)
    requires Linked(s) && x in s && d <= s[x].depth
    ensures a in s && s[a].depth == d
    decreases s[x].depth - d
  {
    assert LinkedAt(s, x);
    if s[x].depth == d then x else AncestorAt(s, s[x].parent.value, d)
  }

  ghost predicate IsAncestorOrSelf(s: Shape, a: Id, x: Id)
    requires Linked(s)
  {
    a in s && x in s && s[a].depth <= s[x].depth && AncestorAt(s, x, s[a].depth) == a
  }

  /**
   * For two blocks at the same depth, the depth at which their ancestor
   * lines first coincide.
   */
  ghost function MeetDepth(s: Shape, x: Id, y: Id): (m: nat)
    requires Linked(s) && x in s && y in s && s[x].depth == s[y].depth
    ensures m <= s[x].depth
    decreases s[x].depth
  {
    assert LinkedAt(s, x) && LinkedAt(s, y);
    if x == y || s[x].depth == 0 then s[x].depth
    else MeetDepth(s, s[x].parent.value, s[y].parent.value)
  }

  function Min(a: nat, b: nat): nat
  {
    if a <= b then a else b
  }

  /** The depth of the deepest common ancestor of `x` and `y`. */
  ghost function CommonDepth(s: Shape, x: Id, y: Id): (c: nat)
    requires Linked(s) && x in s && y in s
    ensures c <= s[x].depth && c <= s[y].depth
  {
    var m := Min(s[x].depth, s[y].depth);
    MeetDepth(s, AncestorAt(s, x, m), AncestorAt(s, y, m))
  }

  // ---------------------------------------------------------------- lemmas

  /** Walking up in two steps reaches the same ancestor as walking up at once. */
  lemma {:induction false} AncestorTrans(s: Shape, x: Id, d1: nat, d2: nat)
    requires Linked(s) && x in s && d1 <= d2 <= s[x].depth
    ensures AncestorAt(s, AncestorAt(s, x, d2), d1) == AncestorAt(s, x, d1)
    decreases s[x].depth - d2
  {
    assert LinkedAt(s, x);
    if s[x].depth != d2 {
      AncestorTrans(s, s[x].parent.value, d1, d2);
    }
  }

  /** One level above the ancestor at depth `d` is the ancestor at depth `d - 1`. */
  lemma AncestorParent(s: Shape, x: Id, d: nat)
    requires Linked(s) && x in s && 0 < d <= s[x].depth
    ensures s[AncestorAt(s, x, d)].parent == Some(AncestorAt(s, x, d - 1))
  {
    var a := AncestorAt(s, x, d);
    assert LinkedAt(s, a);
    AncestorTrans(s, x, d - 1, d);
  }

  /** Every block of a single-rooted tree descends from the same depth-0 block. */
  lemma SameRoot(s: Shape, x: Id, y: Id)
    requires IsTree(s) && x in s && y in s
    ensures AncestorAt(s, x, 0) == AncestorAt(s, y, 0)
  {
    var a, b := AncestorAt(s, x, 0), AncestorAt(s, y, 0);
    assert LinkedAt(s, a) && LinkedAt(s, b);
    assert IsRoot(s, a) && IsRoot(s, b);
  }

  /** Once two ancestor lines meet, they agree all the way down to the root. */
  lemma AgreeBelow(s: Shape, x: Id, y: Id, d: nat, e: nat)
    requires Linked(s) && x in s && y in s && e <= d <= s[x].depth && d <= s[y].depth
    requires AncestorAt(s, x, d) == AncestorAt(s, y, d)
    ensures AncestorAt(s, x, e) == AncestorAt(s, y, e)
  {
    AncestorTrans(s, x, e, d);
    AncestorTrans(s, y, e, d);
  }

  /** Two ancestor lines of equal depth coincide at and below the meeting depth, and nowhere above it. */
  lemma {:induction false} MeetDepthCorrect(s: Shape, x: Id, y: Id)
    requires IsTree(s) && x in s && y in s && s[x].depth == s[y].depth
    ensures AncestorAt(s, x, MeetDepth(s, x, y)) == AncestorAt(s, y, MeetDepth(s, x, y))
    ensures forall d :: MeetDepth(s, x, y) < d <= s[x].depth ==> AncestorAt(s, x, d) != AncestorAt(s, y, d)
    decreases s[x].depth
  {
    assert LinkedAt(s, x) && LinkedAt(s, y);
    assert IsRoot(s, x) == s[x].parent.None? && IsRoot(s, y) == s[y].parent.None?;
    if x == y || s[x].depth == 0 {
    } else {
      var px, py := s[x].parent.value, s[y].parent.value;
      MeetDepthCorrect(s, px, py);
      var m := MeetDepth(s, px, py);
      forall d | m < d <= s[x].depth
        ensures AncestorAt(s, x, d) != AncestorAt(s, y, d)
      {
        if d < s[x].depth {
          assert AncestorAt(s, x, d) == AncestorAt(s, px, d);
          assert AncestorAt(s, y, d) == AncestorAt(s, py, d);
        }
      }
    }
  }

  /**
   * The common depth is where the ancestor lines of `x` and `y` meet: their
   * ancestors agree at and below it and differ at every depth above it.
   */
  lemma CommonDepthCorrect(s: Shape, x: Id, y: Id)
    requires IsTree(s) && x in s && y in s
    ensures AncestorAt(s, x, CommonDepth(s, x, y)) == AncestorAt(s, y, CommonDepth(s, x, y))
    ensures forall d :: CommonDepth(s, x, y) < d <= Min(s[x].depth, s[y].depth) ==>
      AncestorAt(s, x, d) != AncestorAt(s, y, d)
  {
    var m := Min(s[x].depth, s[y].depth);
    var ax, ay := AncestorAt(s, x, m), AncestorAt(s, y, m);
    MeetDepthCorrect(s, ax, ay);
    var c := MeetDepth(s, ax, ay);
    AncestorTrans(s, x, c, m);
    AncestorTrans(s, y, c, m);
    forall d | c < d <= m
      ensures AncestorAt(s, x, d) != AncestorAt(s, y, d)
    {
      AncestorTrans(s, x, d, m);
      AncestorTrans(s, y, d, m);
    }
  }
}
