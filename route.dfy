/**
 * Tree routes (src/backend/route.rs): the path from one block to another
 * through their deepest common ancestor, split at a pivot into the retracted
 * part, the common block and the enacted part.
 */
module Route {
  import opened Wrappers
  import opened ChainTypes
  import opened Tree

  datatype TreeRoute = TreeRoute(route: seq<Id>, pivot: nat)
  {
    /** The blocks left behind, from `from` up towards the common block. */
    function Retracted(): (r: seq<Id>)
      requires pivot < |route|
      ensures |r| == pivot && forall i :: 0 <= i < pivot ==> r[i] == route[i]
    {
      route[..pivot]
    }

    /** The common ancestor of the two ends. */
    function CommonBlock(): (c: Id)
      requires pivot < |route|
      ensures c in route
    {
      route[pivot]
    }

    /** The blocks taken on, from just below the common block down to `to`. */
    function Enacted(): (r: seq<Id>)
      requires pivot < |route|
      ensures |r| == |route| - pivot - 1
      ensures forall j :: 0 <= j < |r| ==> r[j] == route[pivot + 1 + j]
    {
      route[pivot + 1..]
    }
  }

  /** The three accessors split the route without loss or overlap. */
  lemma SplitsRoute(t: TreeRoute)
    requires t.pivot < |t.route|
    ensures t.Retracted() + [t.CommonBlock()] + t.Enacted() == t.route
  {
  }

  /** The ancestors-or-self of `x` strictly below depth `c`, from `x` upward. */
  ghost function PathUp(s: Shape, x: Id, c: nat): (p: seq<Id>)
    requires Linked(s) && x in s && c <= s[x].depth
    ensures |p| == s[x].depth - c
    ensures forall i :: 0 <= i < |p| ==> p[i] == AncestorAt(s, x, s[x].depth - i)
    decreases s[x].depth - c
  {
    assert LinkedAt(s, x);
    if s[x].depth == c then [] else [x] + PathUp(s, s[x].parent.value, c)
  }

  /** The ancestors-or-self of `x` strictly below depth `c`, downward to `x`. */
  ghost function PathDown(s: Shape, x: Id, c: nat): (p: seq<Id>)
    requires Linked(s) && x in s && c <= s[x].depth
    ensures |p| == s[x].depth - c
    ensures forall j :: 0 <= j < |p| ==> p[j] == AncestorAt(s, x, c + 1 + j)
    decreases s[x].depth - c
  {
    assert LinkedAt(s, x);
    if s[x].depth == c then [] else PathDown(s, s[x].parent.value, c) + [x]
  }

  /**
   * The route between `from` and `to`: the part of the line of `from` below
   * their common depth, counted upward, then the common block, then the part
   * of the line of `to` below the common depth, counted downward.
   */
  ghost function RouteOf(s: Shape, from: Id, to: Id): (r: TreeRoute)
    requires IsTree(s) && from in s && to in s
    ensures r.pivot < |r.route|
  {
    var c := CommonDepth(s, from, to);
    TreeRoute(PathUp(s, from, c) + [AncestorAt(s, to, c)] + PathDown(s, to, c), s[from].depth - c)
  }

  /**
   * `tree_route`: walk the deeper block up to the depth of the other one,
   * then walk both up in lockstep until they meet. Unknown ends give
   * `NotExist`; on a tree the walks always meet, so the source's panicking
   * branches are unreachable.
   */
  method FindTreeRoute(s: Shape, fromId: Id, toId: Id) returns (r: Result<TreeRoute, BackendError>)
    requires IsTree(s)
    ensures r.Err? <==> fromId !in s || toId !in s
    ensures r.Err? ==> r.error == NotExist
    ensures r.Ok? ==> fromId in s && toId in s && r.value == RouteOf(s, fromId, toId)
  {
    if fromId !in s || toId !in s {
      return Err(NotExist);
    }
    var from, to := fromId, toId;
    var fromBranch: seq<Id>, toBranch: seq<Id> := [], [];
    var fromDepth, toDepth := s[from].depth, s[to].depth;
    ghost var df, dt := fromDepth, toDepth;

    while toDepth > fromDepth
      invariant to in s && s[to].depth == toDepth && fromDepth == df && Min(df, dt) <= toDepth <= dt
      invariant to == AncestorAt(s, toId, toDepth)
      invariant |toBranch| == dt - toDepth
      invariant forall i :: 0 <= i < |toBranch| ==> toBranch[i] == AncestorAt(s, toId, dt - i)
    {
      assert LinkedAt(s, to);
      var parent := s[to].parent.value;
      AncestorParent(s, toId, toDepth);
      toBranch := toBranch + [to];
      to := parent;
      toDepth := s[parent].depth;
    }

    while fromDepth > toDepth
      invariant from in s && s[from].depth == fromDepth && fromDepth <= df
      invariant toDepth == Min(df, dt) <= fromDepth
      invariant from == AncestorAt(s, fromId, fromDepth)
      invariant |fromBranch| == df - fromDepth
      invariant forall i :: 0 <= i < |fromBranch| ==> fromBranch[i] == AncestorAt(s, fromId, df - i)
    {
      assert LinkedAt(s, from);
      var parent := s[from].parent.value;
      AncestorParent(s, fromId, fromDepth);
      fromBranch := fromBranch + [from];
      from := parent;
      fromDepth := s[parent].depth;
    }

    ghost var d := fromDepth;
    ghost var c := CommonDepth(s, fromId, toId);
    while from != to
      invariant from in s && to in s && s[from].depth == d && s[to].depth == d && d <= Min(df, dt)
      invariant from == AncestorAt(s, fromId, d) && to == AncestorAt(s, toId, d)
      invariant |fromBranch| == df - d && |toBranch| == dt - d
      invariant forall i :: 0 <= i < |fromBranch| ==> fromBranch[i] == AncestorAt(s, fromId, df - i)
      invariant forall i :: 0 <= i < |toBranch| ==> toBranch[i] == AncestorAt(s, toId, dt - i)
      invariant MeetDepth(s, from, to) == c
      decreases d
    {
      assert LinkedAt(s, from) && LinkedAt(s, to);
      assert IsRoot(s, from) == s[from].parent.None? && IsRoot(s, to) == s[to].parent.None?;
      assert s[to].parent.Some? && s[from].parent.Some?;
      var toParent := s[to].parent.value;
      var fromParent := s[from].parent.value;
      AncestorParent(s, toId, d);
      AncestorParent(s, fromId, d);
      toBranch := toBranch + [to];
      to := toParent;
      fromBranch := fromBranch + [from];
      from := fromParent;
      d := d - 1;
    }

    var pivot := |fromBranch|;
    var route := fromBranch + [to] + Reverse(toBranch);
    assert d == c;
    Assembled(s, fromId, toId, c, fromBranch, toBranch, route);
    r := Ok(TreeRoute(route, pivot));
  }

  /** `xs` back to front. */
  function Reverse(xs: seq<Id>): (r: seq<Id>)
    ensures |r| == |xs|
    ensures forall j :: 0 <= j < |xs| ==> r[j] == xs[|xs| - 1 - j]
  {
    if xs == [] then [] else Reverse(xs[1..]) + [xs[0]]
  }

  /** The branches collected by the walks, joined at the meeting block at depth `c`, form the route through `c`. */
  lemma Assembled(s: Shape, fromId: Id, toId: Id, c: nat, fromBranch: seq<Id>, toBranch: seq<Id>, route: seq<Id>)
    requires Linked(s) && fromId in s && toId in s && c <= s[fromId].depth && c <= s[toId].depth
    requires |fromBranch| == s[fromId].depth - c && |toBranch| == s[toId].depth - c
    requires forall i :: 0 <= i < |fromBranch| ==> fromBranch[i] == AncestorAt(s, fromId, s[fromId].depth - i)
    requires forall i :: 0 <= i < |toBranch| ==> toBranch[i] == AncestorAt(s, toId, s[toId].depth - i)
    requires |route| == |fromBranch| + 1 + |toBranch|
    requires forall i :: 0 <= i < |fromBranch| ==> route[i] == fromBranch[i]
    requires route[|fromBranch|] == AncestorAt(s, toId, c)
    requires forall j :: |fromBranch| + 1 <= j < |route| ==> route[j] == toBranch[|toBranch| + |fromBranch| - j]
    ensures route == PathUp(s, fromId, c) + [AncestorAt(s, toId, c)] + PathDown(s, toId, c)
  {
    var up, down := PathUp(s, fromId, c), PathDown(s, toId, c);
    var whole := up + [AncestorAt(s, toId, c)] + down;
    var pivot := |fromBranch|;
    forall i | 0 <= i < |route|
      ensures route[i] == whole[i]
    {
      if i < pivot {
        assert whole[i] == up[i];
      } else if i > pivot {
        assert whole[i] == down[i - pivot - 1];
      }
    }
  }

  // ------------------------------------------------------- route properties

  /** The three parts of a route, in terms of the common depth. */
  lemma RouteParts(s: Shape, from: Id, to: Id)
    requires IsTree(s) && from in s && to in s
    ensures var r := RouteOf(s, from, to); var c := CommonDepth(s, from, to);
      && r.Retracted() == PathUp(s, from, c)
      && r.CommonBlock() == AncestorAt(s, to, c)
      && r.Enacted() == PathDown(s, to, c)
  {
    var r := RouteOf(s, from, to);
    var c := CommonDepth(s, from, to);
    var up, down := PathUp(s, from, c), PathDown(s, to, c);
    assert r.route == up + [AncestorAt(s, to, c)] + down;
    assert r.route[..|up|] == up;
    assert r.route[|up| + 1..] == down;
  }

  /** A block lies on the upward path exactly when it is an ancestor-or-self of `x` strictly below depth `c`. */
  lemma PathUpMembers(s: Shape, x: Id, c: nat, y: Id)
    requires Linked(s) && x in s && c <= s[x].depth
    ensures y in PathUp(s, x, c) <==> y in s && c < s[y].depth <= s[x].depth && AncestorAt(s, x, s[y].depth) == y
  {
    var up := PathUp(s, x, c);
    if y in s && c < s[y].depth <= s[x].depth && AncestorAt(s, x, s[y].depth) == y {
      assert up[s[x].depth - s[y].depth] == y;
    }
  }

  /** A block lies on the downward path exactly when it is an ancestor-or-self of `x` strictly below depth `c`. */
  lemma PathDownMembers(s: Shape, x: Id, c: nat, y: Id)
    requires Linked(s) && x in s && c <= s[x].depth
    ensures y in PathDown(s, x, c) <==> y in s && c < s[y].depth <= s[x].depth && AncestorAt(s, x, s[y].depth) == y
  {
    var down := PathDown(s, x, c);
    if y in s && c < s[y].depth <= s[x].depth && AncestorAt(s, x, s[y].depth) == y {
      assert down[s[y].depth - c - 1] == y;
    }
  }

  /**
   * The common block is an ancestor-or-self of both ends and the deepest such
   * block; the retracted and enacted parts span the depths between it and
   * each end.
   */
  lemma RouteCommon(s: Shape, from: Id, to: Id)
    requires IsTree(s) && from in s && to in s
    ensures var r := RouteOf(s, from, to); var c := CommonDepth(s, from, to);
      && |r.Retracted()| == s[from].depth - c
      && |r.Enacted()| == s[to].depth - c
      && r.CommonBlock() == AncestorAt(s, from, c) == AncestorAt(s, to, c)
      && IsAncestorOrSelf(s, r.CommonBlock(), from) && IsAncestorOrSelf(s, r.CommonBlock(), to)
      && (forall a :: IsAncestorOrSelf(s, a, from) && IsAncestorOrSelf(s, a, to) ==> s[a].depth <= c)
  {
    var c := CommonDepth(s, from, to);
    CommonDepthCorrect(s, from, to);
    RouteParts(s, from, to);
    forall a | IsAncestorOrSelf(s, a, from) && IsAncestorOrSelf(s, a, to)
      ensures s[a].depth <= c
    {
      assert AncestorAt(s, from, s[a].depth) == a == AncestorAt(s, to, s[a].depth);
    }
  }

  /**
   * The retracted blocks climb from `from` one level at a time; the enacted
   * blocks descend one level at a time, ending at `to`.
   */
  lemma RouteSteps(s: Shape, from: Id, to: Id)
    requires IsTree(s) && from in s && to in s
    ensures var r := RouteOf(s, from, to); var c := CommonDepth(s, from, to);
      && (forall i :: 0 <= i < |r.Retracted()| ==>
            IsAncestorOrSelf(s, r.Retracted()[i], from) && s[r.Retracted()[i]].depth == s[from].depth - i)
      && (forall j :: 0 <= j < |r.Enacted()| ==>
            IsAncestorOrSelf(s, r.Enacted()[j], to) && s[r.Enacted()[j]].depth == c + 1 + j)
  {
    RouteParts(s, from, to);
  }

  /** Every block on a route is a block of the tree. */
  lemma RouteInTree(s: Shape, from: Id, to: Id)
    requires IsTree(s) && from in s && to in s
    ensures forall x :: x in RouteOf(s, from, to).Retracted() ==> x in s
    ensures forall x :: x in RouteOf(s, from, to).Enacted() ==> x in s
  {
    RouteParts(s, from, to);
  }

  /** A block is retracted exactly when it is an ancestor-or-self of `from` strictly below the common depth. */
  lemma RetractedMembers(s: Shape, from: Id, to: Id, x: Id)
    requires IsTree(s) && from in s && to in s
    ensures x in RouteOf(s, from, to).Retracted() <==>
      x in s && CommonDepth(s, from, to) < s[x].depth <= s[from].depth && AncestorAt(s, from, s[x].depth) == x
  {
    RouteParts(s, from, to);
    PathUpMembers(s, from, CommonDepth(s, from, to), x);
  }

  /** A block is enacted exactly when it is an ancestor-or-self of `to` strictly below the common depth. */
  lemma EnactedMembers(s: Shape, from: Id, to: Id, x: Id)
    requires IsTree(s) && from in s && to in s
    ensures x in RouteOf(s, from, to).Enacted() <==>
      x in s && CommonDepth(s, from, to) < s[x].depth <= s[to].depth && AncestorAt(s, to, s[x].depth) == x
  {
    RouteParts(s, from, to);
    PathDownMembers(s, to, CommonDepth(s, from, to), x);
  }

  /** The route from a block to itself retracts and enacts nothing. */
  lemma RouteToSelf(s: Shape, x: Id)
    requires IsTree(s) && x in s
    ensures RouteOf(s, x, x).Retracted() == [] && RouteOf(s, x, x).Enacted() == []
    ensures RouteOf(s, x, x).CommonBlock() == x
  {
    RouteParts(s, x, x);
    assert AncestorAt(s, x, s[x].depth) == x;
    assert CommonDepth(s, x, x) == s[x].depth;
  }

  /** Moving to a descendant retracts nothing, and the old end is the common block. */
  lemma RouteToDescendant(s: Shape, from: Id, to: Id)
    requires IsTree(s) && IsAncestorOrSelf(s, from, to)
    ensures RouteOf(s, from, to).Retracted() == []
    ensures RouteOf(s, from, to).CommonBlock() == from
    ensures |RouteOf(s, from, to).Enacted()| == s[to].depth - s[from].depth
  {
    RouteParts(s, from, to);
    assert AncestorAt(s, from, s[from].depth) == from;
    assert CommonDepth(s, from, to) == s[from].depth;
  }
}
