/**
 * Child-space geometry of the octree builder `ConstructOctree_F64`: the divider (centre) of a
 * node's cube, the sub-cube of each of the eight children, and the builder's initialisation.
 *
 * The pure functions `Midpoint` and `ChildCube` state what the in-place methods compute; the
 * lemmas state what the subdivision guarantees (half-size children inside the parent that tile it).
 */
module ConstructOctree {
  import opened Geometry

  /** Bit value 1 of a child index: the child's lower corner takes the divider's y. */
  predicate UpperY(index: int) { index % 2 == 1 }

  /** Bit value 2 of a child index: the child's lower corner takes the divider's x. */
  predicate UpperX(index: int) { (index / 2) % 2 == 1 }

  /** Bit value 4 of a child index: the child's lower corner takes the divider's z. */
  predicate UpperZ(index: int) { (index / 4) % 2 == 1 }

  /** The centre of a cube, the value `computeDivider` writes: equidistant from both corners on every axis. */
  function Midpoint(c: Cube): (m: Point3)
    ensures m.x - c.p0.x == c.p1.x - m.x
    ensures m.y - c.p0.y == c.p1.y - m.y
    ensures m.z - c.p0.z == c.p1.z - m.z
  {
    Point3((c.p0.x + c.p1.x) / 2.0, (c.p0.y + c.p1.y) / 2.0, (c.p0.z + c.p1.z) / 2.0)
  }

  /**
   * The lower corner of child `index`, following the source's chain of index tests: the parent's
   * lower corner with some coordinates replaced by the divider's. An index outside 0..7 matches no test.
   */
  function ChildLowerCorner(p0: Point3, divider: Point3, index: int): (lo: Point3)
    ensures 0 <= index < 8 ==>
      lo.y == (if UpperY(index) then divider.y else p0.y) &&
      lo.x == (if UpperX(index) then divider.x else p0.x) &&
      lo.z == (if UpperZ(index) then divider.z else p0.z)
    ensures !(0 <= index < 8) ==> lo == p0
  {
    if index == 1 then p0.(y := divider.y)
    else if index == 2 then p0.(x := divider.x)
    else if index == 3 then p0.(x := divider.x, y := divider.y)
    else if index == 4 then p0.(z := divider.z)
    else if index == 5 then p0.(y := divider.y, z := divider.z)
    else if index == 6 then p0.(x := divider.x, z := divider.z)
    else if index == 7 then p0.(x := divider.x, y := divider.y, z := divider.z)
    else p0
  }

  /** The cube `setChildSpace` gives child `index`: every side is half the parent's. */
  function ChildCube(parent: Cube, divider: Point3, index: int): (child: Cube)
    ensures LengthX(child) == LengthX(parent) / 2.0
    ensures LengthY(child) == LengthY(parent) / 2.0
    ensures LengthZ(child) == LengthZ(parent) / 2.0
    ensures child.p0 == ChildLowerCorner(parent.p0, divider, index)
  {
    var lo := ChildLowerCorner(parent.p0, divider, index);
    Cube(lo, Point3(lo.x + LengthX(parent) / 2.0, lo.y + LengthY(parent) / 2.0, lo.z + LengthZ(parent) / 2.0))
  }

  /** Child 0 keeps the parent's lower corner, and an index outside 0..7 yields child 0's cube. */
  lemma FirstChildAndOutOfRange(parent: Cube, divider: Point3, index: int)
    ensures ChildCube(parent, divider, 0).p0 == parent.p0
    ensures !(0 <= index < 8) ==> ChildCube(parent, divider, index) == ChildCube(parent, divider, 0)
  {
  }

  /** The octant of the parent's midpoint subdivision that holds `q`, as a child index. */
  function OctantOf(parent: Cube, q: Point3): (index: int)
    ensures 0 <= index < 8
  {
    var m := Midpoint(parent);
    (if m.y <= q.y then 1 else 0) + (if m.x <= q.x then 2 else 0) + (if m.z <= q.z then 4 else 0)
  }

  /**
   * With the midpoint as divider, each child spans, on every axis, either the lower half
   * `[p0, mid]` or the upper half `[mid, p1]` of the parent, as the index's bit for that axis says.
   */
  lemma ChildSpansHalf(parent: Cube, index: int)
    requires 0 <= index < 8
    ensures var m, c := Midpoint(parent), ChildCube(parent, Midpoint(parent), index);
      (if UpperX(index) then c.p0.x == m.x && c.p1.x == parent.p1.x else c.p0.x == parent.p0.x && c.p1.x == m.x) &&
      (if UpperY(index) then c.p0.y == m.y && c.p1.y == parent.p1.y else c.p0.y == parent.p0.y && c.p1.y == m.y) &&
      (if UpperZ(index) then c.p0.z == m.z && c.p1.z == parent.p1.z else c.p0.z == parent.p0.z && c.p1.z == m.z)
  {
  }

  /** Every child of a well-formed cube, divided at its midpoint, lies inside it. */
  lemma ChildInsideParent(parent: Cube, index: int)
    requires WellFormed(parent)
    ensures Encloses(parent, ChildCube(parent, Midpoint(parent), index))
  {
  }

  /** Each child has one eighth of the parent's volume. */
  lemma ChildVolume(parent: Cube, divider: Point3, index: int)
    ensures Volume(ChildCube(parent, divider, index)) == Volume(parent) / 8.0
  {
  }

  /**
   * The eight children tile the parent: a point of the parent's half-open box lies in the
   * half-open box of the child `OctantOf` names, and a point in the half-open box of some
   * child 0..7 lies in the parent and that child is `OctantOf`'s.
   */
  lemma ChildrenTileParent(parent: Cube, q: Point3)
    ensures ContainsHalfOpen(parent, q) ==>
      ContainsHalfOpen(ChildCube(parent, Midpoint(parent), OctantOf(parent, q)), q)
    ensures forall index :: 0 <= index < 8 && ContainsHalfOpen(ChildCube(parent, Midpoint(parent), index), q) ==>
      index == OctantOf(parent, q) && ContainsHalfOpen(parent, q)
  {
  }

  /** In a cube with positive extent, the eight children have pairwise distinct lower corners. */
  lemma DistinctLowerCorners(parent: Cube, i: int, j: int)
    requires PositiveExtent(parent)
    requires 0 <= i < 8 && 0 <= j < 8 && i != j
    ensures ChildCube(parent, Midpoint(parent), i).p0 != ChildCube(parent, Midpoint(parent), j).p0
  {
  }

  /** An octree node, as far as the builder's geometry uses it: its cube and its divider point. */
  class Octree {
    const space: Cube3D
    const divider: Point3D

    ghost predicate Valid()
      reads this, space
    {
      space.Valid() && divider != space.p0 && divider != space.p1
    }

    constructor (c: Cube)
      ensures Valid() && space.Value() == c
      ensures fresh(space) && fresh(space.p0) && fresh(space.p1) && fresh(divider)
    {
      space := new Cube3D(c);
      divider := new Point3D(Point3(0.0, 0.0, 0.0));
    }
  }

  /** `computeDivider`: sets `divider` to the centre of `space`; `space` is unchanged unless `divider` is one of its corners. */
  method ComputeDivider(space: Cube3D, divider: Point3D)
    modifies divider
    ensures divider.Value() == Midpoint(old(space.Value()))
    ensures divider != space.p0 && divider != space.p1 ==> space.Value() == old(space.Value())
  {
    divider.x := (space.p0.x + space.p1.x) / 2.0;
    divider.y := (space.p0.y + space.p1.y) / 2.0;
    divider.z := (space.p0.z + space.p1.z) / 2.0;
  }

  /**
   * Static `setChildSpace`: writes the cube of child `index` of `parentSpace` into `childSpace`.
   * The child's corner objects must be distinct from the parent's corners and divider.
   */
  method SetChildSpace(parentSpace: Cube3D, parentDivider: Point3D, index: int, childSpace: Cube3D)
    requires childSpace.Valid()
    requires {childSpace.p0, childSpace.p1} !! {parentSpace.p0, parentSpace.p1, parentDivider}
    modifies childSpace.p0, childSpace.p1
    ensures childSpace.Value() == ChildCube(old(parentSpace.Value()), old(parentDivider.Value()), index)
    ensures parentSpace.Value() == old(parentSpace.Value()) && parentDivider.Value() == old(parentDivider.Value())
  {
    childSpace.p0.Set(parentSpace.p0.Value());

    // child 0 keeps the copied lower corner
    if index == 1 {
      childSpace.p0.y := parentDivider.y;
    } else if index == 2 {
      childSpace.p0.x := parentDivider.x;
    } else if index == 3 {
      childSpace.p0.x := parentDivider.x;
      childSpace.p0.y := parentDivider.y;
    } else if index == 4 {
      childSpace.p0.z := parentDivider.z;
    } else if index == 5 {
      childSpace.p0.y := parentDivider.y;
      childSpace.p0.z := parentDivider.z;
    } else if index == 6 {
      childSpace.p0.x := parentDivider.x;
      childSpace.p0.z := parentDivider.z;
    } else if index == 7 {
      childSpace.p0.x := parentDivider.x;
      childSpace.p0.y := parentDivider.y;
      childSpace.p0.z := parentDivider.z;
    }

    childSpace.p1.x := childSpace.p0.x + LengthX(parentSpace.Value()) / 2.0;
    childSpace.p1.y := childSpace.p0.y + LengthY(parentSpace.Value()) / 2.0;
    childSpace.p1.z := childSpace.p0.z + LengthZ(parentSpace.Value()) / 2.0;
  }

  /**
   * The octree builder. Of the base class's state only the root node and the points it holds
   * are modelled; `Reset` discards the held points.
   */
  class OctreeBuilder {
    const tree: Octree
    var stored: seq<Point3>

    ghost predicate Valid()
      reads this, tree, tree.space
    {
      tree.Valid()
    }

    constructor ()
      ensures Valid() && stored == []
      ensures fresh(tree) && fresh(tree.space) && fresh(tree.space.p0) && fresh(tree.space.p1) && fresh(tree.divider)
    {
      tree := new Octree(Cube(Point3(0.0, 0.0, 0.0), Point3(0.0, 0.0, 0.0)));
      stored := [];
    }

    /** `reset`: the prior contents of the tree are discarded. */
    method Reset()
      modifies this
      ensures stored == []
    {
      stored := [];
    }

    /** `initialize`: resets the builder and makes `cube` the space of the root node. */
    method Initialize(cube: Cube3D)
      requires Valid()
      modifies this, tree.space.p0, tree.space.p1
      ensures Valid() && stored == []
      ensures tree.space.Value() == old(cube.Value())
      ensures tree.divider.Value() == old(tree.divider.Value())
    {
      Reset();
      tree.space.Set(cube);
    }

    /** Instance `setChildSpace`: writes only the child's cube, from the parent's cube and divider. */
    method SetChildSpaceOfNode(parent: Octree, index: int, child: Octree)
      requires child.Valid()
      requires {child.space.p0, child.space.p1} !! {parent.space.p0, parent.space.p1, parent.divider}
      modifies child.space.p0, child.space.p1
      ensures child.space.Value() == ChildCube(old(parent.space.Value()), old(parent.divider.Value()), index)
      ensures parent.space.Value() == old(parent.space.Value()) && parent.divider.Value() == old(parent.divider.Value())
    {
      SetChildSpace(parent.space, parent.divider, index, child.space);
    }
  }
}
