/**
 * Values and mutable objects for the georegression shapes used by the octree builder:
 * a 3-D point and an axis-aligned cube given by its lower corner `p0` and upper corner `p1`.
 * Coordinates are `real`: the IEEE-754 rounding of the Java doubles is not modelled.
 */
module Geometry {

  /** The value of a point (the three coordinates of a `Point3D_F64`). */
  datatype Point3 = Point3(x: real, y: real, z: real)

  /** The value of a cube (the two corners of a `Cube3D_F64`). */
  datatype Cube = Cube(p0: Point3, p1: Point3)

  /** `Cube3D_F64.getLengthX`: the extent along x. */
  function LengthX(c: Cube): real { c.p1.x - c.p0.x }

  /** `Cube3D_F64.getLengthY`: the extent along y. */
  function LengthY(c: Cube): real { c.p1.y - c.p0.y }

  /** `Cube3D_F64.getLengthZ`: the extent along z. */
  function LengthZ(c: Cube): real { c.p1.z - c.p0.z }

  function Volume(c: Cube): real { LengthX(c) * LengthY(c) * LengthZ(c) }

  /** The lower corner is component-wise no greater than the upper corner. */
  predicate WellFormed(c: Cube) {
    c.p0.x <= c.p1.x && c.p0.y <= c.p1.y && c.p0.z <= c.p1.z
  }

  /** Every axis has a strictly positive extent (the cube is not degenerate). */
  predicate PositiveExtent(c: Cube) {
    c.p0.x < c.p1.x && c.p0.y < c.p1.y && c.p0.z < c.p1.z
  }

  /** `q` lies in the half-open box `[p0.x, p1.x) x [p0.y, p1.y) x [p0.z, p1.z)`. */
  predicate ContainsHalfOpen(c: Cube, q: Point3) {
    c.p0.x <= q.x < c.p1.x && c.p0.y <= q.y < c.p1.y && c.p0.z <= q.z < c.p1.z
  }

  /** The closed box of `inner` lies inside the closed box of `outer`. */
  predicate Encloses(outer: Cube, inner: Cube) {
    outer.p0.x <= inner.p0.x && inner.p1.x <= outer.p1.x &&
    outer.p0.y <= inner.p0.y && inner.p1.y <= outer.p1.y &&
    outer.p0.z <= inner.p0.z && inner.p1.z <= outer.p1.z
  }

  /** A mutable point, as `Point3D_F64` with its public fields `x`, `y`, `z`. */
  class Point3D {
    var x: real
    var y: real
    var z: real

    constructor (v: Point3)
      ensures Value() == v
    {
      x, y, z := v.x, v.y, v.z;
    }

    function Value(): Point3
      reads this
    {
      Point3(x, y, z)
    }

    /** `Point3D_F64.set`: copies the coordinates of `v`. */
    method Set(v: Point3)
      modifies this
      ensures Value() == v
    {
      x, y, z := v.x, v.y, v.z;
    }
  }

  /** A mutable cube, as `Cube3D_F64`: two distinct corner point objects. */
  class Cube3D {
    const p0: Point3D
    const p1: Point3D

    ghost predicate Valid()
      reads this
    {
      p0 != p1
    }

    constructor (c: Cube)
      ensures Valid() && Value() == c
      ensures fresh(p0) && fresh(p1)
    {
      p0 := new Point3D(c.p0);
      p1 := new Point3D(c.p1);
    }

    function Value(): Cube
      reads this, p0, p1
    {
      Cube(p0.Value(), p1.Value())
    }

    /** `Cube3D_F64.set`: this cube takes the corners of `other`. */
    method Set(other: Cube3D)
      requires Valid()
      modifies p0, p1
      ensures Value() == old(other.Value())
    {
      var v := other.Value();
      p0.Set(v.p0);
      p1.Set(v.p1);
    }
  }
}
