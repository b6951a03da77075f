/**
 * The vector helpers of src/utils/vectors.ts. `subtract`, `lengthSquared`,
 * `normalize` and `scale` return fresh values and compute what the pure
 * helpers of module Vectors compute; `add` instead writes the sum into its
 * first argument and returns that same object.
 */
module MutableVectors {
  import Vectors

  /** A `{ x, y, z }` object whose fields can be assigned. */
  class Vec3 {
    var x: real
    var y: real
    var z: real

    constructor(v: Vectors.Vector3)
      ensures Value() == v
    {
      x, y, z := v.x, v.y, v.z;
    }

    function Value(): Vectors.Vector3
      reads this
    {
      Vectors.Vector3(x, y, z)
    }
  }

  /**
   * `add(a, b)`: `a` now holds the sum and is what is returned; `b` is
   * unchanged unless it is `a` itself, in which case `a` is doubled.
   */
  method Add(a: Vec3, b: Vec3) returns (r: Vec3)
    modifies a
    ensures r == a
    ensures a.Value() == Vectors.Add(old(a.Value()), old(b.Value()))
    ensures a != b ==> b.Value() == old(b.Value())
  {
    a.x := a.x + b.x;
    a.y := a.y + b.y;
    a.z := a.z + b.z;
    r := a;
  }
}
