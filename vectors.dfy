/**
 * Pure three-dimensional vector algebra of src/schemas/vectors.ts. Every
 * operation returns a fresh value; `randomVector` draws random numbers and is
 * not part of this model.
 */
module Vectors {
  import opened RealMath

  datatype Vector3 = Vector3(x: real, y: real, z: real)

  /** `vectorNull`: the zero vector, the identity of `add` on either side. */
  function VectorNull(): (r: Vector3)
    ensures forall v :: Add(v, r) == v && Add(r, v) == v
  {
    Vector3(0.0, 0.0, 0.0)
  }

  /**
   * `add`: component-wise sum. A zero vector on either side leaves the other
   * operand as it is; `Subtract` states the inverse law.
   */
  function Add(a: Vector3, b: Vector3): (r: Vector3)
    ensures b == Vector3(0.0, 0.0, 0.0) ==> r == a
    ensures a == Vector3(0.0, 0.0, 0.0) ==> r == b
  {
    Vector3(a.x + b.x, a.y + b.y, a.z + b.z)
  }

  /** `subtract`: `a - b`, the inverse of `add`. */
  function Subtract(a: Vector3, b: Vector3): (r: Vector3)
    ensures Add(r, b) == a
    ensures a == b <==> r == Vector3(0.0, 0.0, 0.0)
  {
    Vector3(a.x - b.x, a.y - b.y, a.z - b.z)
  }

  /** `lengthSquared`: never negative, and zero exactly for the zero vector. */
  function LengthSquared(v: Vector3): (r: real)
    ensures 0.0 <= r
    ensures r == 0.0 <==> v == Vector3(0.0, 0.0, 0.0)
  {
    SquareNonNegative(v.x);
    SquareNonNegative(v.y);
    SquareNonNegative(v.z);
    assert v != Vector3(0.0, 0.0, 0.0) ==> 0.0 < Square(v.x) + Square(v.y) + Square(v.z) by {
      if v.x != 0.0 { SquarePositive(v.x); }
      if v.y != 0.0 { SquarePositive(v.y); }
      if v.z != 0.0 { SquarePositive(v.z); }
    }
    Square(v.x) + Square(v.y) + Square(v.z)
  }

  /** `scale`: multiplies every component by `scalar`, and the length with it. */
  function Scale(v: Vector3, scalar: real): (r: Vector3)
    ensures LengthSquared(r) == Mul(Square(scalar), LengthSquared(v))
  {
    SquareOfProduct(v.x, scalar);
    SquareOfProduct(v.y, scalar);
    SquareOfProduct(v.z, scalar);
    Distribute(Square(scalar), Square(v.x), Square(v.y), Square(v.z));
    Vector3(Mul(v.x, scalar), Mul(v.y, scalar), Mul(v.z, scalar))
  }

  /** `distanceBetweenPoints`: the Euclidean distance of two points. */
  function DistanceBetweenPoints(p1: Vector3, p2: Vector3, sqrt: real -> real): (r: real)
    requires IsSqrt(sqrt)
    ensures 0.0 <= r && Square(r) == LengthSquared(Subtract(p1, p2))
    ensures r == 0.0 <==> p1 == p2
  {
    var d := LengthSquared(Subtract(p1, p2));
    SqrtZeroIff(sqrt, d);
    sqrt(d)
  }

  /**
   * `normalize`: a vector of length zero maps to `vectorNull`; any other
   * vector to the unit vector pointing the same way.
   */
  function Normalize(v: Vector3, sqrt: real -> real): (r: Vector3)
    requires IsSqrt(sqrt)
    ensures v == VectorNull() ==> r == VectorNull()
    ensures v != VectorNull() ==> LengthSquared(r) == 1.0
    ensures v != VectorNull() ==> Scale(r, sqrt(LengthSquared(v))) == v
  {
    var len := sqrt(LengthSquared(v));
    RootOfLength(v, sqrt);
    if len == 0.0 then VectorNull()
    else
      var r := Vector3(v.x / len, v.y / len, v.z / len);
      NormalizedLength(v, r, len);
      r
  }

  lemma RootOfLength(v: Vector3, sqrt: real -> real)
    requires IsSqrt(sqrt)
    ensures 0.0 <= sqrt(LengthSquared(v))
    ensures Square(sqrt(LengthSquared(v))) == LengthSquared(v)
    ensures sqrt(LengthSquared(v)) == 0.0 <==> v == VectorNull()
  {
    SqrtZeroIff(sqrt, LengthSquared(v));
  }

  lemma NormalizedLength(v: Vector3, r: Vector3, len: real)
    requires 0.0 < len && Square(len) == LengthSquared(v)
    requires r == Vector3(v.x / len, v.y / len, v.z / len)
    ensures LengthSquared(r) == 1.0
    ensures Scale(r, len) == v
  {
    var s := 1.0 / len;
    assert r == Scale(v, s);
    SquareOfProduct(s, len);
    assert Mul(s, len) == 1.0;
  }

  /** `vectorNull` is the one vector of length zero. */
  lemma NullLength(v: Vector3)
    ensures LengthSquared(v) == 0.0 <==> v == VectorNull()
  {
  }

  /** `vectorNull` is the identity of `add`. */
  lemma AddIdentity(v: Vector3)
    ensures Add(v, VectorNull()) == v && Add(VectorNull(), v) == v
  {
  }

  lemma AddCommutative(a: Vector3, b: Vector3)
    ensures Add(a, b) == Add(b, a)
  {
  }

  lemma ScaleByOne(v: Vector3)
    ensures Scale(v, 1.0) == v
  {
  }

  /** Distance is symmetric. */
  lemma DistanceSymmetric(p1: Vector3, p2: Vector3, sqrt: real -> real)
    requires IsSqrt(sqrt)
    ensures DistanceBetweenPoints(p1, p2, sqrt) == DistanceBetweenPoints(p2, p1, sqrt)
  {
    var d, e := Subtract(p1, p2), Subtract(p2, p1);
    MulNegNeg(d.x, d.x);
    MulNegNeg(d.y, d.y);
    MulNegNeg(d.z, d.z);
    assert LengthSquared(d) == LengthSquared(e);
  }
}
