/**
 * A point that moves freely inside a vertical cylinder and never leaves it
 * (src/services/graph/draw/confined-particle/index.ts). The cylinder's axis
 * stands on the point's displacement from the event's base location, its
 * radius is the horizontal accuracy, and its height band is the altitude
 * plus or minus the vertical accuracy. Forces are summed in a buffer until
 * they are applied.
 */
module ConfinedParticles {
  import opened RealMath
  import opened Vectors
  import opened Schemas

  /** The horizontal distance of `p` from `(centerX, centerY)` is at most `radius`. */
  ghost predicate HorizontallyWithin(p: Vector3, centerX: real, centerY: real, radius: real)
  {
    Square(p.x - centerX) + Square(p.y - centerY) <= Square(radius)
  }

  /**
   * Where `moveTo(target)` puts the point: the height clamped into the
   * band, and a target farther than `radius` from the axis scaled along
   * its direction onto the cylinder's wall.
   */
  function Clamped(target: Vector3, centerX: real, centerY: real, radius: real, minZ: real, maxZ: real, sqrt: real -> real): Vector3
    requires IsSqrt(sqrt)
    requires 0.0 <= radius
  {
    var clampedZ := MinMax(target.z, minZ, maxZ);
    var dx := target.x - centerX;
    var dy := target.y - centerY;
    var distanceFromCenter := sqrt(Square(dx) + Square(dy));
    if distanceFromCenter > radius then
      var scale := radius / distanceFromCenter;
      Vector3(centerX + Mul(dx, scale), centerY + Mul(dy, scale), clampedZ)
    else
      Vector3(target.x, target.y, clampedZ)
  }

  /** The height is clamped into `[minZ, maxZ]`, and a height already inside is kept. */
  lemma ClampedHeight(target: Vector3, centerX: real, centerY: real, radius: real, minZ: real, maxZ: real, sqrt: real -> real)
    requires IsSqrt(sqrt) && 0.0 <= radius
    ensures Clamped(target, centerX, centerY, radius, minZ, maxZ, sqrt).z == MinMax(target.z, minZ, maxZ)
    ensures minZ <= maxZ ==> minZ <= Clamped(target, centerX, centerY, radius, minZ, maxZ, sqrt).z <= maxZ
    ensures minZ <= target.z <= maxZ ==> Clamped(target, centerX, centerY, radius, minZ, maxZ, sqrt).z == target.z
  {
  }

  /** The horizontal distance of the target from the axis, as `moveTo` measures it. */
  lemma DistanceFromAxis(target: Vector3, centerX: real, centerY: real, sqrt: real -> real)
    requires IsSqrt(sqrt)
    ensures 0.0 <= Square(target.x - centerX) + Square(target.y - centerY)
    ensures 0.0 <= sqrt(Square(target.x - centerX) + Square(target.y - centerY))
    ensures Square(sqrt(Square(target.x - centerX) + Square(target.y - centerY)))
      == Square(target.x - centerX) + Square(target.y - centerY)
  {
    SquareNonNegative(target.x - centerX);
    SquareNonNegative(target.y - centerY);
  }

  /** A target horizontally within the radius keeps its horizontal coordinates. */
  lemma InsideKept(target: Vector3, centerX: real, centerY: real, radius: real, minZ: real, maxZ: real, sqrt: real -> real)
    requires IsSqrt(sqrt) && 0.0 <= radius
    requires HorizontallyWithin(target, centerX, centerY, radius)
    ensures Clamped(target, centerX, centerY, radius, minZ, maxZ, sqrt).x == target.x
    ensures Clamped(target, centerX, centerY, radius, minZ, maxZ, sqrt).y == target.y
  {
    var dx := target.x - centerX;
    var dy := target.y - centerY;
    DistanceFromAxis(target, centerX, centerY, sqrt);
    SqrtMonotone(sqrt, Square(dx) + Square(dy), Square(radius));
    SqrtOfSquare(sqrt, radius);
  }

  /**
   * A target outside the radius lands exactly on the wall, on the ray from
   * the axis through the target.
   */
  lemma OutsideProjected(target: Vector3, centerX: real, centerY: real, radius: real, minZ: real, maxZ: real, sqrt: real -> real)
    requires IsSqrt(sqrt) && 0.0 <= radius
    requires !HorizontallyWithin(target, centerX, centerY, radius)
    ensures var r := Clamped(target, centerX, centerY, radius, minZ, maxZ, sqrt);
      && Square(r.x - centerX) + Square(r.y - centerY) == Square(radius)
      && Mul(r.x - centerX, target.y - centerY) == Mul(r.y - centerY, target.x - centerX)
      && 0.0 <= Mul(r.x - centerX, target.x - centerX)
      && 0.0 <= Mul(r.y - centerY, target.y - centerY)
  {
    var dx := target.x - centerX;
    var dy := target.y - centerY;
    var d := sqrt(Square(dx) + Square(dy));
    DistanceFromAxis(target, centerX, centerY, sqrt);
    if d <= radius {
      MulMonotone(d, radius, d);
      MulMonotone(d, radius, radius);
      assert false;
    }
    var scale := radius / d;
    OnWall(dx, dy, d, radius, scale);
  }

  /** The arithmetic of the projection: `(dx, dy)` scaled by `radius / d` has length `radius` and keeps its direction. */
  lemma OnWall(dx: real, dy: real, d: real, radius: real, scale: real)
    requires 0.0 <= radius < d && Square(d) == Square(dx) + Square(dy)
    requires scale == radius / d
    ensures Square(Mul(dx, scale)) + Square(Mul(dy, scale)) == Square(radius)
    ensures Mul(Mul(dx, scale), dy) == Mul(Mul(dy, scale), dx)
    ensures 0.0 <= Mul(Mul(dx, scale), dx) && 0.0 <= Mul(Mul(dy, scale), dy)
  {
    assert Mul(scale, d) == radius;
    assert 0.0 <= scale;
    SquareOfProduct(dx, scale);
    SquareOfProduct(dy, scale);
    SquareOfProduct(scale, d);
    Distribute2(Square(scale), Square(dx), Square(dy));
    assert Mul(Square(dx), Square(scale)) == Mul(Square(scale), Square(dx));
    assert Mul(Square(dy), Square(scale)) == Mul(Square(scale), Square(dy));
    SquareNonNegative(dx);
    SquareNonNegative(dy);
    assert Mul(Mul(dx, scale), dx) == Mul(Square(dx), scale);
    assert Mul(Mul(dy, scale), dy) == Mul(Square(dy), scale);
    MulNonNegative(Square(dx), scale);
    MulNonNegative(Square(dy), scale);
  }

  /** Whatever the target, the result is horizontally within the radius. */
  lemma ResultInside(target: Vector3, centerX: real, centerY: real, radius: real, minZ: real, maxZ: real, sqrt: real -> real)
    requires IsSqrt(sqrt) && 0.0 <= radius
    ensures HorizontallyWithin(Clamped(target, centerX, centerY, radius, minZ, maxZ, sqrt), centerX, centerY, radius)
  {
    if HorizontallyWithin(target, centerX, centerY, radius) {
      InsideKept(target, centerX, centerY, radius, minZ, maxZ, sqrt);
    } else {
      OutsideProjected(target, centerX, centerY, radius, minZ, maxZ, sqrt);
    }
  }

  /** With radius zero every target is pinned to the axis. */
  lemma ZeroRadiusPinned(target: Vector3, centerX: real, centerY: real, minZ: real, maxZ: real, sqrt: real -> real)
    requires IsSqrt(sqrt)
    ensures Clamped(target, centerX, centerY, 0.0, minZ, maxZ, sqrt).x == centerX
    ensures Clamped(target, centerX, centerY, 0.0, minZ, maxZ, sqrt).y == centerY
  {
    var r := Clamped(target, centerX, centerY, 0.0, minZ, maxZ, sqrt);
    ResultInside(target, centerX, centerY, 0.0, minZ, maxZ, sqrt);
    SquareNonNegative(r.x - centerX);
    SquareNonNegative(r.y - centerY);
    if r.x != centerX {
      SquarePositive(r.x - centerX);
    }
    if r.y != centerY {
      SquarePositive(r.y - centerY);
    }
  }

  /** Moving to where `moveTo` put the point leaves it there. */
  lemma ClampedIdempotent(target: Vector3, centerX: real, centerY: real, radius: real, minZ: real, maxZ: real, sqrt: real -> real)
    requires IsSqrt(sqrt) && 0.0 <= radius
    ensures var once := Clamped(target, centerX, centerY, radius, minZ, maxZ, sqrt);
      Clamped(once, centerX, centerY, radius, minZ, maxZ, sqrt) == once
  {
    var once := Clamped(target, centerX, centerY, radius, minZ, maxZ, sqrt);
    ResultInside(target, centerX, centerY, radius, minZ, maxZ, sqrt);
    InsideKept(once, centerX, centerY, radius, minZ, maxZ, sqrt);
  }

  /** A point inside the cylinder is a fixed point of `moveTo`. */
  lemma InsideFixed(p: Vector3, centerX: real, centerY: real, radius: real, minZ: real, maxZ: real, sqrt: real -> real)
    requires IsSqrt(sqrt) && 0.0 <= radius
    requires HorizontallyWithin(p, centerX, centerY, radius) && minZ <= p.z <= maxZ
    ensures Clamped(p, centerX, centerY, radius, minZ, maxZ, sqrt) == p
  {
    InsideKept(p, centerX, centerY, radius, minZ, maxZ, sqrt);
  }

  /** With an empty force buffer the magnitude is zero and a point inside the cylinder stays put. */
  lemma NoForceNoMove(p: Vector3, centerX: real, centerY: real, radius: real, minZ: real, maxZ: real, sqrt: real -> real)
    requires IsSqrt(sqrt) && 0.0 <= radius
    requires HorizontallyWithin(p, centerX, centerY, radius) && minZ <= p.z <= maxZ
    ensures sqrt(LengthSquared(VectorNull())) == 0.0
    ensures Clamped(Add(p, VectorNull()), centerX, centerY, radius, minZ, maxZ, sqrt) == p
  {
    NullMagnitude(sqrt);
    AddIdentity(p);
    InsideFixed(p, centerX, centerY, radius, minZ, maxZ, sqrt);
  }

  /** The magnitude of the empty force buffer. */
  lemma NullMagnitude(sqrt: real -> real)
    requires IsSqrt(sqrt)
    ensures sqrt(LengthSquared(VectorNull())) == 0.0
  {
    NullLength(VectorNull());
    SqrtZeroIff(sqrt, LengthSquared(VectorNull()));
  }

  class ConfinedParticle {
    var position: Vector3
    const centerX: real
    const centerY: real
    const radius: real
    const maxZ: real
    const minZ: real
    var forces: Vector3
    /** `Math.sqrt`. */
    const sqrt: real -> real

    /** The point is inside the cylinder: horizontally always, and vertically when the band is not empty. */
    ghost predicate Valid()
      reads this
    {
      && IsSqrt(sqrt)
      && 0.0 <= radius
      && HorizontallyWithin(position, centerX, centerY, radius)
      && (minZ <= maxZ ==> minZ <= position.z <= maxZ)
    }

    /**
     * The cylinder of `pointLocation` seen from `baseLocation`; the point
     * starts on its axis at the location's altitude with no forces.
     * `displacementOnEarth` is the projection of src/utils/displacement-on-earth.ts.
     */
    constructor(pointLocation: Location, baseLocation: ExactLocation,
                displacementOnEarth: (Location, ExactLocation) -> Displacement, root: real -> real)
      requires IsSqrt(root)
      requires 0.0 <= pointLocation.horizontalAccuracy
      ensures Valid()
      ensures sqrt == root
      ensures minZ == pointLocation.altitude - pointLocation.verticalAccuracy
      ensures maxZ == pointLocation.altitude + pointLocation.verticalAccuracy
      ensures centerX == displacementOnEarth(pointLocation, baseLocation).deltaEast
      ensures centerY == displacementOnEarth(pointLocation, baseLocation).deltaNorth
      ensures position == Vector3(centerX, centerY, pointLocation.altitude)
      ensures radius == pointLocation.horizontalAccuracy
      ensures forces == VectorNull()
    {
      var z := pointLocation.altitude;
      minZ := pointLocation.altitude - pointLocation.verticalAccuracy;
      maxZ := pointLocation.altitude + pointLocation.verticalAccuracy;
      var displacement := displacementOnEarth(pointLocation, baseLocation);
      centerX := displacement.deltaEast;
      centerY := displacement.deltaNorth;
      position := Vector3(displacement.deltaEast, displacement.deltaNorth, z);
      radius := pointLocation.horizontalAccuracy;
      forces := VectorNull();
      sqrt := root;
      SquareNonNegative(pointLocation.horizontalAccuracy);
    }

    method GetPosition() returns (p: Vector3)
      ensures p == position
    {
      p := position;
    }

    method MoveTo(target: Vector3)
      requires Valid()
      modifies this
      ensures Valid()
      ensures position == Clamped(target, centerX, centerY, radius, minZ, maxZ, sqrt)
      ensures forces == old(forces)
    {
      var clampedZ := MinMax(target.z, minZ, maxZ);
      var dx := target.x - centerX;
      var dy := target.y - centerY;
      var distanceFromCenter := sqrt(Square(dx) + Square(dy));
      var clampedX := target.x;
      var clampedY := target.y;
      if distanceFromCenter > radius {
        var scale := radius / distanceFromCenter;
        clampedX := centerX + Mul(dx, scale);
        clampedY := centerY + Mul(dy, scale);
      }
      position := Vector3(clampedX, clampedY, clampedZ);
      ResultInside(target, centerX, centerY, radius, minZ, maxZ, sqrt);
    }

    method MoveBy(v: Vector3)
      requires Valid()
      modifies this
      ensures Valid()
      ensures position == Clamped(Add(old(position), v), centerX, centerY, radius, minZ, maxZ, sqrt)
      ensures forces == old(forces)
    {
      var newPosition := Add(position, v);
      MoveTo(newPosition);
    }

    method ApplyForce(v: Vector3)
      modifies this
      ensures forces == Add(old(forces), v)
      ensures position == old(position)
    {
      forces := Add(forces, v);
    }

    /**
     * Moves by the summed forces, empties the buffer and returns the
     * magnitude the sum had.
     */
    method ComputeAccumulatedForce() returns (forceMagnitude: real)
      requires Valid()
      modifies this
      ensures Valid()
      ensures forceMagnitude == sqrt(LengthSquared(old(forces)))
      ensures 0.0 <= forceMagnitude && (forceMagnitude == 0.0 <==> old(forces) == VectorNull())
      ensures position == Clamped(Add(old(position), old(forces)), centerX, centerY, radius, minZ, maxZ, sqrt)
      ensures forces == VectorNull()
    {
      forceMagnitude := sqrt(LengthSquared(forces));
      RootOfLength(forces, sqrt);
      MoveBy(forces);
      forces := VectorNull();
    }
  }
}
