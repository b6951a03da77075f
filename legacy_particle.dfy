/**
 * The earlier confined particle (src/services/graph/draw/confined-particle.ts).
 * It records the point's displacement as `baseX, baseY` and starts there,
 * but its horizontal clamp measures distance from the origin of the plane;
 * `baseX` and `baseY` are never read again. Its `computeAccumulatedForce`
 * returns nothing.
 */
module LegacyParticles {
  import opened RealMath
  import opened Vectors
  import opened Schemas
  import ConfinedParticles

  /** `moveTo` as written: the height clamped into the band, the horizontal part scaled onto the circle of `radius` about the origin. */
  function LegacyClamped(target: Vector3, radius: real, minZ: real, maxZ: real, sqrt: real -> real): Vector3
    requires IsSqrt(sqrt) && 0.0 <= radius
  {
    var clampedZ := MinMax(target.z, minZ, maxZ);
    var distanceFromCenter := sqrt(Square(target.x) + Square(target.y));
    if distanceFromCenter > radius then
      var scale := radius / distanceFromCenter;
      Vector3(Mul(target.x, scale), Mul(target.y, scale), clampedZ)
    else
      Vector3(target.x, target.y, clampedZ)
  }

  /**
   * The earlier clamp is the later one about the axis `(0, 0)`, so it keeps
   * the height band and always lands within `radius` of the origin.
   */
  lemma LegacyClampsAboutOrigin(target: Vector3, radius: real, minZ: real, maxZ: real, sqrt: real -> real)
    requires IsSqrt(sqrt) && 0.0 <= radius
    ensures LegacyClamped(target, radius, minZ, maxZ, sqrt) == ConfinedParticles.Clamped(target, 0.0, 0.0, radius, minZ, maxZ, sqrt)
    ensures ConfinedParticles.HorizontallyWithin(LegacyClamped(target, radius, minZ, maxZ, sqrt), 0.0, 0.0, radius)
    ensures LegacyClamped(target, radius, minZ, maxZ, sqrt).z == MinMax(target.z, minZ, maxZ)
  {
    assert target.x - 0.0 == target.x && target.y - 0.0 == target.y;
    ConfinedParticles.ResultInside(target, 0.0, 0.0, radius, minZ, maxZ, sqrt);
  }

  /**
   * As written: a target `a` east of the origin, farther out than the
   * radius, is pulled in to `radius` east of the origin, while the clamp
   * about an axis through the target leaves it where it is.
   */
  lemma OwnPositionMoved(sqrt: real -> real, a: real, radius: real, z: real)
    requires IsSqrt(sqrt) && 0.0 <= radius < a
    ensures LegacyClamped(Vector3(a, 0.0, z), radius, z, z, sqrt) == Vector3(radius, 0.0, z)
    ensures ConfinedParticles.Clamped(Vector3(a, 0.0, z), a, 0.0, radius, z, z, sqrt) == Vector3(a, 0.0, z)
  {
    var zero := 0.0;
    assert Square(zero) == 0.0 by {
      MulNonNegative(zero, zero);
    }
    SqrtOfSquare(sqrt, a);
    assert Mul(a, radius / a) == radius;
    assert Square(a - a) == 0.0;
    SquareNonNegative(radius);
    ConfinedParticles.InsideFixed(Vector3(a, 0.0, z), a, 0.0, radius, z, z, sqrt);
  }

  class ConfinedParticle {
    var position: Vector3
    const baseX: real
    const baseY: real
    const radius: real
    const maxZ: real
    const minZ: real
    var forces: Vector3
    /** `Math.sqrt`. */
    const sqrt: real -> real

    ghost predicate Valid()
      reads this
    {
      IsSqrt(sqrt) && 0.0 <= radius
    }

    constructor(pointLocation: Location, baseLocation: ExactLocation,
                displacementOnEarth: (Location, ExactLocation) -> Displacement, root: real -> real)
      requires IsSqrt(root)
      requires 0.0 <= pointLocation.horizontalAccuracy
      ensures Valid()
      ensures sqrt == root
      ensures minZ == pointLocation.altitude - pointLocation.verticalAccuracy
      ensures maxZ == pointLocation.altitude + pointLocation.verticalAccuracy
      ensures baseX == displacementOnEarth(pointLocation, baseLocation).deltaEast
      ensures baseY == displacementOnEarth(pointLocation, baseLocation).deltaNorth
      ensures position == Vector3(baseX, baseY, pointLocation.altitude)
      ensures radius == pointLocation.horizontalAccuracy
      ensures forces == VectorNull()
    {
      var z := pointLocation.altitude;
      minZ := pointLocation.altitude - pointLocation.verticalAccuracy;
      maxZ := pointLocation.altitude + pointLocation.verticalAccuracy;
      var displacement := displacementOnEarth(pointLocation, baseLocation);
      var x := displacement.deltaEast;
      baseX := displacement.deltaEast;
      var y := displacement.deltaNorth;
      baseY := displacement.deltaNorth;
      position := Vector3(x, y, z);
      radius := pointLocation.horizontalAccuracy;
      forces := VectorNull();
      sqrt := root;
    }

    method GetPosition() returns (p: Vector3)
      ensures p == position
    {
      p := position;
    }

    /** `moveTo` as written, about the origin. */
    method MoveTo(target: Vector3)
      requires Valid()
      modifies this
      ensures Valid()
      ensures position == LegacyClamped(target, radius, minZ, maxZ, sqrt)
      ensures forces == old(forces)
    {
      var clampedZ := MinMax(target.z, minZ, maxZ);
      var clampedX := target.x;
      var clampedY := target.y;
      var distanceFromCenter := sqrt(Square(target.x) + Square(target.y));
      if distanceFromCenter > radius {
        var scale := radius / distanceFromCenter;
        clampedX := Mul(target.x, scale);
        clampedY := Mul(target.y, scale);
      }
      position := Vector3(clampedX, clampedY, clampedZ);
    }

    /** `moveTo` as intended, about the cylinder's own axis `(baseX, baseY)`. */
    method MoveToCorrected(target: Vector3)
      requires Valid()
      modifies this
      ensures Valid()
      ensures position == ConfinedParticles.Clamped(target, baseX, baseY, radius, minZ, maxZ, sqrt)
      ensures ConfinedParticles.HorizontallyWithin(position, baseX, baseY, radius)
      ensures forces == old(forces)
    {
      var clampedZ := MinMax(target.z, minZ, maxZ);
      var dx := target.x - baseX;
      var dy := target.y - baseY;
      var clampedX := target.x;
      var clampedY := target.y;
      var distanceFromCenter := sqrt(Square(dx) + Square(dy));
      if distanceFromCenter > radius {
        var scale := radius / distanceFromCenter;
        clampedX := baseX + Mul(dx, scale);
        clampedY := baseY + Mul(dy, scale);
      }
      position := Vector3(clampedX, clampedY, clampedZ);
      ConfinedParticles.ResultInside(target, baseX, baseY, radius, minZ, maxZ, sqrt);
    }

    method MoveBy(v: Vector3)
      requires Valid()
      modifies this
      ensures Valid()
      ensures position == LegacyClamped(Add(old(position), v), radius, minZ, maxZ, sqrt)
      ensures forces == old(forces)
    {
      var newPosition := Add(position, v);
      MoveTo(newPosition);
    }

    method ApplyForce(v: Vector3)
      modifies this
      ensures forces == Add(old(forces), v)
      ensures position == old(position)
    {
      forces := Add(forces, v);
    }

    /** Moves by the summed forces and empties the buffer. */
    method ComputeAccumulatedForce()
      requires Valid()
      modifies this
      ensures Valid()
      ensures position == LegacyClamped(Add(old(position), old(forces)), radius, minZ, maxZ, sqrt)
      ensures forces == VectorNull()
    {
      MoveBy(forces);
      forces := VectorNull();
    }
  }

  /**
   * As written, a fresh particle whose axis stands `east` metres east of
   * the base (say 20, with radius 10 and no height tolerance) does not stay
   * where it starts when moved to its own position; with the corrected
   * clamp it does.
   */
  method MoveToOwnPosition(sqrt: real -> real, base: ExactLocation, east: real, radius: real)
    returns (asWritten: Vector3, corrected: Vector3)
    requires IsSqrt(sqrt) && 0.0 <= radius < east
    ensures asWritten == Vector3(radius, 0.0, 0.0)
    ensures corrected == Vector3(east, 0.0, 0.0)
  {
    var location := Location(0.0, 0.0, radius, 0.0, 0.0);
    var displacement := (l: Location, b: ExactLocation) => Displacement(east, 0.0);
    var first := new ConfinedParticle(location, base, displacement, sqrt);
    var start := first.GetPosition();
    first.MoveTo(start);
    asWritten := first.GetPosition();
    var second := new ConfinedParticle(location, base, displacement, sqrt);
    start := second.GetPosition();
    second.MoveToCorrected(start);
    corrected := second.GetPosition();
    OwnPositionMoved(sqrt, east, radius, 0.0);
  }
}
