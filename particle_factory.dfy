/**
 * `createParticleFromLocation`
 * (src/services/graph/draw/confined-particle/create-particle-from-location.ts):
 * the arguments it passes to a particle constructor taking
 * `{ position, radius, deltaZ }`. That constructor is not part of this
 * model, so the result is the argument record itself. The drawing space
 * here is y-up: east on x, altitude on y, north on z.
 */
module ParticleFactory {
  import opened Vectors
  import opened Schemas

  datatype ParticleSpec = ParticleSpec(position: Vector3, radius: real, deltaZ: real)

  function CreateParticleFromLocation(pointLocation: Location, baseLocation: ExactLocation,
                                      displacementOnEarth: (Location, ExactLocation) -> Displacement): (r: ParticleSpec)
    ensures Footprint(r) == displacementOnEarth(pointLocation, baseLocation)
    ensures r.position.y == pointLocation.altitude
    ensures r.radius == pointLocation.horizontalAccuracy && r.deltaZ == pointLocation.verticalAccuracy
  {
    var displacement := displacementOnEarth(pointLocation, baseLocation);
    var position := Vector3(displacement.deltaEast, pointLocation.altitude, displacement.deltaNorth);
    ParticleSpec(position, pointLocation.horizontalAccuracy, pointLocation.verticalAccuracy)
  }

  /** The horizontal displacement read back from a created particle's position. */
  function Footprint(spec: ParticleSpec): Displacement
  {
    Displacement(spec.position.x, spec.position.z)
  }

  /**
   * Nothing is lost: the displacement of the point from the base (in that
   * argument order), the altitude and both accuracies can be read back
   * from the created particle.
   */
  lemma CreateParticleRoundTrip(pointLocation: Location, baseLocation: ExactLocation,
                                displacementOnEarth: (Location, ExactLocation) -> Displacement)
    ensures Footprint(CreateParticleFromLocation(pointLocation, baseLocation, displacementOnEarth))
      == displacementOnEarth(pointLocation, baseLocation)
    ensures CreateParticleFromLocation(pointLocation, baseLocation, displacementOnEarth).position.y == pointLocation.altitude
    ensures CreateParticleFromLocation(pointLocation, baseLocation, displacementOnEarth).radius == pointLocation.horizontalAccuracy
    ensures CreateParticleFromLocation(pointLocation, baseLocation, displacementOnEarth).deltaZ == pointLocation.verticalAccuracy
  {
  }

  /**
   * Only the horizontal displacement and the point's own altitude and
   * accuracies matter: two points with the same displacement, altitude and
   * accuracies give the same particle.
   */
  lemma CreateParticleDependsOnFootprint(p: Location, q: Location, baseLocation: ExactLocation,
                                         displacementOnEarth: (Location, ExactLocation) -> Displacement)
    requires displacementOnEarth(p, baseLocation) == displacementOnEarth(q, baseLocation)
    requires p.altitude == q.altitude
    requires p.horizontalAccuracy == q.horizontalAccuracy && p.verticalAccuracy == q.verticalAccuracy
    ensures CreateParticleFromLocation(p, baseLocation, displacementOnEarth)
      == CreateParticleFromLocation(q, baseLocation, displacementOnEarth)
  {
  }
}
