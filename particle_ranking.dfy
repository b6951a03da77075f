/**
 * `quantizeAndRankParticles` (src/services/graph/draw/quatizes.ts): the
 * current position of every particle, ranked per axis as
 * `quantizeAndRankLocations` ranks displacements.
 */
module ParticleRanking {
  import opened Vectors
  import opened Schemas
  import opened Quantizer
  import ConfinedParticles

  /** The current position of every particle. */
  ghost function PositionsOf(particles: map<Node, ConfinedParticles.ConfinedParticle>): map<Node, Vector3>
    reads particles.Values
  {
    map id | id in particles :: particles[id].position
  }

  method QuantizeAndRankParticles(particles: map<Node, ConfinedParticles.ConfinedParticle>)
    returns (result: map<Node, PositionPair>)
    ensures result == Ranked(PositionsOf(particles), QuantizeDefault)
  {
    var positions: map<Node, Vector3> := map[];
    var done: set<Node> := {};
    while done != particles.Keys
      invariant done <= particles.Keys
      invariant positions == map id | id in done :: particles[id].position
      decreases |particles.Keys - done|
    {
      var id :| id in particles.Keys - done;
      var position := particles[id].GetPosition();
      positions := positions[id := position];
      done := done + {id};
    }
    assert positions == PositionsOf(particles);
    result := RankPositions(positions, QuantizeDefault);
  }
}
