/** The single parameter record of src/parameters.py. */
module Parameters {

  datatype ForceParameters = ForceParameters(
    a: real,
    wallDistance: real,
    wallStrengthClose: real,
    wallStrengthFar: real,
    etaSign: real,
    etaMem: real,
    exitStrength: real,
    q1: real,
    q2: real,
    randomThreshold: real,
    hi: real)

  /** A positive wall range and non-negative weights. */
  ghost predicate Valid(p: ForceParameters)
  {
    && p.wallDistance > 0.0
    && p.a >= 0.0 && p.wallStrengthClose >= 0.0 && p.wallStrengthFar >= 0.0
    && p.etaSign >= 0.0 && p.etaMem >= 0.0 && p.exitStrength >= 0.0
    && p.q1 >= 0.0 && p.q2 >= 0.0 && p.hi >= 0.0
  }

  /** `ForceParameters()`: the dataclass defaults. */
  function Default(): (p: ForceParameters)
    ensures Valid(p)
    ensures p.wallStrengthClose == p.wallStrengthFar && p.etaSign == p.etaMem
    ensures p.q1 < p.q2 && p.randomThreshold == p.wallDistance
  {
    ForceParameters(1.0, 1.0, 6.0, 6.0, 1.0, 1.0, 0.5, 1.0, 2.0, 1.0, 1.0)
  }
}
