/**
 * The parameter records of HTM/src/parameters.py: the force weights and ranges, and the shapes of
 * the `c1`, `h1` and `c2`/`h2` kernels, each with its defaults and a well-formedness predicate.
 */
module HtmParameters {
  import opened Geometry
  import Kernels

  datatype ForceParameters = ForceParameters(
    a: real,                  // driving force
    wallDistance: real,       // wall interaction range d
    wallStrengthInto: real,   // w0, extra push when moving into a wall
    wallStrengthAlways: real, // w1
    etaSign: real,
    etaMem: real,
    exitStrength: real,
    q1: real,
    q2: real,
    hi: real,                 // panic strength
    cutoffHi: real,
    signVisionRadius: real,
    fovAngle: real,
    exitDomainRadius: real)

  /** Positive wall range (it divides in `F_wi`), a field of view within a full turn, non-negative weights and radii. */
  ghost predicate ValidForce(p: ForceParameters)
  {
    && p.wallDistance > 0.0
    && 0.0 < p.fovAngle <= 2.0 * PI
    && p.a >= 0.0 && p.wallStrengthInto >= 0.0 && p.wallStrengthAlways >= 0.0
    && p.etaSign >= 0.0 && p.etaMem >= 0.0 && p.exitStrength >= 0.0
    && 0.0 <= p.q1 && 0.0 <= p.q2 && p.hi >= 0.0
    && p.cutoffHi >= 0.0 && p.signVisionRadius >= 0.0 && p.exitDomainRadius >= 0.0
  }

  /** `ForceParameters()`: the dataclass defaults. */
  function DefaultForce(): (p: ForceParameters)
    ensures ValidForce(p)
    ensures p.fovAngle == 2.0 * PI / 3.0 && p.q1 < p.q2
  {
    ForceParameters(1.0, 1.0, 6.0, 6.0, 1.0, 1.0, 0.5, 1.0, 2.0, 1.0, 20.0, 1.5, PI * 2.0 / 3.0, 4.0)
  }

  datatype C1Parameters = C1Parameters(cn0: real, cr0: real, beta: real, nu: real, gamma: real, epsilon: real)

  /** Thresholds `0 < beta < nu < gamma < epsilon` and a negative near value below a positive plateau. */
  ghost predicate ValidC1(p: C1Parameters)
  {
    0.0 < p.beta < p.nu < p.gamma < p.epsilon && p.cn0 < 0.0 < p.cr0
  }

  function DefaultC1(): (p: C1Parameters)
    ensures ValidC1(p)
  {
    C1Parameters(-0.5, 1.0, 0.5, 1.0, 2.0, 3.0)
  }

  /** A well-formed record gives `c1` the shape its bound and monotonicity lemmas need. */
  lemma ValidC1Shape(p: C1Parameters)
    requires ValidC1(p)
    ensures Kernels.C1Shape(p.cn0, p.cr0, p.beta, p.gamma, p.epsilon)
  {}

  datatype H1Parameters = H1Parameters(hr0: real, lam: real, sigma: real)

  ghost predicate ValidH1(p: H1Parameters)
  {
    0.0 < p.lam < p.sigma && p.hr0 >= 0.0
  }

  function DefaultH1(): (p: H1Parameters)
    ensures ValidH1(p)
  {
    H1Parameters(1.0, 1.5, 2.5)
  }

  datatype C2H2Parameters = C2H2Parameters(
    phi1: real, phi2: real, phi3: real, phi4: real,
    cphi1: real, cphi2: real, hphi1: real, hphi2: real)

  /** Strictly ordered angles inside (0, PI), so every denominator of `c2`/`h2` is positive, and falling weights. */
  ghost predicate ValidC2H2(p: C2H2Parameters)
  {
    && 0.0 < p.phi1 < p.phi2 < p.phi3 < p.phi4 < PI
    && 0.0 <= p.cphi2 <= p.cphi1
    && 0.0 <= p.hphi2 <= p.hphi1
  }

  function DefaultC2H2(): (p: C2H2Parameters)
    ensures ValidC2H2(p)
  {
    C2H2Parameters(PI / 6.0, PI / 3.0, 2.0 * PI / 3.0, 5.0 * PI / 6.0, 1.0, 0.5, 1.0, 0.5)
  }

  /** A well-formed record gives both angle kernels the shape their lemmas need. */
  lemma ValidC2H2Shape(p: C2H2Parameters)
    requires ValidC2H2(p)
    ensures Kernels.AngleShape(p.cphi1, p.cphi2, p.phi1, p.phi2, p.phi3, p.phi4)
    ensures Kernels.AngleShape(p.hphi1, p.hphi2, p.phi1, p.phi2, p.phi3, p.phi4)
  {}
}
