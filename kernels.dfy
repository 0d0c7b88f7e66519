/**
 * The interaction kernels of src/forces.py: piecewise-linear weights of the distance (`c1`, `h1`)
 * and of the view angle (`c2`, `h2`) to a neighbour. Each takes its thresholds as arguments, as the
 * Python keyword parameters do.
 */
module Kernels {
  import opened Arith

  /** `(x - lo) / (hi - lo)` lies in [0, 1) for `lo <= x < hi`, and grows with `x`. */
  lemma FractionFacts(lo: real, hi: real, x: real, y: real)
    requires lo <= x <= y < hi
    ensures 0.0 <= (x - lo) / (hi - lo) <= (y - lo) / (hi - lo) < 1.0
  {
    var d := hi - lo;
    DivNonneg(x - lo, d);
    DivNonneg(y - x, d);
    DivPos(hi - y, d);
    DivSub(y - lo, x - lo, d);
    DivSub(d, y - lo, d);
    DivSelf(d);
  }

  /** `scale * (1 - t)` for `t` in [0, 1) lies in [0, scale], shrinking as `t` grows. */
  lemma FallFacts(scale: real, t: real, u: real)
    requires scale >= 0.0 && 0.0 <= t <= u < 1.0
    ensures 0.0 <= scale * (1.0 - t) <= scale
    ensures scale * (1.0 - u) <= scale * (1.0 - t)
  {
    MulNonneg(scale, 1.0 - t);
    MulMonoRight(scale, 1.0 - t, 1.0);
    MulMonoRight(scale, 1.0 - u, 1.0 - t);
  }

  /** The falling pieces of the kernels, `scale (1 - (x - lo) / (hi - lo))` on [lo, hi). */
  lemma FallLine(scale: real, lo: real, hi: real, x: real, y: real)
    requires scale >= 0.0 && lo <= x <= y < hi
    ensures 0.0 <= scale * (1.0 - (x - lo) / (hi - lo)) <= scale
    ensures scale * (1.0 - (y - lo) / (hi - lo)) <= scale * (1.0 - (x - lo) / (hi - lo))
  {
    FractionFacts(lo, hi, x, y);
    FallFacts(scale, (x - lo) / (hi - lo), (y - lo) / (hi - lo));
  }

  // ---------------------------------------------------------------------------------------------
  // c1: distance-based repulsion

  /**
   * `c1(r)`: rises linearly from `cn0` at 0 to `cr0` at `beta`, stays at `cr0` up to `gamma`, falls
   * linearly to 0 at `epsilon` and is 0 beyond (src/forces.py defaults: -0.5, 1, 1, 2, 3).
   */
  function C1(r: real, cn0: real, cr0: real, beta: real, gamma: real, epsilon: real): (c: real)
    requires r < beta ==> beta != 0.0
    ensures 0.0 < beta && r == 0.0 ==> c == cn0
    ensures beta <= r < gamma ==> c == cr0
    ensures beta <= gamma && r >= gamma && r >= epsilon ==> c == 0.0
  {
    if r < beta then cn0 + (cr0 - cn0) * (r / beta)
    else if r < gamma then cr0
    else if r < epsilon then cr0 * (1.0 - (r - gamma) / (epsilon - gamma))
    else 0.0
  }

  /** Ordered thresholds and a non-positive near value below a non-negative plateau. */
  ghost predicate C1Shape(cn0: real, cr0: real, beta: real, gamma: real, epsilon: real)
  {
    0.0 < beta <= gamma < epsilon && cn0 <= 0.0 <= cr0
  }

  /** Over non-negative distances `c1` stays in [cn0, cr0]. */
  lemma {:induction false} C1Bounds(r: real, cn0: real, cr0: real, beta: real, gamma: real, epsilon: real)
    requires C1Shape(cn0, cr0, beta, gamma, epsilon) && r >= 0.0
    ensures cn0 <= C1(r, cn0, cr0, beta, gamma, epsilon) <= cr0
  {
    if r < beta {
      C1OnRise(r, cn0, cr0, beta, gamma, epsilon);
      RiseLine(cn0, cr0, beta, r, r);
    } else if gamma <= r < epsilon {
      C1OnFall(r, cn0, cr0, beta, gamma, epsilon);
      FallLine(cr0, gamma, epsilon, r, r);
    }
  }

  /** The rising piece of `c1`, `cn0 + (cr0 - cn0) (r / beta)` on [0, beta). */
  lemma RiseLine(cn0: real, cr0: real, beta: real, r: real, s: real)
    requires cn0 <= cr0 && 0.0 <= r <= s < beta
    ensures cn0 <= cn0 + (cr0 - cn0) * (r / beta) <= cr0
    ensures cn0 + (cr0 - cn0) * (r / beta) <= cn0 + (cr0 - cn0) * (s / beta)
  {
    UnitFraction(r, s, beta);
    ProductFacts(cr0 - cn0, r / beta, s / beta);
  }

  /** `r / beta` lies in [0, 1) for `0 <= r < beta`, and grows with `r`. */
  lemma UnitFraction(r: real, s: real, beta: real)
    requires 0.0 <= r <= s < beta
    ensures 0.0 <= r / beta <= s / beta < 1.0
  {
    DivNonneg(r, beta);
    DivMono(r, s, beta);
    DivStrict(s, beta, beta);
    DivSelf(beta);
  }

  /** `k t` for `t` in [0, 1] lies in [0, k] and grows with `t`. */
  lemma ProductFacts(k: real, t: real, u: real)
    requires k >= 0.0 && 0.0 <= t <= u <= 1.0
    ensures 0.0 <= k * t <= k * u <= k
  {
    MulNonneg(k, t);
    MulMonoRight(k, t, u);
    MulMonoRight(k, u, 1.0);
  }

  lemma C1OnPlateau(r: real, cn0: real, cr0: real, beta: real, gamma: real, epsilon: real)
    requires beta <= r < gamma
    ensures C1(r, cn0, cr0, beta, gamma, epsilon) == cr0
  {}

  lemma C1OnRise(r: real, cn0: real, cr0: real, beta: real, gamma: real, epsilon: real)
    requires C1Shape(cn0, cr0, beta, gamma, epsilon) && 0.0 <= r < beta
    ensures C1(r, cn0, cr0, beta, gamma, epsilon) == cn0 + (cr0 - cn0) * (r / beta)
  {}

  /** `c1` never decreases on [0, gamma): the linear rise followed by the plateau. */
  lemma {:induction false} C1Rising(r: real, s: real, cn0: real, cr0: real, beta: real, gamma: real, epsilon: real)
    requires C1Shape(cn0, cr0, beta, gamma, epsilon) && 0.0 <= r <= s < gamma
    ensures C1(r, cn0, cr0, beta, gamma, epsilon) <= C1(s, cn0, cr0, beta, gamma, epsilon)
  {
    if s < beta {
      C1OnRise(r, cn0, cr0, beta, gamma, epsilon);
      C1OnRise(s, cn0, cr0, beta, gamma, epsilon);
      RiseLine(cn0, cr0, beta, r, s);
    } else {
      C1OnPlateau(s, cn0, cr0, beta, gamma, epsilon);
      C1Bounds(r, cn0, cr0, beta, gamma, epsilon);
    }
  }

  /** `c1` never increases from `beta` on: the plateau, the linear fall and the zero tail. */
  lemma {:induction false} C1Falling(r: real, s: real, cn0: real, cr0: real, beta: real, gamma: real, epsilon: real)
    requires C1Shape(cn0, cr0, beta, gamma, epsilon) && beta <= r <= s
    ensures C1(s, cn0, cr0, beta, gamma, epsilon) <= C1(r, cn0, cr0, beta, gamma, epsilon)
  {
    if s < gamma {
      C1OnPlateau(r, cn0, cr0, beta, gamma, epsilon);
      C1OnPlateau(s, cn0, cr0, beta, gamma, epsilon);
    } else if r < gamma {
      C1OnPlateau(r, cn0, cr0, beta, gamma, epsilon);
      C1Bounds(s, cn0, cr0, beta, gamma, epsilon);
    } else if r >= epsilon {
      assert C1(r, cn0, cr0, beta, gamma, epsilon) == 0.0;
      assert C1(s, cn0, cr0, beta, gamma, epsilon) == 0.0;
    } else {
      C1OnFall(r, cn0, cr0, beta, gamma, epsilon);
      if s < epsilon {
        C1OnFall(s, cn0, cr0, beta, gamma, epsilon);
        FallLine(cr0, gamma, epsilon, r, s);
      } else {
        assert C1(s, cn0, cr0, beta, gamma, epsilon) == 0.0;
        FallLine(cr0, gamma, epsilon, r, r);
      }
    }
  }

  lemma C1OnFall(r: real, cn0: real, cr0: real, beta: real, gamma: real, epsilon: real)
    requires C1Shape(cn0, cr0, beta, gamma, epsilon) && gamma <= r < epsilon
    ensures C1(r, cn0, cr0, beta, gamma, epsilon) == cr0 * (1.0 - (r - gamma) / (epsilon - gamma))
  {}

  // ---------------------------------------------------------------------------------------------
  // h1: distance-based cohesion

  /** `h1(r)`: `hr0` below `lam`, falling linearly to 0 at `sigma`, 0 beyond (defaults 1, 2, 3). */
  function H1(r: real, hr0: real, lam: real, sigma: real): (h: real)
    ensures r < lam ==> h == hr0
    ensures r >= lam && r >= sigma ==> h == 0.0
  {
    if r < lam then hr0
    else if r < sigma then hr0 * (1.0 - (r - lam) / (sigma - lam))
    else 0.0
  }

  /** With a non-negative height, `h1` stays in [0, hr0]. */
  lemma {:induction false} H1Bounds(r: real, hr0: real, lam: real, sigma: real)
    requires hr0 >= 0.0
    ensures 0.0 <= H1(r, hr0, lam, sigma) <= hr0
  {
    if lam <= r < sigma {
      H1OnFall(r, hr0, lam, sigma);
      FallLine(hr0, lam, sigma, r, r);
    }
  }

  lemma H1OnFall(r: real, hr0: real, lam: real, sigma: real)
    requires lam <= r < sigma
    ensures H1(r, hr0, lam, sigma) == hr0 * (1.0 - (r - lam) / (sigma - lam))
  {}

  /** With a non-negative height, `h1` never increases with distance. */
  lemma {:induction false} H1NonIncreasing(r: real, s: real, hr0: real, lam: real, sigma: real)
    requires hr0 >= 0.0 && r <= s
    ensures H1(s, hr0, lam, sigma) <= H1(r, hr0, lam, sigma)
  {
    H1Bounds(r, hr0, lam, sigma);
    H1Bounds(s, hr0, lam, sigma);
    if lam <= r && s < sigma {
      H1OnFall(r, hr0, lam, sigma);
      H1OnFall(s, hr0, lam, sigma);
      FallLine(hr0, lam, sigma, r, s);
    }
  }

  // ---------------------------------------------------------------------------------------------
  // c2 and h2: angle-based repulsion and cohesion, which share one shape

  /**
   * The shape `c2` and `h2` both compute: `k1` below `phi1`, a linear step down to `k2` at `phi2`,
   * `k2` up to `phi3`, a linear fall to 0 at `phi4`, and 0 beyond.
   */
  function AngleKernel(phi: real, k1: real, k2: real, phi1: real, phi2: real, phi3: real, phi4: real): (k: real)
    ensures phi < phi1 ==> k == k1
    ensures phi1 <= phi2 <= phi < phi3 ==> k == k2
    ensures phi1 <= phi2 <= phi3 <= phi4 <= phi ==> k == 0.0
  {
    if phi < phi1 then k1
    else if phi < phi2 then k1 - (k1 - k2) * (phi - phi1) / (phi2 - phi1)
    else if phi < phi3 then k2
    else if phi < phi4 then k2 * (1.0 - (phi - phi3) / (phi4 - phi3))
    else 0.0
  }

  /** `c2(phi)` with weights `cphi1`, `cphi2` (defaults 1 and 0.5, angles PI/6 ... 5 PI/6). */
  function C2(phi: real, cphi1: real, cphi2: real, phi1: real, phi2: real, phi3: real, phi4: real): real
  {
    AngleKernel(phi, cphi1, cphi2, phi1, phi2, phi3, phi4)
  }

  /** `h2(phi)` with weights `hphi1`, `hphi2`; the same shape as `c2`. */
  function H2(phi: real, hphi1: real, hphi2: real, phi1: real, phi2: real, phi3: real, phi4: real): real
  {
    AngleKernel(phi, hphi1, hphi2, phi1, phi2, phi3, phi4)
  }

  /** Ordered angles and weights `0 <= k2 <= k1`. */
  ghost predicate AngleShape(k1: real, k2: real, phi1: real, phi2: real, phi3: real, phi4: real)
  {
    phi1 <= phi2 <= phi3 <= phi4 && 0.0 <= k2 <= k1
  }

  /** The linear step from `k1` down to `k2` stays between them and never increases. */
  lemma StepFacts(k1: real, k2: real, lo: real, hi: real, x: real, y: real)
    requires 0.0 <= k2 <= k1 && lo <= x <= y < hi
    ensures k2 <= k1 - (k1 - k2) * (x - lo) / (hi - lo) <= k1
    ensures k1 - (k1 - k2) * (y - lo) / (hi - lo) <= k1 - (k1 - k2) * (x - lo) / (hi - lo)
  {
    FractionFacts(lo, hi, x, y);
    var t, u := (x - lo) / (hi - lo), (y - lo) / (hi - lo);
    assert (k1 - k2) * (x - lo) / (hi - lo) == (k1 - k2) * t;
    assert (k1 - k2) * (y - lo) / (hi - lo) == (k1 - k2) * u;
    MulNonneg(k1 - k2, t);
    MulMonoRight(k1 - k2, t, 1.0);
    MulMonoRight(k1 - k2, t, u);
  }

  /** The angle kernel stays in [0, k1]. */
  lemma {:induction false} AngleKernelBounds(phi: real, k1: real, k2: real, phi1: real, phi2: real, phi3: real, phi4: real)
    requires AngleShape(k1, k2, phi1, phi2, phi3, phi4)
    ensures 0.0 <= AngleKernel(phi, k1, k2, phi1, phi2, phi3, phi4) <= k1
  {
    if phi1 <= phi < phi2 {
      AngleKernelOnStep(phi, k1, k2, phi1, phi2, phi3, phi4);
      StepFacts(k1, k2, phi1, phi2, phi, phi);
    } else if phi3 <= phi < phi4 {
      AngleKernelOnTail(phi, k1, k2, phi1, phi2, phi3, phi4);
      FallLine(k2, phi3, phi4, phi, phi);
    }
  }

  /** Before `phi3` the angle kernel is at least `k2`; from `phi2` on it is at most `k2`. */
  lemma {:induction false} AngleKernelAroundK2(phi: real, k1: real, k2: real, phi1: real, phi2: real, phi3: real, phi4: real)
    requires AngleShape(k1, k2, phi1, phi2, phi3, phi4)
    ensures phi < phi3 ==> k2 <= AngleKernel(phi, k1, k2, phi1, phi2, phi3, phi4)
    ensures phi >= phi2 ==> AngleKernel(phi, k1, k2, phi1, phi2, phi3, phi4) <= k2
  {
    var k := AngleKernel(phi, k1, k2, phi1, phi2, phi3, phi4);
    if phi < phi1 {
      assert k == k1;
    } else if phi < phi2 {
      AngleKernelOnStep(phi, k1, k2, phi1, phi2, phi3, phi4);
      StepFacts(k1, k2, phi1, phi2, phi, phi);
    } else if phi < phi3 {
      assert k == k2;
    } else if phi < phi4 {
      AngleKernelOnTail(phi, k1, k2, phi1, phi2, phi3, phi4);
      FallLine(k2, phi3, phi4, phi, phi);
    } else {
      assert k == 0.0;
    }
  }

  /** On the linear step `[phi1, phi2)` the angle kernel never increases. */
  lemma AngleKernelStepFalls(phi: real, psi: real, k1: real, k2: real, phi1: real, phi2: real, phi3: real, phi4: real)
    requires AngleShape(k1, k2, phi1, phi2, phi3, phi4) && phi1 <= phi <= psi < phi2
    ensures AngleKernel(psi, k1, k2, phi1, phi2, phi3, phi4) <= AngleKernel(phi, k1, k2, phi1, phi2, phi3, phi4)
  {
    AngleKernelOnStep(phi, k1, k2, phi1, phi2, phi3, phi4);
    AngleKernelOnStep(psi, k1, k2, phi1, phi2, phi3, phi4);
    StepFacts(k1, k2, phi1, phi2, phi, psi);
  }

  lemma AngleKernelOnStep(phi: real, k1: real, k2: real, phi1: real, phi2: real, phi3: real, phi4: real)
    requires AngleShape(k1, k2, phi1, phi2, phi3, phi4) && phi1 <= phi < phi2
    ensures AngleKernel(phi, k1, k2, phi1, phi2, phi3, phi4) == k1 - (k1 - k2) * (phi - phi1) / (phi2 - phi1)
  {}

  /** On the linear fall `[phi3, phi4)` the angle kernel never increases. */
  lemma AngleKernelTailFalls(phi: real, psi: real, k1: real, k2: real, phi1: real, phi2: real, phi3: real, phi4: real)
    requires AngleShape(k1, k2, phi1, phi2, phi3, phi4) && phi3 <= phi <= psi < phi4
    ensures AngleKernel(psi, k1, k2, phi1, phi2, phi3, phi4) <= AngleKernel(phi, k1, k2, phi1, phi2, phi3, phi4)
  {
    AngleKernelOnTail(phi, k1, k2, phi1, phi2, phi3, phi4);
    AngleKernelOnTail(psi, k1, k2, phi1, phi2, phi3, phi4);
    FallLine(k2, phi3, phi4, phi, psi);
  }

  lemma AngleKernelOnTail(phi: real, k1: real, k2: real, phi1: real, phi2: real, phi3: real, phi4: real)
    requires AngleShape(k1, k2, phi1, phi2, phi3, phi4) && phi3 <= phi < phi4
    ensures AngleKernel(phi, k1, k2, phi1, phi2, phi3, phi4) == k2 * (1.0 - (phi - phi3) / (phi4 - phi3))
  {}

  /** The angle kernel never increases as the angle widens. */
  lemma {:induction false} AngleKernelNonIncreasing(phi: real, psi: real, k1: real, k2: real, phi1: real, phi2: real, phi3: real, phi4: real)
    requires AngleShape(k1, k2, phi1, phi2, phi3, phi4) && phi <= psi
    ensures AngleKernel(psi, k1, k2, phi1, phi2, phi3, phi4) <= AngleKernel(phi, k1, k2, phi1, phi2, phi3, phi4)
  {
    if phi < phi1 {
      assert AngleKernel(phi, k1, k2, phi1, phi2, phi3, phi4) == k1;
      AngleKernelBounds(psi, k1, k2, phi1, phi2, phi3, phi4);
    } else if psi >= phi4 {
      assert AngleKernel(psi, k1, k2, phi1, phi2, phi3, phi4) == 0.0;
      AngleKernelBounds(phi, k1, k2, phi1, phi2, phi3, phi4);
    } else if psi < phi2 {
      AngleKernelStepFalls(phi, psi, k1, k2, phi1, phi2, phi3, phi4);
    } else if phi < phi3 {
      AngleKernelAroundK2(phi, k1, k2, phi1, phi2, phi3, phi4);
      AngleKernelAroundK2(psi, k1, k2, phi1, phi2, phi3, phi4);
    } else {
      AngleKernelTailFalls(phi, psi, k1, k2, phi1, phi2, phi3, phi4);
    }
  }
}
