/**
 * The single-file draft ht_model.py: its own neighbour, wall and random-force variants and its
 * `Agent`. Its `normalize`, `angle_between`, `extract_segments` and `extract_walls_from_geometry`
 * are those of `Utils`; its `F_eik`/`F_fik` are `Forces.MemorySignForce` and its `F_gi` is
 * `Forces.ExitForce`.
 */
module HtModel {
  import opened Vectors
  import opened Geometry
  import opened Utils
  import opened Arith
  import opened Dynamics
  import Forces

  // ---------------------------------------------------------------------------------------------
  // The exp-cos kernel

  /** The product `p` of a positive `e` and a `k` in [-1, 1] has the sign of `k` and size at most `e`. */
  lemma ExpCosFacts(e: real, k: real, p: real)
    requires e > 0.0 && -1.0 <= k <= 1.0 && p == e * k
    ensures p > 0.0 <==> k > 0.0
    ensures -e <= p <= e
  {
    if k > 0.0 { MulPos(e, k); } else { MulMonoRight(e, k, 0.0); }
    MulUnitBounds(e, k);
  }

  /** `c_func` and `h_func`, which are the same expression: `exp(-dist) cos(angle)`. */
  function ExpCos(g: Adapter, dist: real, angle: real): real
  {
    g.exp(-dist) * g.cos(angle)
  }

  /**
   * Under the stated properties of `np.exp` and `np.cos`, the kernel has the sign of the cosine
   * and is bounded in size by `exp(-dist)`.
   */
  lemma ExpCosBounds(g: Adapter, dist: real, angle: real)
    requires SoundKernels(g)
    ensures ExpCos(g, dist, angle) > 0.0 <==> g.cos(angle) > 0.0
    ensures -g.exp(-dist) <= ExpCos(g, dist, angle) <= g.exp(-dist)
  {
    ExpCosFacts(g.exp(-dist), g.cos(angle), ExpCos(g, dist, angle));
  }

  /** `ExpCos` as the function value the force terms take. */
  function ExpCosKernel(g: Adapter): (real, real) -> real
  {
    (dist, angle) => ExpCos(g, dist, angle)
  }

  // ---------------------------------------------------------------------------------------------
  // F_bi and F_ci

  /**
   * One neighbour's repulsion: `-c(dist, angle)` times the unit vector towards it, written as the
   * negation of `c(dist, angle)` times that vector, which is the same value.
   */
  function RepulsionTerm(g: Adapter, xi: Vec, vi: Vec, n: Neighbour, c: (real, real) -> real): Vec
  {
    var r := Sub(n.x, xi);
    var dist := g.norm(r);
    var angle := AngleBetween(g, vi, r);
    if dist > 0.0 then Neg(Scale(c(dist, angle), Div(r, dist))) else Zero()
  }

  function RepulsionSum(g: Adapter, xi: Vec, vi: Vec, others: seq<Neighbour>, c: (real, real) -> real): Vec
    decreases |others|
  {
    if |others| == 0 then Zero()
    else Add(RepulsionSum(g, xi, vi, others[..|others| - 1], c), RepulsionTerm(g, xi, vi, others[|others| - 1], c))
  }

  /** `F_bi` of this draft (model.py has the same code): the sum of the repulsion terms. */
  method Repulsion(g: Adapter, xi: Vec, vi: Vec, others: seq<Neighbour>, c: (real, real) -> real) returns (f: Vec)
    ensures f == RepulsionSum(g, xi, vi, others, c)
  {
    var force := Zero();
    for i := 0 to |others|
      invariant force == RepulsionSum(g, xi, vi, others[..i], c)
    {
      RepulsionSumStep(g, xi, vi, others, i, c);
      var dist := g.norm(Sub(others[i].x, xi));
      if dist > 0.0 {
        force := Add(force, RepulsionTerm(g, xi, vi, others[i], c));
      } else {
        AddZero(force);
      }
    }
    assert others[..|others|] == others;
    return force;
  }

  lemma RepulsionSumStep(g: Adapter, xi: Vec, vi: Vec, others: seq<Neighbour>, i: int, c: (real, real) -> real)
    requires 0 <= i < |others|
    ensures RepulsionSum(g, xi, vi, others[..i + 1], c) ==
      Add(RepulsionSum(g, xi, vi, others[..i], c), RepulsionTerm(g, xi, vi, others[i], c))
  {
    assert others[..i + 1][..i] == others[..i];
  }

  /** Neighbours at zero distance add nothing to the repulsion. */
  lemma {:induction false} RepulsionIgnoresCoincident(g: Adapter, xi: Vec, vi: Vec, others: seq<Neighbour>, c: (real, real) -> real)
    ensures RepulsionSum(g, xi, vi, others, c) == RepulsionSum(g, xi, vi, Forces.KeepApart(g, xi, others), c)
    decreases |others|
  {
    if |others| > 0 {
      var init, last := others[..|others| - 1], others[|others| - 1];
      RepulsionIgnoresCoincident(g, xi, vi, init, c);
      var k := Forces.KeepApart(g, xi, init);
      if Forces.Apart(g, xi, last) {
        assert Forces.KeepApart(g, xi, others) == k + [last];
        assert (k + [last])[..|k + [last]| - 1] == k;
      } else {
        assert Forces.KeepApart(g, xi, others) == k;
        assert RepulsionTerm(g, xi, vi, last, c) == Zero();
        AddZero(RepulsionSum(g, xi, vi, init, c));
      }
    }
  }

  /**
   * When the kernel factors as `c(dist, angle) = c1(dist) c2(angle)`, this draft's `F_bi` is the
   * one of src/forces.py.
   */
  lemma {:induction false} RepulsionMatchesFactored(g: Adapter, xi: Vec, vi: Vec, others: seq<Neighbour>,
                                                    c: (real, real) -> real, c1: real -> real, c2: real -> real)
    requires forall dist, angle :: c(dist, angle) == c1(dist) * c2(angle)
    ensures RepulsionSum(g, xi, vi, others, c) == Neg(Forces.RepulsionSum(g, xi, vi, others, c1, c2))
    decreases |others|
  {
    if |others| > 0 {
      var init, last := others[..|others| - 1], others[|others| - 1];
      RepulsionMatchesFactored(g, xi, vi, init, c, c1, c2);
      RepulsionTermFactored(g, xi, vi, last, c, c1, c2);
      var a, b := Forces.RepulsionSum(g, xi, vi, init, c1, c2), Forces.RepulsionTerm(g, xi, vi, last, c1, c2);
      NegAdd(a, b);
    }
  }

  lemma RepulsionTermFactored(g: Adapter, xi: Vec, vi: Vec, n: Neighbour,
                              c: (real, real) -> real, c1: real -> real, c2: real -> real)
    requires forall dist, angle :: c(dist, angle) == c1(dist) * c2(angle)
    ensures RepulsionTerm(g, xi, vi, n, c) == Neg(Forces.RepulsionTerm(g, xi, vi, n, c1, c2))
  {
    var r := Sub(n.x, xi);
    var dist := g.norm(r);
    var angle := AngleBetween(g, vi, r);
    if dist > 0.0 {
      NegScaleAgree(c(dist, angle), c1(dist) * c2(angle), Div(r, dist));
    } else {
      NegZero();
    }
  }

  lemma NegScaleAgree(a: real, b: real, w: Vec)
    requires a == b
    ensures Neg(Scale(a, w)) == Neg(Scale(b, w))
  {}

  /** One neighbour's cohesion: `h(dist, angle)` times the unit vector towards it. */
  function CohesionTerm(g: Adapter, xi: Vec, vi: Vec, n: Neighbour, h: (real, real) -> real): Vec
  {
    var r := Sub(n.x, xi);
    var dist := g.norm(r);
    var angle := AngleBetween(g, vi, r);
    if dist > 0.0 then Scale(h(dist, angle), Div(r, dist)) else Zero()
  }

  function CohesionSum(g: Adapter, xi: Vec, vi: Vec, others: seq<Neighbour>, h: (real, real) -> real): Vec
    decreases |others|
  {
    if |others| == 0 then Zero()
    else Add(CohesionSum(g, xi, vi, others[..|others| - 1], h), CohesionTerm(g, xi, vi, others[|others| - 1], h))
  }

  lemma CohesionSumStep(g: Adapter, xi: Vec, vi: Vec, others: seq<Neighbour>, i: int, h: (real, real) -> real)
    requires 0 <= i < |others|
    ensures CohesionSum(g, xi, vi, others[..i + 1], h) ==
      Add(CohesionSum(g, xi, vi, others[..i], h), CohesionTerm(g, xi, vi, others[i], h))
  {
    assert others[..i + 1][..i] == others[..i];
  }

  /** What `F_ci` of this draft returns: `-(sum_j h r_ij / |r_ij|) / M`, and zero for no neighbours. */
  function CohesionForce(g: Adapter, xi: Vec, vi: Vec, others: seq<Neighbour>, h: (real, real) -> real): Vec
  {
    if |others| == 0 then Zero() else Div(Neg(CohesionSum(g, xi, vi, others, h)), |others| as real)
  }

  /** `F_ci` of this draft (model.py has the same code). */
  method Cohesion(g: Adapter, xi: Vec, vi: Vec, others: seq<Neighbour>, h: (real, real) -> real) returns (f: Vec)
    ensures f == CohesionForce(g, xi, vi, others, h)
  {
    var force := Zero();
    var m := |others|;
    if m == 0 {
      return force;
    }
    for i := 0 to |others|
      invariant force == CohesionSum(g, xi, vi, others[..i], h)
    {
      CohesionSumStep(g, xi, vi, others, i, h);
      var dist := g.norm(Sub(others[i].x, xi));
      if dist > 0.0 {
        force := Add(force, CohesionTerm(g, xi, vi, others[i], h));
      } else {
        AddZero(force);
      }
    }
    assert others[..|others|] == others;
    return Div(Neg(force), m as real);
  }

  /**
   * Read with the same kernel for `c` and `h`, as the draft's identical `c_func` and `h_func` are,
   * its cohesion is its repulsion averaged over all `M` neighbours: it pushes, not pulls.
   */
  lemma {:induction false} CohesionIsAveragedRepulsion(g: Adapter, xi: Vec, vi: Vec, others: seq<Neighbour>, k: (real, real) -> real)
    requires |others| > 0
    ensures CohesionForce(g, xi, vi, others, k) == Div(RepulsionSum(g, xi, vi, others, k), |others| as real)
  {
    NegCohesionIsRepulsion(g, xi, vi, others, k);
  }

  lemma {:induction false} NegCohesionIsRepulsion(g: Adapter, xi: Vec, vi: Vec, others: seq<Neighbour>, k: (real, real) -> real)
    ensures Neg(CohesionSum(g, xi, vi, others, k)) == RepulsionSum(g, xi, vi, others, k)
    decreases |others|
  {
    if |others| > 0 {
      var init, last := others[..|others| - 1], others[|others| - 1];
      NegCohesionIsRepulsion(g, xi, vi, init, k);
      NegCohesionTerm(g, xi, vi, last, k);
      var a, b := CohesionSum(g, xi, vi, init, k), CohesionTerm(g, xi, vi, last, k);
      NegAdd(a, b);
    }
  }

  lemma NegCohesionTerm(g: Adapter, xi: Vec, vi: Vec, n: Neighbour, k: (real, real) -> real)
    ensures Neg(CohesionTerm(g, xi, vi, n, k)) == RepulsionTerm(g, xi, vi, n, k)
  {
  }

  // ---------------------------------------------------------------------------------------------
  // F_wi

  /**
   * What `F_wi` of this draft returns: when the nearest edge is strictly within `d`, the unit
   * vector away from its closest point scaled by `w1` if the velocity points away from the wall
   * (else `w0`) and by the fall-off `1 - min_dist / d`; otherwise the zero vector.
   */
  function WallForce(g: Adapter, x: Vec, v: Vec, polygons: seq<Polygon>, d: real, w0: real, w1: real): Vec
    requires Sound(g)
  {
    var segs := Forces.WallSegments(polygons);
    if |segs| == 0 then Zero()
    else
      var k := ArgMin(SegmentDistances(g, segs, x));
      var minDist := g.segmentDistance(segs[k], x);
      if minDist < d then EdgePush(g, x, v, segs[k], d, w0, w1) else Zero()
  }

  /**
   * The push of the nearest edge `s`: the unit vector from its closest point to the pedestrian,
   * scaled by `w1` or `w0` and by the fall-off `1 - min_dist / d`.
   */
  function EdgePush(g: Adapter, x: Vec, v: Vec, s: Segment, d: real, w0: real, w1: real): Vec
    requires d != 0.0
  {
    var direction := Normalize(g, Sub(x, g.closestPoint(s, x)));
    var strength := if Dot(v, direction) > 0.0 then w1 else w0;
    Scale(1.0 - g.segmentDistance(s, x) / d, Scale(strength, direction))
  }

  /** `F_wi` of this draft: the same nearest-edge scan as src/forces.py. */
  method WallRepulsion(g: Adapter, x: Vec, v: Vec, polygons: seq<Polygon>, d: real, w0: real, w1: real) returns (f: Vec)
    requires Sound(g)
    ensures f == WallForce(g, x, v, polygons, d, w0, w1)
  {
    var segs := Forces.WallSegments(polygons);
    var found, k, minDist := NearestSegment(g, segs, x);
    if found && minDist < d {
      var closestPoint := g.closestPoint(segs[k], x);
      var direction := Normalize(g, Sub(x, closestPoint));
      var vPerp := Dot(v, direction);
      var strength := if vPerp > 0.0 then w1 else w0;
      WallForceAt(g, x, v, polygons, d, w0, w1, k);
      return Scale(1.0 - minDist / d, Scale(strength, direction));
    }
    return Zero();
  }

  /** With no edge strictly within `d` there is no push. */
  lemma WallForceOutOfRange(g: Adapter, x: Vec, v: Vec, polygons: seq<Polygon>, d: real, w0: real, w1: real)
    requires Sound(g)
    requires forall s :: s in Forces.WallSegments(polygons) ==> g.segmentDistance(s, x) >= d
    ensures WallForce(g, x, v, polygons, d, w0, w1) == Zero()
  {
    var segs := Forces.WallSegments(polygons);
    if |segs| > 0 {
      assert segs[ArgMin(SegmentDistances(g, segs, x))] in segs;
    }
  }

  /** With some edge strictly within `d`, the fall-off factor of the nearest edge lies in (0, 1]. */
  lemma WallFalloffInRange(g: Adapter, x: Vec, polygons: seq<Polygon>, d: real, s: Segment)
    requires Sound(g)
    requires s in Forces.WallSegments(polygons) && g.segmentDistance(s, x) < d
    ensures var segs := Forces.WallSegments(polygons);
      && |segs| > 0
      && var minDist := g.segmentDistance(segs[ArgMin(SegmentDistances(g, segs, x))], x);
      && 0.0 < 1.0 - minDist / d <= 1.0
  {
    Forces.NearestInRange(g, x, polygons, d, s);
    var segs := Forces.WallSegments(polygons);
    FalloffRange(g.segmentDistance(segs[ArgMin(SegmentDistances(g, segs, x))], x), d);
  }

  /**
   * When the nearest edge `segs[k]` (the first of the closest) is strictly within `d`, the force
   * is the push of that edge alone. `Forces.NearestInRange` gives this premise whenever any edge
   * is within `d`.
   */
  lemma WallForceAt(g: Adapter, x: Vec, v: Vec, polygons: seq<Polygon>, d: real, w0: real, w1: real, k: nat)
    requires Sound(g)
    requires var segs := Forces.WallSegments(polygons);
      |segs| > 0 && k == ArgMin(SegmentDistances(g, segs, x)) && g.segmentDistance(segs[k], x) < d
    ensures var segs := Forces.WallSegments(polygons);
      d > 0.0 && WallForce(g, x, v, polygons, d, w0, w1) == EdgePush(g, x, v, segs[k], d, w0, w1)
  {}

  /**
   * With positive strengths, the push of an edge within range is a positive multiple of `e_w`,
   * the unit vector from the closest point of the edge to the pedestrian, which is also the
   * direction `F_wi` of src/forces.py returns (`Forces.WallForceAt`): it points away from the wall.
   */
  lemma EdgePushAwayFromWall(g: Adapter, x: Vec, v: Vec, s: Segment, d: real, w0: real, w1: real)
    requires 0.0 <= g.segmentDistance(s, x) < d && w0 > 0.0 && w1 > 0.0
    ensures var ew := Normalize(g, Sub(x, g.closestPoint(s, x)));
      exists c: real :: c > 0.0 && EdgePush(g, x, v, s, d, w0, w1) == Scale(c, ew)
  {
    var ew := Normalize(g, Sub(x, g.closestPoint(s, x)));
    var falloff := 1.0 - g.segmentDistance(s, x) / d;
    var strength := if Dot(v, ew) > 0.0 then w1 else w0;
    FalloffRange(g.segmentDistance(s, x), d);
    EdgePushAlong(g, x, v, s, d, w0, w1, ew);
    MulPos(falloff, strength);
    ScaleScale(falloff, strength, ew);
    assert falloff * strength > 0.0 && EdgePush(g, x, v, s, d, w0, w1) == Scale(falloff * strength, ew);
  }

  lemma FalloffRange(minDist: real, d: real)
    requires 0.0 <= minDist < d
    ensures 0.0 < 1.0 - minDist / d <= 1.0
  {
    DivNonneg(minDist, d);
    DivStrict(minDist, d, d);
    DivSelf(d);
  }

  /** `EdgePush` spelled out along a given copy `ew` of its direction. */
  lemma EdgePushAlong(g: Adapter, x: Vec, v: Vec, s: Segment, d: real, w0: real, w1: real, ew: Vec)
    requires d != 0.0 && ew == Normalize(g, Sub(x, g.closestPoint(s, x)))
    ensures EdgePush(g, x, v, s, d, w0, w1) ==
      Scale(1.0 - g.segmentDistance(s, x) / d, Scale(if Dot(v, ew) > 0.0 then w1 else w0, ew))
  {}

  // ---------------------------------------------------------------------------------------------
  // F_31

  /**
   * `F_31` of this draft (model.py has the same code): `q1 u` away from walls and, near a wall,
   * the opposite of the src/forces.py choice: `-q2 u` when `bwi > 0`, else `-q1 u`.
   */
  function RandomForce(di: real, bwi: real, q1: real, q2: real, d: real, u: Vec): (f: Vec)
    ensures di > d ==> f == Forces.RandomForce(di, bwi, q1, q2, d, u)
    ensures di <= d ==> f == Neg(Forces.RandomForce(di, bwi, q1, q2, d, u))
  {
    if di > d then Scale(q1, u)
    else if bwi > 0.0 then Scale(-q2, u)
    else Scale(-q1, u)
  }

  /**
   * With `bwi = v . v`, a moving agent near a wall always takes the `-q2` branch and a standing one
   * the `-q1` branch.
   */
  lemma RandomForceWithSpeed(v: Vec, di: real, q1: real, q2: real, d: real, u: Vec)
    requires di <= d
    ensures v != Zero() ==> RandomForce(di, Dot(v, v), q1, q2, d, u) == Scale(-q2, u)
    ensures v == Zero() ==> RandomForce(di, Dot(v, v), q1, q2, d, u) == Scale(-q1, u)
  {
    DotSelfPositive(v);
  }

  // ---------------------------------------------------------------------------------------------
  // The agent

  class Agent {
    var x: Vec
    var v: Vec
    var m: real
    var nu: real
    var acc: Vec

    /** A new agent with no acceleration; mass and damping default to 1.0 and 0.5. */
    constructor(position: Vec, velocity: Vec, mass: real := 1.0, damping: real := 0.5)
      ensures x == position && v == velocity && m == mass && nu == damping && acc == Zero()
    {
      x, v, m, nu, acc := position, velocity, mass, damping, Zero();
    }

    /** `update(dt)`: one semi-implicit Euler step. */
    method Update(dt: real)
      modifies this
      ensures (x, v) == EulerStep(old(x), old(v), old(acc), dt)
      ensures acc == old(acc) && m == old(m) && nu == old(nu)
    {
      v := Add(v, Scale(dt, acc));
      x := Add(x, Scale(dt, v));
    }

    /**
     * `compute_forces` with this draft's defaults; `u` is the unit vector `random_unit` would draw
     * inside `F_31`, and `hI` is the herding input `F_hi` returns unchanged.
     */
    method ComputeForces(g: Adapter, others: seq<Neighbour>, polygons: seq<Polygon>, signs: seq<Vec>,
                         memSigns: seq<Vec>, exits: seq<Polygon>, hI: Vec, u: Vec)
      modifies this
      requires Sound(g) && m != 0.0
      ensures x == old(x) && v == old(v) && m == old(m) && nu == old(nu)
      ensures acc == Acceleration(
        TotalForce(
          Forces.DrivingForce(g, v, 1.0),
          RepulsionSum(g, x, v, others, ExpCosKernel(g)),
          CohesionForce(g, x, v, others, ExpCosKernel(g)),
          WallForce(g, x, v, polygons, 1.0, 6.0, 6.0),
          Forces.MemorySignSum(g, x, signs, 1.0),
          Forces.MemorySignSum(g, x, memSigns, 1.0),
          Forces.ExitForce(g, x, exits, 0.5),
          hI,
          RandomForce(WallClearance(g, polygons, x), Dot(v, v), 1.0, 2.0, 1.0, u)),
        nu, v, m)
    {
      var fAi := Forces.DrivingForce(g, v, 1.0);
      var fBi := Repulsion(g, x, v, others, ExpCosKernel(g));
      var fCi := Cohesion(g, x, v, others, ExpCosKernel(g));
      var fWi := WallRepulsion(g, x, v, polygons, 1.0, 6.0, 6.0);
      var fEik := Forces.MemorySignForce(g, x, signs, 1.0);
      var fFik := Forces.MemorySignForce(g, x, memSigns, 1.0);
      var fGi := Forces.ExitForce(g, x, exits, 0.5);
      var fHi := hI;
      var di := WallClearance(g, polygons, x);
      var bwi := Dot(v, v);
      var f31 := RandomForce(di, bwi, 1.0, 2.0, 1.0, u);
      var total := TotalForce(fAi, fBi, fCi, fWi, fEik, fFik, fGi, fHi, f31);
      acc := Acceleration(total, nu, v, m);
    }
  }
}
