/**
 * The force terms of src/forces.py that act on one pedestrian `i`: its own drive `F_ai`, the
 * repulsion `F_bi` and cohesion `F_ci` of its neighbours, the wall push `F_wi`, the pull of visible
 * (`F_eik`) and remembered (`F_fik`) signs, the exit attraction `F_gi`, the panic push `F_hi` and
 * the random fluctuation `F_31`.
 */
module Forces {
  import opened Vectors
  import opened Geometry
  import opened Utils
  import opened Arith

  // ---------------------------------------------------------------------------------------------
  // F_ai: the pedestrian's own drive

  /** `F_ai`: `a` times the unit vector along the current velocity (zero when standing still). */
  function DrivingForce(g: Adapter, v: Vec, a: real): (f: Vec)
    ensures Sound(g) && v == Zero() ==> f == Zero()
    ensures g.norm(v) > 0.0 ==> f == Scale(a / g.norm(v), v)
  {
    Scale(a, Normalize(g, v))
  }

  /** A moving pedestrian is driven with magnitude exactly `a`. */
  lemma DrivingForceMagnitude(g: Adapter, v: Vec, a: real)
    requires Sound(g) && Homogeneous(g) && v != Zero() && a >= 0.0
    ensures g.norm(DrivingForce(g, v, a)) == a
  {
    NormalizeUnit(g, v);
    assert g.norm(Scale(a, Normalize(g, v))) == a * 1.0;
  }

  // ---------------------------------------------------------------------------------------------
  // F_bi and F_ci: neighbour sums

  /** Whether a neighbour sits at a positive distance from `xi`; only those contribute. */
  predicate Apart(g: Adapter, xi: Vec, n: Neighbour)
  {
    g.norm(Sub(n.x, xi)) > 0.0
  }

  /** The neighbours at a positive distance, in list order. */
  function KeepApart(g: Adapter, xi: Vec, others: seq<Neighbour>): (kept: seq<Neighbour>)
    ensures |kept| <= |others|
    ensures forall n :: n in kept <==> n in others && Apart(g, xi, n)
    decreases |others|
  {
    if |others| == 0 then []
    else
      var init, last := others[..|others| - 1], others[|others| - 1];
      assert others == init + [last];
      KeepApart(g, xi, init) + (if Apart(g, xi, last) then [last] else [])
  }

  /** One neighbour's contribution to the repulsion sum: `c1(r) c2(phi)` times the unit `r_ij`. */
  function RepulsionTerm(g: Adapter, xi: Vec, vi: Vec, n: Neighbour, c1: real -> real, c2: real -> real): Vec
  {
    var r := Sub(n.x, xi);
    var dist := g.norm(r);
    if dist > 0.0 then Scale(c1(dist) * c2(AngleBetween(g, vi, r)), Div(r, dist)) else Zero()
  }

  /** `sum_j c(x_i, v_i, x_j) r_ij / |r_ij|`, accumulated in list order. */
  function RepulsionSum(g: Adapter, xi: Vec, vi: Vec, others: seq<Neighbour>, c1: real -> real, c2: real -> real): Vec
    decreases |others|
  {
    if |others| == 0 then Zero()
    else
      Add(RepulsionSum(g, xi, vi, others[..|others| - 1], c1, c2),
          RepulsionTerm(g, xi, vi, others[|others| - 1], c1, c2))
  }

  /** `F_bi`: minus the repulsion sum, with distance kernel `c1` and angle kernel `c2`. */
  method Repulsion(g: Adapter, xi: Vec, vi: Vec, others: seq<Neighbour>, c1: real -> real, c2: real -> real)
    returns (f: Vec)
    ensures f == Neg(RepulsionSum(g, xi, vi, others, c1, c2))
  {
    var force := Zero();
    var i := 0;
    while i < |others|
      invariant 0 <= i <= |others|
      invariant force == RepulsionSum(g, xi, vi, others[..i], c1, c2)
    {
      RepulsionSumStep(g, xi, vi, others, i, c1, c2);
      var dist := g.norm(Sub(others[i].x, xi));
      if dist > 0.0 {
        force := Add(force, RepulsionTerm(g, xi, vi, others[i], c1, c2));
      } else {
        AddZero(force);
      }
      i := i + 1;
    }
    assert others[..|others|] == others;
    f := Neg(force);
  }

  lemma RepulsionSumStep(g: Adapter, xi: Vec, vi: Vec, others: seq<Neighbour>, i: int, c1: real -> real, c2: real -> real)
    requires 0 <= i < |others|
    ensures RepulsionSum(g, xi, vi, others[..i + 1], c1, c2) ==
      Add(RepulsionSum(g, xi, vi, others[..i], c1, c2), RepulsionTerm(g, xi, vi, others[i], c1, c2))
  {
    assert others[..i + 1][..i] == others[..i];
  }

  /** Neighbours at zero distance add nothing: the sum over all equals the sum over those apart. */
  lemma {:induction false} RepulsionIgnoresCoincident(g: Adapter, xi: Vec, vi: Vec, others: seq<Neighbour>, c1: real -> real, c2: real -> real)
    ensures RepulsionSum(g, xi, vi, others, c1, c2) == RepulsionSum(g, xi, vi, KeepApart(g, xi, others), c1, c2)
    decreases |others|
  {
    if |others| > 0 {
      var init, last := others[..|others| - 1], others[|others| - 1];
      RepulsionIgnoresCoincident(g, xi, vi, init, c1, c2);
      var k := KeepApart(g, xi, init);
      if Apart(g, xi, last) {
        assert KeepApart(g, xi, others) == k + [last];
        assert (k + [last])[..|k + [last]| - 1] == k;
      } else {
        assert KeepApart(g, xi, others) == k;
        assert RepulsionTerm(g, xi, vi, last, c1, c2) == Zero();
        AddZero(RepulsionSum(g, xi, vi, init, c1, c2));
      }
    }
  }

  /** One neighbour's contribution to the cohesion sum: `h1(r) h2(phi)` times `v_j - v_i`. */
  function CohesionTerm(g: Adapter, xi: Vec, vi: Vec, n: Neighbour, h1: real -> real, h2: real -> real): Vec
  {
    var r := Sub(n.x, xi);
    var dist := g.norm(r);
    if dist > 0.0 then Scale(h1(dist) * h2(AngleBetween(g, vi, r)), Sub(n.v, vi)) else Zero()
  }

  /** `sum_j h(x_i, v_i, x_j) (v_j - v_i)`, accumulated in list order. */
  function CohesionSum(g: Adapter, xi: Vec, vi: Vec, others: seq<Neighbour>, h1: real -> real, h2: real -> real): Vec
    decreases |others|
  {
    if |others| == 0 then Zero()
    else
      Add(CohesionSum(g, xi, vi, others[..|others| - 1], h1, h2),
          CohesionTerm(g, xi, vi, others[|others| - 1], h1, h2))
  }

  /**
   * `F_ci`: the cohesion sum divided by the number `M` of neighbours, and the zero vector for an
   * empty list. `M` counts every neighbour, coincident ones included.
   */
  method Cohesion(g: Adapter, xi: Vec, vi: Vec, others: seq<Neighbour>, h1: real -> real, h2: real -> real)
    returns (f: Vec)
    ensures |others| == 0 ==> f == Zero()
    ensures |others| > 0 ==> f == Div(CohesionSum(g, xi, vi, others, h1, h2), |others| as real)
  {
    var force := Zero();
    var m := |others|;
    if m == 0 {
      return force;
    }
    var i := 0;
    while i < |others|
      invariant 0 <= i <= |others|
      invariant force == CohesionSum(g, xi, vi, others[..i], h1, h2)
    {
      CohesionSumStep(g, xi, vi, others, i, h1, h2);
      var dist := g.norm(Sub(others[i].x, xi));
      if dist > 0.0 {
        force := Add(force, CohesionTerm(g, xi, vi, others[i], h1, h2));
      } else {
        AddZero(force);
      }
      i := i + 1;
    }
    assert others[..|others|] == others;
    assert force == CohesionSum(g, xi, vi, others, h1, h2);
    f := Div(force, m as real);
  }

  lemma CohesionSumStep(g: Adapter, xi: Vec, vi: Vec, others: seq<Neighbour>, i: int, h1: real -> real, h2: real -> real)
    requires 0 <= i < |others|
    ensures CohesionSum(g, xi, vi, others[..i + 1], h1, h2) ==
      Add(CohesionSum(g, xi, vi, others[..i], h1, h2), CohesionTerm(g, xi, vi, others[i], h1, h2))
  {
    assert others[..i + 1][..i] == others[..i];
  }

  /** Neighbours at zero distance add nothing to the cohesion sum. */
  lemma {:induction false} CohesionIgnoresCoincident(g: Adapter, xi: Vec, vi: Vec, others: seq<Neighbour>, h1: real -> real, h2: real -> real)
    ensures CohesionSum(g, xi, vi, others, h1, h2) == CohesionSum(g, xi, vi, KeepApart(g, xi, others), h1, h2)
    decreases |others|
  {
    if |others| > 0 {
      var init, last := others[..|others| - 1], others[|others| - 1];
      CohesionIgnoresCoincident(g, xi, vi, init, h1, h2);
      var k := KeepApart(g, xi, init);
      if Apart(g, xi, last) {
        assert KeepApart(g, xi, others) == k + [last];
        assert (k + [last])[..|k + [last]| - 1] == k;
      } else {
        assert KeepApart(g, xi, others) == k;
        assert CohesionTerm(g, xi, vi, last, h1, h2) == Zero();
        AddZero(CohesionSum(g, xi, vi, init, h1, h2));
      }
    }
  }

  // ---------------------------------------------------------------------------------------------
  // F_wi: the nearest wall edge

  /** Every edge of every polygon, polygon by polygon, as the nested comprehension lists them. */
  function WallSegments(polygons: seq<Polygon>): (segs: seq<Segment>)
    decreases |polygons|
  {
    if |polygons| == 0 then [] else ExtractSegments(polygons[0]) + WallSegments(polygons[1..])
  }

  /** An edge is in the flattened list exactly when it is an edge of one of the polygons. */
  lemma {:induction false} WallSegmentsMembership(polygons: seq<Polygon>, s: Segment)
    ensures s in WallSegments(polygons) <==>
      exists i :: 0 <= i < |polygons| && s in ExtractSegments(polygons[i])
    decreases |polygons|
  {
    if |polygons| > 0 {
      WallSegmentsMembership(polygons[1..], s);
      if s in WallSegments(polygons[1..]) {
        var i :| 0 <= i < |polygons[1..]| && s in ExtractSegments(polygons[1..][i]);
        assert s in ExtractSegments(polygons[i + 1]);
      }
      if exists i :: 0 <= i < |polygons| && s in ExtractSegments(polygons[i]) {
        var i :| 0 <= i < |polygons| && s in ExtractSegments(polygons[i]);
        if i > 0 {
          assert s in ExtractSegments(polygons[1..][i - 1]);
        }
      }
    }
  }

  /**
   * The push strength for a pedestrian at distance `dist` from the wall whose velocity points into
   * it with speed `vwi = -v . e_w`: `w1` plus, when moving into the wall, `w0 vwi (d - dist) / d`.
   */
  function WallStrength(vwi: real, dist: real, d: real, w0: real, w1: real): (s: real)
    requires vwi > 0.0 ==> d != 0.0
    ensures vwi <= 0.0 ==> s == w1
    ensures w0 >= 0.0 && 0.0 <= dist <= d ==> s >= w1
    ensures w0 > 0.0 && 0.0 <= dist < d ==> (s > w1 <==> vwi > 0.0)
  {
    if vwi > 0.0 then
      ExtraPushFacts(vwi, dist, d, w0);
      w0 * vwi * (d - dist) / d + w1
    else w1
  }

  /** The extra push `w0 vwi (d - dist) / d` for a pedestrian moving into the wall. */
  lemma ExtraPushFacts(vwi: real, dist: real, d: real, w0: real)
    requires vwi > 0.0 && d != 0.0
    ensures w0 >= 0.0 && 0.0 <= dist <= d ==> w0 * vwi * (d - dist) / d >= 0.0
    ensures w0 > 0.0 && 0.0 <= dist < d ==> w0 * vwi * (d - dist) / d > 0.0
  {
    if w0 >= 0.0 && 0.0 <= dist <= d {
      MulNonneg(w0, vwi);
      MulNonneg(w0 * vwi, d - dist);
      DivNonneg(w0 * vwi * (d - dist), d);
    }
    if w0 > 0.0 && 0.0 <= dist < d {
      MulPos(w0, vwi);
      MulPos(w0 * vwi, d - dist);
      DivPos(w0 * vwi * (d - dist), d);
    }
  }

  /** Moving into the wall, the push grows as the wall gets closer. */
  lemma WallStrengthGrowsNearer(vwi: real, dist: real, dist': real, d: real, w0: real, w1: real)
    requires vwi > 0.0 && w0 > 0.0 && d > 0.0 && dist' < dist
    ensures WallStrength(vwi, dist', d, w0, w1) > WallStrength(vwi, dist, d, w0, w1)
  {
    MulPos(w0, vwi);
    MulStrictRight(w0 * vwi, d - dist, d - dist');
    DivStrict(w0 * vwi * (d - dist), w0 * vwi * (d - dist'), d);
  }

  /** Within range, the push grows with the speed into the wall. */
  lemma WallStrengthGrowsFaster(vwi: real, vwi': real, dist: real, d: real, w0: real, w1: real)
    requires 0.0 < vwi < vwi' && w0 > 0.0 && 0.0 <= dist < d
    ensures WallStrength(vwi', dist, d, w0, w1) > WallStrength(vwi, dist, d, w0, w1)
  {
    MulStrictRight(w0, vwi, vwi');
    MulStrictRight(d - dist, w0 * vwi, w0 * vwi');
    assert w0 * vwi * (d - dist) == (d - dist) * (w0 * vwi);
    assert w0 * vwi' * (d - dist) == (d - dist) * (w0 * vwi');
    DivStrict(w0 * vwi * (d - dist), w0 * vwi' * (d - dist), d);
  }

  /** The returned direction when no wall is within range. */
  function Placeholder(): Vec { Vec(1.0, 0.0) }

  /**
   * What `F_wi` returns: when the nearest edge (the first of the closest, in list order) is
   * strictly within `d`, `strength * e_w` and `e_w`, the unit vector from the closest point on
   * that edge to the pedestrian; otherwise the zero vector and the placeholder direction (1, 0).
   */
  function WallForce(g: Adapter, x: Vec, v: Vec, polygons: seq<Polygon>, d: real, w0: real, w1: real): (r: (Vec, Vec))
    requires Sound(g)
  {
    var segs := WallSegments(polygons);
    if |segs| == 0 then (Zero(), Placeholder())
    else
      var k := ArgMin(SegmentDistances(g, segs, x));
      var minDist := g.segmentDistance(segs[k], x);
      if minDist < d then
        var ew := Normalize(g, Sub(x, g.closestPoint(segs[k], x)));
        (Scale(WallStrength(-Dot(v, ew), minDist, d, w0, w1), ew), ew)
      else (Zero(), Placeholder())
  }

  /** `F_wi` of src/forces.py: scans the edges of all polygons for the nearest one. */
  method WallRepulsion(g: Adapter, x: Vec, v: Vec, polygons: seq<Polygon>, d: real, w0: real, w1: real)
    returns (f: Vec, ew: Vec)
    requires Sound(g)
    ensures (f, ew) == WallForce(g, x, v, polygons, d, w0, w1)
  {
    var segs := WallSegments(polygons);
    var found, k, minDist := NearestSegment(g, segs, x);
    if found && minDist < d {
      var closestPoint := g.closestPoint(segs[k], x);
      ew := Normalize(g, Sub(x, closestPoint));
      var vwi := -Dot(v, ew);
      var strength := WallStrength(vwi, minDist, d, w0, w1);
      WallForceAt(g, x, v, polygons, d, w0, w1, k);
      return Scale(strength, ew), ew;
    }
    return Zero(), Placeholder();
  }

  /** `F_wi` in terms of the nearest edge `segs[k]`, when that edge is in range. */
  lemma WallForceAt(g: Adapter, x: Vec, v: Vec, polygons: seq<Polygon>, d: real, w0: real, w1: real, k: nat)
    requires Sound(g)
    requires var segs := WallSegments(polygons);
      |segs| > 0 && k == ArgMin(SegmentDistances(g, segs, x)) && g.segmentDistance(segs[k], x) < d
    ensures var segs := WallSegments(polygons);
      var ew := Normalize(g, Sub(x, g.closestPoint(segs[k], x)));
      WallForce(g, x, v, polygons, d, w0, w1) ==
        (Scale(WallStrength(-Dot(v, ew), g.segmentDistance(segs[k], x), d, w0, w1), ew), ew)
  {}

  /** With no edge strictly within `d`, there is no push and the direction is the placeholder. */
  lemma WallForceOutOfRange(g: Adapter, x: Vec, v: Vec, polygons: seq<Polygon>, d: real, w0: real, w1: real)
    requires Sound(g)
    requires forall s :: s in WallSegments(polygons) ==> g.segmentDistance(s, x) >= d
    ensures WallForce(g, x, v, polygons, d, w0, w1) == (Zero(), Placeholder())
  {
    var segs := WallSegments(polygons);
    if |segs| > 0 {
      var k := ArgMin(SegmentDistances(g, segs, x));
      assert segs[k] in segs;
    }
  }

  /** When some edge is strictly within `d`, so is the nearest one. */
  lemma NearestInRange(g: Adapter, x: Vec, polygons: seq<Polygon>, d: real, s: Segment)
    requires Sound(g)
    requires s in WallSegments(polygons) && g.segmentDistance(s, x) < d
    ensures var segs := WallSegments(polygons);
      |segs| > 0 && 0.0 <= g.segmentDistance(segs[ArgMin(SegmentDistances(g, segs, x))], x) < d
  {
    var segs := WallSegments(polygons);
    var ds := SegmentDistances(g, segs, x);
    var j :| 0 <= j < |segs| && segs[j] == s;
    assert ds[ArgMin(ds)] <= ds[j];
  }

  /**
   * With some edge strictly within `d`, the push acts along the returned direction, with a strength
   * of `w1` when not moving into the wall and never below `w1` when `w0 >= 0`.
   */
  lemma WallForceInRange(g: Adapter, x: Vec, v: Vec, polygons: seq<Polygon>, d: real, w0: real, w1: real, s: Segment)
    requires Sound(g)
    requires s in WallSegments(polygons) && g.segmentDistance(s, x) < d
    ensures var r := WallForce(g, x, v, polygons, d, w0, w1);
      exists strength: real ::
        && r.0 == Scale(strength, r.1)
        && (Dot(v, r.1) >= 0.0 ==> strength == w1)
        && (w0 >= 0.0 ==> strength >= w1)
  {
    NearestInRange(g, x, polygons, d, s);
    var segs := WallSegments(polygons);
    var k := ArgMin(SegmentDistances(g, segs, x));
    var minDist := g.segmentDistance(segs[k], x);
    var ew := Normalize(g, Sub(x, g.closestPoint(segs[k], x)));
    var strength := WallStrength(-Dot(v, ew), minDist, d, w0, w1);
    WallForceAt(g, x, v, polygons, d, w0, w1, k);
    assert WallForce(g, x, v, polygons, d, w0, w1) == (Scale(strength, ew), ew);
  }

  // ---------------------------------------------------------------------------------------------
  // F_eik and F_fik: signs

  /**
   * The tests a sign passes in `F_eik`: the pedestrian is within `visionRadius` of it, inside its
   * facing cone of width `signFov`, and sees it within its own field of view `fov`.
   */
  predicate SignAttracts(g: Adapter, x: Vec, v: Vec, s: Sign, visionRadius: real, fov: real, signFov: real)
  {
    var toAgent := Sub(x, s.pos);
    var toSign := Sub(s.pos, x);
    && g.norm(toAgent) <= visionRadius
    && AngleBetween(g, s.facing, toAgent) <= signFov / 2.0
    && AngleBetween(g, v, toSign) <= fov / 2.0
  }

  /** `eta` times the unit vector from the pedestrian to a sign. */
  function SignPull(g: Adapter, x: Vec, p: Vec, eta: real): Vec
  {
    Scale(eta, Normalize(g, Sub(p, x)))
  }

  /** The pull of every sign that passes the tests, accumulated in list order. */
  function VisibleSignSum(g: Adapter, x: Vec, v: Vec, signs: seq<Sign>, eta: real, visionRadius: real, fov: real, signFov: real): Vec
    decreases |signs|
  {
    if |signs| == 0 then Zero()
    else
      var last := signs[|signs| - 1];
      var rest := VisibleSignSum(g, x, v, signs[..|signs| - 1], eta, visionRadius, fov, signFov);
      if SignAttracts(g, x, v, last, visionRadius, fov, signFov) then Add(rest, SignPull(g, x, last.pos, eta))
      else rest
  }

  /** `F_eik` of src/forces.py (defaults: radius 1.5, field of view 2 PI / 3, facing cone PI / 2). */
  method VisibleSignForce(g: Adapter, x: Vec, v: Vec, signs: seq<Sign>, eta: real, visionRadius: real, fov: real, signFov: real)
    returns (f: Vec)
    ensures f == VisibleSignSum(g, x, v, signs, eta, visionRadius, fov, signFov)
  {
    var force := Zero();
    for i := 0 to |signs|
      invariant force == VisibleSignSum(g, x, v, signs[..i], eta, visionRadius, fov, signFov)
    {
      assert signs[..i + 1][..i] == signs[..i];
      var toAgent := Sub(x, signs[i].pos);
      var toSign := Sub(signs[i].pos, x);
      var dist := g.norm(toAgent);
      if dist > visionRadius {
        continue;
      }
      var angleAgentToSign := AngleBetween(g, signs[i].facing, toAgent);
      var angleSignToAgent := AngleBetween(g, v, toSign);
      if angleAgentToSign <= signFov / 2.0 && angleSignToAgent <= fov / 2.0 {
        force := Add(force, Scale(eta, Normalize(g, Sub(signs[i].pos, x))));
      }
    }
    assert signs[..|signs|] == signs;
    return force;
  }

  /** One remembered sign's pull: `eta (P_k - x) / |P_k - x|`, and nothing when standing on it. */
  function MemoryPull(g: Adapter, x: Vec, p: Vec, eta: real): Vec
  {
    var dir := Sub(p, x);
    var dist := g.norm(dir);
    if dist > 0.0 then Div(Scale(eta, dir), dist) else Zero()
  }

  /** The pull of every remembered sign, accumulated in list order. */
  function MemorySignSum(g: Adapter, x: Vec, mem: seq<Vec>, eta: real): Vec
    decreases |mem|
  {
    if |mem| == 0 then Zero()
    else Add(MemorySignSum(g, x, mem[..|mem| - 1], eta), MemoryPull(g, x, mem[|mem| - 1], eta))
  }

  /** `F_fik`: the pull of the remembered sign positions (also `F_eik` of ht_model.py and model.py). */
  method MemorySignForce(g: Adapter, x: Vec, mem: seq<Vec>, eta: real) returns (f: Vec)
    ensures f == MemorySignSum(g, x, mem, eta)
  {
    var force := Zero();
    for i := 0 to |mem|
      invariant force == MemorySignSum(g, x, mem[..i], eta)
    {
      assert mem[..i + 1][..i] == mem[..i];
      var dirVec := Sub(mem[i], x);
      var dist := g.norm(dirVec);
      if dist > 0.0 {
        force := Add(force, Div(Scale(eta, dirVec), dist));
      }
    }
    assert mem[..|mem|] == mem;
    return force;
  }

  /** The positions of the signs that pass the `F_eik` tests, in list order. */
  function AttractingPositions(g: Adapter, x: Vec, v: Vec, signs: seq<Sign>, visionRadius: real, fov: real, signFov: real): (ps: seq<Vec>)
    ensures |ps| <= |signs|
    decreases |signs|
  {
    if |signs| == 0 then []
    else
      var last := signs[|signs| - 1];
      AttractingPositions(g, x, v, signs[..|signs| - 1], visionRadius, fov, signFov)
        + (if SignAttracts(g, x, v, last, visionRadius, fov, signFov) then [last.pos] else [])
  }

  /** A sign's pull is the same whether it is seen or remembered. */
  lemma PullsAgree(g: Adapter, x: Vec, p: Vec, eta: real)
    ensures SignPull(g, x, p, eta) == MemoryPull(g, x, p, eta)
  {
    var dir := Sub(p, x);
    var dist := g.norm(dir);
    if dist > 0.0 {
      assert (eta * dir.x) / dist == eta * (1.0 / dist * dir.x);
      assert (eta * dir.y) / dist == eta * (1.0 / dist * dir.y);
    }
  }

  /** `F_eik` is `F_fik` over the positions of the signs that pass its tests. */
  lemma {:induction false} VisibleIsMemoryOfAttracting(g: Adapter, x: Vec, v: Vec, signs: seq<Sign>, eta: real, visionRadius: real, fov: real, signFov: real)
    ensures VisibleSignSum(g, x, v, signs, eta, visionRadius, fov, signFov)
      == MemorySignSum(g, x, AttractingPositions(g, x, v, signs, visionRadius, fov, signFov), eta)
    decreases |signs|
  {
    if |signs| > 0 {
      var init, last := signs[..|signs| - 1], signs[|signs| - 1];
      VisibleIsMemoryOfAttracting(g, x, v, init, eta, visionRadius, fov, signFov);
      var ps := AttractingPositions(g, x, v, init, visionRadius, fov, signFov);
      if SignAttracts(g, x, v, last, visionRadius, fov, signFov) {
        var ps' := ps + [last.pos];
        assert AttractingPositions(g, x, v, signs, visionRadius, fov, signFov) == ps';
        assert ps'[..|ps'| - 1] == ps && ps'[|ps'| - 1] == last.pos;
        PullsAgree(g, x, last.pos, eta);
      } else {
        assert AttractingPositions(g, x, v, signs, visionRadius, fov, signFov) == ps;
      }
    }
  }

  // ---------------------------------------------------------------------------------------------
  // F_gi, F_hi, F_31

  /** `F_gi`: `strength` times the unit vector towards the centroid of the first exit. */
  function ExitForce(g: Adapter, x: Vec, exits: seq<Polygon>, strength: real): (f: Vec)
    ensures |exits| == 0 ==> f == Zero()
    ensures |exits| > 0 && g.norm(Sub(g.centroid(exits[0]), x)) > 0.0 ==>
      f == Scale(strength / g.norm(Sub(g.centroid(exits[0]), x)), Sub(g.centroid(exits[0]), x))
  {
    if |exits| == 0 then Zero()
    else
      var center := g.centroid(exits[0]);
      Scale(strength, Normalize(g, Sub(center, x)))
  }

  /** Only the first exit in the list is ever used. */
  lemma ExitForceFirstOnly(g: Adapter, x: Vec, exits: seq<Polygon>, strength: real)
    requires |exits| > 0
    ensures ExitForce(g, x, exits, strength) == ExitForce(g, x, [exits[0]], strength)
  {}

  /** Away from the first exit's centroid the pull has magnitude exactly `strength`. */
  lemma ExitForceMagnitude(g: Adapter, x: Vec, exits: seq<Polygon>, strength: real)
    requires Sound(g) && Homogeneous(g) && strength >= 0.0
    requires |exits| > 0 && g.centroid(exits[0]) != x
    ensures g.norm(ExitForce(g, x, exits, strength)) == strength
  {
    var dir := Sub(g.centroid(exits[0]), x);
    assert dir != Zero();
    NormalizeUnit(g, dir);
    assert g.norm(Scale(strength, Normalize(g, dir))) == strength * 1.0;
  }

  /**
   * `F_hi`: zero when the pedestrian is exactly at the panic site or farther than `cutoff`;
   * otherwise `strength` along the direction from the panic site to the pedestrian.
   */
  function PanicForce(g: Adapter, x: Vec, xPanic: Vec, strength: real, cutoff: real): (f: Vec)
    ensures g.norm(Sub(x, xPanic)) == 0.0 || g.norm(Sub(x, xPanic)) > cutoff ==> f == Zero()
    ensures 0.0 != g.norm(Sub(x, xPanic)) <= cutoff ==>
      f == Scale(strength / g.norm(Sub(x, xPanic)), Sub(x, xPanic))
  {
    var direction := Sub(x, xPanic);
    var distance := g.norm(direction);
    if distance == 0.0 || distance > cutoff then Zero()
    else
      assert Scale(strength, Div(direction, distance)) == Scale(strength / distance, direction) by {
        assert strength * (direction.x / distance) == strength / distance * direction.x;
        assert strength * (direction.y / distance) == strength / distance * direction.y;
      }
      Scale(strength, Div(direction, distance))
  }

  /** Within the cutoff and off the panic site the push has magnitude exactly `strength`. */
  lemma PanicForceMagnitude(g: Adapter, x: Vec, xPanic: Vec, strength: real, cutoff: real)
    requires Sound(g) && Homogeneous(g) && strength >= 0.0
    requires x != xPanic && g.norm(Sub(x, xPanic)) <= cutoff
    ensures g.norm(PanicForce(g, x, xPanic, strength, cutoff)) == strength
  {
    var direction := Sub(x, xPanic);
    assert direction != Zero();
    var n := g.norm(direction);
    NormalizeUnit(g, direction);
    DivIsScale(direction, n);
    assert Div(direction, n) == Normalize(g, direction);
    assert g.norm(Scale(strength, Normalize(g, direction))) == strength * 1.0;
  }

  /**
   * `F_31`: the random unit `u` scaled by `q1` away from walls (`di > d`), by `q2` near a wall
   * while `bwi > 0`, and by `q1` otherwise. The first and last cases coincide, so `q2` is used
   * exactly when near a wall and `bwi > 0`.
   */
  function RandomForce(di: real, bwi: real, q1: real, q2: real, d: real, u: Vec): (f: Vec)
    ensures f == Scale(if di <= d && bwi > 0.0 then q2 else q1, u)
  {
    if di > d then Scale(q1, u)
    else if bwi > 0.0 then Scale(q2, u)
    else Scale(q1, u)
  }
}
