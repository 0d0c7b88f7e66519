/**
 * The earlier draft model.py: its first-match wall force and its `Agent`. Its `F_bi`, `F_ci` and
 * `F_31` are the code of ht_model.py (`HtModel`), its `F_eik`/`F_fik` are
 * `Forces.MemorySignForce`, and its `F_gi`/`F_hi` hand their inputs back unchanged.
 */
module ModelDraft {
  import opened Vectors
  import opened Geometry
  import opened Utils
  import opened Arith
  import opened Dynamics
  import Forces
  import HtModel

  /** The wall is nearer than `d`, measured to its exterior ring. */
  predicate InRange(g: Adapter, x: Vec, wall: Polygon, d: real)
  {
    g.ringDistance(wall.exterior, x) < d
  }

  /**
   * The push of one wall: the unit vector from the centroid of its exterior ring towards the agent,
   * scaled by `w1` when the velocity has a positive component along it, by `w0` otherwise.
   */
  function WallPush(g: Adapter, x: Vec, v: Vec, wall: Polygon, w0: real, w1: real): Vec
  {
    var direction := Normalize(g, Neg(Sub(g.ringCentroid(wall.exterior), x)));
    if Dot(v, direction) > 0.0 then Scale(w1, direction) else Scale(w0, direction)
  }

  /** What `F_wi` of model.py returns: the push of the first wall in range, or zero if none is. */
  function FirstWallForce(g: Adapter, x: Vec, v: Vec, walls: seq<Polygon>, d: real, w0: real, w1: real): Vec
    decreases |walls|
  {
    if |walls| == 0 then Zero()
    else if InRange(g, x, walls[0], d) then WallPush(g, x, v, walls[0], w0, w1)
    else FirstWallForce(g, x, v, walls[1..], d, w0, w1)
  }

  /** `F_wi` of model.py: scans the walls in order and returns at the first one in range. */
  method WallRepulsion(g: Adapter, x: Vec, v: Vec, walls: seq<Polygon>, d: real, w0: real, w1: real) returns (f: Vec)
    ensures f == FirstWallForce(g, x, v, walls, d, w0, w1)
  {
    for i := 0 to |walls|
      invariant FirstWallForce(g, x, v, walls, d, w0, w1) == FirstWallForce(g, x, v, walls[i..], d, w0, w1)
    {
      assert walls[i..][1..] == walls[i + 1..];
      var dist := g.ringDistance(walls[i].exterior, x);
      if dist < d {
        var direction := Normalize(g, Neg(Sub(g.ringCentroid(walls[i].exterior), x)));
        var vPerp := Dot(v, direction);
        if vPerp > 0.0 {
          return Scale(w1, direction);
        } else {
          return Scale(w0, direction);
        }
      }
    }
    return Zero();
  }

  /**
   * The wall that acts is the first one in range, whatever lies behind it: a nearer wall later in
   * the list is never consulted.
   */
  lemma {:induction false} FirstMatchWins(g: Adapter, x: Vec, v: Vec, walls: seq<Polygon>, d: real, w0: real, w1: real, k: int)
    requires 0 <= k < |walls| && InRange(g, x, walls[k], d)
    requires forall i :: 0 <= i < k ==> !InRange(g, x, walls[i], d)
    ensures FirstWallForce(g, x, v, walls, d, w0, w1) == WallPush(g, x, v, walls[k], w0, w1)
    decreases k
  {
    if k > 0 {
      assert !InRange(g, x, walls[0], d);
      assert forall i :: 0 <= i < k - 1 ==> walls[1..][i] == walls[i + 1];
      FirstMatchWins(g, x, v, walls[1..], d, w0, w1, k - 1);
    }
  }

  /** No wall in range, no push. */
  lemma {:induction false} NoWallInRange(g: Adapter, x: Vec, v: Vec, walls: seq<Polygon>, d: real, w0: real, w1: real)
    requires forall i :: 0 <= i < |walls| ==> !InRange(g, x, walls[i], d)
    ensures FirstWallForce(g, x, v, walls, d, w0, w1) == Zero()
    decreases |walls|
  {
    if |walls| > 0 {
      assert !InRange(g, x, walls[0], d);
      assert forall i :: 0 <= i < |walls| - 1 ==> walls[1..][i] == walls[i + 1];
      NoWallInRange(g, x, v, walls[1..], d, w0, w1);
    }
  }

  /**
   * With positive strengths and the agent away from the centroid, the push has a positive
   * component along the line from the centroid to the agent.
   */
  lemma WallPushAwayFromCentroid(g: Adapter, x: Vec, v: Vec, wall: Polygon, w0: real, w1: real)
    requires Sound(g)
    requires w0 > 0.0 && w1 > 0.0
    requires x != g.ringCentroid(wall.exterior)
    ensures Dot(WallPush(g, x, v, wall, w0, w1), Sub(x, g.ringCentroid(wall.exterior))) > 0.0
  {
    var r := Sub(x, g.ringCentroid(wall.exterior));
    assert Neg(Sub(g.ringCentroid(wall.exterior), x)) == r;
    assert r != Zero();
    var n := g.norm(r);
    assert n > 0.0;
    var c := 1.0 / n;
    assert c > 0.0;
    var direction := Normalize(g, r);
    assert direction == Scale(c, r);
    var s := if Dot(v, direction) > 0.0 then w1 else w0;
    assert WallPush(g, x, v, wall, w0, w1) == Scale(s, direction);
    DotSelfPositive(r);
    MulPos(s, c);
    MulPos(s * c, Dot(r, r));
    assert Dot(Scale(s, Scale(c, r)), r) == (s * c) * Dot(r, r);
  }

  class Agent {
    var x: Vec
    var v: Vec
    var m: real
    var nu: real
    var acc: Vec

    /** A new agent with no acceleration; mass and damping default to 1.0 and 0.5. */
    constructor(position: Vec, velocity: Vec, mass: real := 1.0, damping: real := 0.5)
      ensures x == position && v == velocity && m == mass && nu == damping && acc == Zero()
    {
      x, v, m, nu, acc := position, velocity, mass, damping, Zero();
    }

    /** `update(dt)`: one semi-implicit Euler step. */
    method Update(dt: real)
      modifies this
      ensures (x, v) == EulerStep(old(x), old(v), old(acc), dt)
      ensures acc == old(acc) && m == old(m) && nu == old(nu)
    {
      v := Add(v, Scale(dt, acc));
      x := Add(x, Scale(dt, v));
    }

    /**
     * `compute_forces` with the defaults of model.py; `gI` and `hI` pass through `F_gi` and `F_hi`
     * unchanged, and `u` is the unit vector `random_unit` would draw inside `F_31`.
     */
    method ComputeForces(g: Adapter, others: seq<Neighbour>, walls: seq<Polygon>, signs: seq<Vec>,
                         memSigns: seq<Vec>, gI: Vec, hI: Vec, u: Vec)
      modifies this
      requires m != 0.0
      ensures x == old(x) && v == old(v) && m == old(m) && nu == old(nu)
      ensures acc == Acceleration(
        TotalForce(
          Forces.DrivingForce(g, v, 1.0),
          HtModel.RepulsionSum(g, x, v, others, HtModel.ExpCosKernel(g)),
          HtModel.CohesionForce(g, x, v, others, HtModel.ExpCosKernel(g)),
          FirstWallForce(g, x, v, walls, 1.0, 1.0, 2.0),
          Forces.MemorySignSum(g, x, signs, 1.0),
          Forces.MemorySignSum(g, x, memSigns, 1.0),
          gI,
          hI,
          HtModel.RandomForce(WallClearance(g, walls, x), Dot(v, v), 1.0, 2.0, 1.0, u)),
        nu, v, m)
    {
      var fAi := Forces.DrivingForce(g, v, 1.0);
      var fBi := HtModel.Repulsion(g, x, v, others, HtModel.ExpCosKernel(g));
      var fCi := HtModel.Cohesion(g, x, v, others, HtModel.ExpCosKernel(g));
      var fWi := WallRepulsion(g, x, v, walls, 1.0, 1.0, 2.0);
      var fEik := Forces.MemorySignForce(g, x, signs, 1.0);
      var fFik := Forces.MemorySignForce(g, x, memSigns, 1.0);
      var di := WallClearance(g, walls, x);
      var bwi := Dot(v, v);
      var f31 := HtModel.RandomForce(di, bwi, 1.0, 2.0, 1.0, u);
      var total := TotalForce(fAi, fBi, fCi, fWi, fEik, fFik, gI, hI, f31);
      acc := Acceleration(total, nu, v, m);
    }
  }
}
