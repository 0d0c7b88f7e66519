/**
 * The `Agent` of src/agents.py: the composition of the force terms into an acceleration, and the
 * Euler step. Of the calls it makes into src/forces.py, `F_ai`, `F_fik`, `F_gi` and `F_31` match
 * the signatures there and are modelled by `Forces`; `F_bi`, `F_ci` (which are handed the absent
 * `c_func`/`h_func`), `F_wi` (which returns a pair and is handed keyword names src/parameters.py
 * lacks), `F_eik` (which is called without a velocity) and `F_hi` (called without a panic site) do
 * not, so their values are inputs.
 */
module SrcAgents {
  import opened Vectors
  import opened Geometry
  import opened Dynamics
  import opened Wrappers
  import Forces
  import Parameters

  /** The five force values whose calls do not match src/forces.py. */
  datatype UnboundForces = UnboundForces(bi: Vec, ci: Vec, wi: Vec, eik: Vec, hi: Vec)

  /** `params or ForceParameters()`: a given record is used as it is, none gives the defaults. */
  function ParamsOrDefault(params: Option<Parameters.ForceParameters>): (p: Parameters.ForceParameters)
    ensures params.None? ==> p == Parameters.Default()
    ensures params.Some? ==> p == params.value
  {
    if params.Some? then params.value else Parameters.Default()
  }

  /**
   * With the default parameters and no polygons, `di` is 1.0, which equals `random_threshold`, so
   * `F_31` never takes its `di > d` branch: a moving agent draws `q2 u`, a standing one `q1 u`.
   */
  lemma DefaultRandomBranch(g: Adapter, x: Vec, v: Vec, u: Vec)
    ensures var p := Parameters.Default();
      && !(WallClearance(g, [], x) > p.randomThreshold)
      && Forces.RandomForce(WallClearance(g, [], x), Dot(v, v), p.q1, p.q2, p.randomThreshold, u) ==
           Scale(if v != Zero() then 2.0 else 1.0, u)
  {
    DotSelfPositive(v);
  }

  class Agent {
    var x: Vec
    var v: Vec
    var m: real
    var nu: real
    var acc: Vec
    var params: Parameters.ForceParameters

    /** A new agent with no acceleration; mass and damping default to 1.0 and 0.5, the parameters to the defaults. */
    constructor(position: Vec, velocity: Vec, mass: real := 1.0, damping: real := 0.5,
                given: Option<Parameters.ForceParameters> := None)
      ensures x == position && v == velocity && m == mass && nu == damping && acc == Zero()
      ensures params == ParamsOrDefault(given)
    {
      x, v, m, nu, acc := position, velocity, mass, damping, Zero();
      params := ParamsOrDefault(given);
    }

    /** `update(dt)`: one semi-implicit Euler step. */
    method Update(dt: real)
      modifies this
      ensures (x, v) == EulerStep(old(x), old(v), old(acc), dt)
      ensures acc == old(acc) && m == old(m) && nu == old(nu) && params == old(params)
    {
      v := Add(v, Scale(dt, acc));
      x := Add(x, Scale(dt, v));
    }

    /**
     * `compute_forces`: `di` is the clearance to the nearest polygon exterior (1.0 with none),
     * `bwi = v . v`, `u` is the unit vector `random_unit` would draw inside `F_31`, and the nine
     * terms are summed into the acceleration.
     */
    method ComputeForces(g: Adapter, unbound: UnboundForces, polygons: seq<Polygon>, memSigns: seq<Vec>,
                         exits: seq<Polygon>, u: Vec)
      modifies this
      requires m != 0.0
      ensures x == old(x) && v == old(v) && m == old(m) && nu == old(nu) && params == old(params)
      ensures acc == Acceleration(
        TotalForce(
          Forces.DrivingForce(g, v, params.a),
          unbound.bi,
          unbound.ci,
          unbound.wi,
          unbound.eik,
          Forces.MemorySignSum(g, x, memSigns, params.etaMem),
          Forces.ExitForce(g, x, exits, params.exitStrength),
          unbound.hi,
          Forces.RandomForce(WallClearance(g, polygons, x), Dot(v, v), params.q1, params.q2, params.randomThreshold, u)),
        nu, v, m)
    {
      var fAi := Forces.DrivingForce(g, v, params.a);
      var fFik := Forces.MemorySignForce(g, x, memSigns, params.etaMem);
      var fGi := Forces.ExitForce(g, x, exits, params.exitStrength);
      var di := WallClearance(g, polygons, x);
      var bwi := Dot(v, v);
      var f31 := Forces.RandomForce(di, bwi, params.q1, params.q2, params.randomThreshold, u);
      var total := TotalForce(fAi, unbound.bi, unbound.ci, unbound.wi, unbound.eik, fFik, fGi, unbound.hi, f31);
      acc := Acceleration(total, nu, v, m);
    }
  }
}
