/**
 * What every draft's `Agent` shares: the nine force terms summed into `F_total`, the damped
 * acceleration `(F_total - nu v) / m`, and the semi-implicit Euler step of `update`.
 */
module Dynamics {
  import opened Vectors

  /** `(f_ai + f_bi + f_ci) + (f_wi + f_eik + f_fik + f_gi + f_hi) + f_31`. */
  function TotalForce(ai: Vec, bi: Vec, ci: Vec, wi: Vec, eik: Vec, fik: Vec, gi: Vec, hi: Vec, f31: Vec): (t: Vec)
    ensures t.x == ai.x + bi.x + ci.x + wi.x + eik.x + fik.x + gi.x + hi.x + f31.x
    ensures t.y == ai.y + bi.y + ci.y + wi.y + eik.y + fik.y + gi.y + hi.y + f31.y
  {
    var f11 := Add(Add(ai, bi), ci);
    var f21 := Add(Add(Add(Add(wi, eik), fik), gi), hi);
    Add(Add(f11, f21), f31)
  }

  /** `(F_total - nu v) / m`: the acceleration that balances the total force against damping. */
  function Acceleration(total: Vec, nu: real, v: Vec, m: real): (acc: Vec)
    requires m != 0.0
    ensures Add(Scale(m, acc), Scale(nu, v)) == total
  {
    var r := Div(Sub(total, Scale(nu, v)), m);
    assert m * r.x == total.x - nu * v.x;
    assert m * r.y == total.y - nu * v.y;
    r
  }

  /** The acceleration is unique: any `acc` with `m acc + nu v == F_total` is the one computed. */
  lemma AccelerationUnique(total: Vec, nu: real, v: Vec, m: real, acc: Vec)
    requires m != 0.0 && Add(Scale(m, acc), Scale(nu, v)) == total
    ensures acc == Acceleration(total, nu, v, m)
  {
    var r := Acceleration(total, nu, v, m);
    assert m * acc.x == m * r.x;
    assert m * acc.y == m * r.y;
    assert acc.x == (m * acc.x) / m;
    assert r.x == (m * r.x) / m;
    assert acc.y == (m * acc.y) / m;
    assert r.y == (m * r.y) / m;
  }

  /** One `update(dt)`: `v += dt acc`, then `x += dt v` with the new velocity. */
  function EulerStep(x: Vec, v: Vec, acc: Vec, dt: real): (r: (Vec, Vec))
  {
    var v' := Add(v, Scale(dt, acc));
    (Add(x, Scale(dt, v')), v')
  }

  /**
   * The step is semi-implicit: the position moves by `dt v + dt^2 acc`, so it differs from an
   * explicit Euler step `x + dt v` exactly when `dt^2 acc` is nonzero.
   */
  lemma EulerStepSemiImplicit(x: Vec, v: Vec, acc: Vec, dt: real)
    ensures EulerStep(x, v, acc, dt).1 == Add(v, Scale(dt, acc))
    ensures EulerStep(x, v, acc, dt).0 == Add(Add(x, Scale(dt, v)), Scale(dt * dt, acc))
    ensures EulerStep(x, v, acc, dt).0 == Add(x, Scale(dt, v)) <==> Scale(dt * dt, acc) == Zero()
  {
    var (x', v') := EulerStep(x, v, acc, dt);
    assert dt * (v.x + dt * acc.x) == dt * v.x + dt * dt * acc.x;
    assert dt * (v.y + dt * acc.y) == dt * v.y + dt * dt * acc.y;
  }

  /** With no force the velocity decays by the factor `1 - dt nu / m` each step. */
  lemma UnforcedDecay(nu: real, v: Vec, m: real, dt: real)
    requires m != 0.0
    ensures EulerStep(Zero(), v, Acceleration(Zero(), nu, v, m), dt).1 == Scale(1.0 - dt * nu / m, v)
  {
    var acc := Acceleration(Zero(), nu, v, m);
    assert acc == Vec(-(nu * v.x) / m, -(nu * v.y) / m);
    assert v.x + dt * (-(nu * v.x) / m) == (1.0 - dt * nu / m) * v.x;
    assert v.y + dt * (-(nu * v.y) / m) == (1.0 - dt * nu / m) * v.y;
  }
}
