/** Planar vectors over exact reals: the numpy 2-vectors every draft of the model uses. */
module Vectors {
  import opened Arith

  datatype Vec = Vec(x: real, y: real)

  /** `np.zeros(2)`. */
  function Zero(): Vec { Vec(0.0, 0.0) }

  function Add(a: Vec, b: Vec): Vec { Vec(a.x + b.x, a.y + b.y) }

  function Sub(a: Vec, b: Vec): Vec { Vec(a.x - b.x, a.y - b.y) }

  function Neg(a: Vec): Vec { Vec(-a.x, -a.y) }

  /** `c * a` for a scalar `c`. */
  function Scale(c: real, a: Vec): Vec { Vec(c * a.x, c * a.y) }

  /** `a / c` for a nonzero scalar `c`, component by component. */
  function Div(a: Vec, c: real): Vec
    requires c != 0.0
  {
    Vec(a.x / c, a.y / c)
  }

  /** `np.dot(a, b)`. */
  function Dot(a: Vec, b: Vec): real { a.x * b.x + a.y * b.y }

  /** One entry `(x_j, v_j)` of a neighbour list. */
  datatype Neighbour = Neighbour(x: Vec, v: Vec)

  /** A sign: its position `P_k` and the direction `o_k` it faces. */
  datatype Sign = Sign(pos: Vec, facing: Vec)

  lemma AddZero(a: Vec)
    ensures Add(a, Zero()) == a && Add(Zero(), a) == a
  {}

  lemma ScaleScale(a: real, b: real, w: Vec)
    ensures Scale(a, Scale(b, w)) == Scale(a * b, w)
  {}

  lemma DotSymmetric(a: Vec, b: Vec)
    ensures Dot(a, b) == Dot(b, a)
  {}

  lemma NegAdd(a: Vec, b: Vec)
    ensures Neg(Add(a, b)) == Add(Neg(a), Neg(b))
  {}

  lemma NegZero()
    ensures Neg(Zero()) == Zero()
  {}

  lemma ScaleZero(c: real)
    ensures Scale(c, Zero()) == Zero()
  {}

  lemma DivIsScale(a: Vec, c: real)
    requires c != 0.0
    ensures Div(a, c) == Scale(1.0 / c, a)
  {}

  lemma ScaleByZero(a: Vec)
    ensures Scale(0.0, a) == Zero()
  {}

  lemma DotPositiveByX(a: Vec, b: Vec)
    requires a.x * b.x > 0.0 && a.y * b.y >= 0.0
    ensures Dot(a, b) > 0.0
  {}

  lemma DotPositiveByY(a: Vec, b: Vec)
    requires a.y * b.y > 0.0 && a.x * b.x >= 0.0
    ensures Dot(a, b) > 0.0
  {}

  lemma DotNonneg(a: Vec, b: Vec)
    requires a.x * b.x >= 0.0 && a.y * b.y >= 0.0
    ensures Dot(a, b) >= 0.0
  {}

  /** `v . v` is non-negative, and positive for every nonzero vector. */
  lemma DotSelfPositive(v: Vec)
    ensures Dot(v, v) >= 0.0
    ensures v != Zero() ==> Dot(v, v) > 0.0
  {
    var w := Vec(if v.x < 0.0 then -v.x else v.x, if v.y < 0.0 then -v.y else v.y);
    assert Dot(v, v) == Dot(w, w);
    MulNonneg(w.x, w.x);
    MulNonneg(w.y, w.y);
    DotNonneg(w, w);
    if w.x > 0.0 {
      MulPos(w.x, w.x);
      DotPositiveByX(w, w);
    } else if w.y > 0.0 {
      MulPos(w.y, w.y);
      DotPositiveByY(w, w);
    }
  }
}
