/**
 * The pedestrian of HTM/src/agents.py: its state (position, velocity, damped mass, the signs it
 * remembers and the exit it last headed for), its sign perception, and the per-step choice between
 * heading for an exit and following signs. The force values it reads from its own forces module
 * (not part of this model) arrive as a `ForceInputs` record.
 */
module HtmAgents {
  import opened Vectors
  import opened Geometry
  import opened Utils
  import opened Dynamics
  import opened Wrappers
  import opened HtmParameters
  import Forces

  /**
   * The four records the agent reads as `params.force`, `params.c1`, `params.h1` and
   * `params.c2h2`; the `AllForceParameters` class it imports is not defined in
   * HTM/src/parameters.py, so this is the record those reads imply.
   */
  datatype AllParameters = AllParameters(force: ForceParameters, c1: C1Parameters, h1: H1Parameters, c2h2: C2H2Parameters)

  ghost predicate ValidAll(p: AllParameters)
  {
    ValidForce(p.force) && ValidC1(p.c1) && ValidH1(p.h1) && ValidC2H2(p.c2h2)
  }

  /** The record built from the four defaults. */
  function DefaultAll(): (p: AllParameters)
    ensures ValidAll(p)
  {
    AllParameters(DefaultForce(), DefaultC1(), DefaultH1(), DefaultC2H2())
  }

  /**
   * The force values `compute_forces` obtains from its forces module: those whose arguments are
   * fixed by the agent's position, velocity and surroundings as values, and the three whose
   * arguments the step itself decides as functions of those arguments: `F_fik` of the memory,
   * `F_gi` of the chosen exit and `F_31` of `(di, bwi)`.
   */
  datatype ForceInputs = ForceInputs(
    ai: Vec, bi: Vec, ci: Vec,
    wi: Vec, ew: Vec,
    eik: Vec,
    fik: seq<Vec> -> Vec,
    gi: Polygon -> Vec,
    hi: Vec,
    f31: (real, real) -> Vec)

  // ---------------------------------------------------------------------------------------------
  // Perception

  /**
   * `get_visible_signs`' test: the sign is within `sign_vision_radius`, within half the field of
   * view of the velocity, and faces the pedestrian within half of `signFov`.
   */
  predicate Visible(g: Adapter, x: Vec, v: Vec, fp: ForceParameters, s: Sign, signFov: real)
  {
    var r := Sub(s.pos, x);
    && g.norm(r) <= fp.signVisionRadius
    && AngleBetween(g, v, r) <= fp.fovAngle / 2.0
    && AngleBetween(g, s.facing, Neg(r)) <= signFov / 2.0
  }

  /** The positions of the visible signs, in input order. */
  function VisibleSigns(g: Adapter, x: Vec, v: Vec, fp: ForceParameters, signs: seq<Sign>, signFov: real): (ps: seq<Vec>)
    ensures |ps| <= |signs|
    decreases |signs|
  {
    if |signs| == 0 then []
    else
      var last := signs[|signs| - 1];
      VisibleSigns(g, x, v, fp, signs[..|signs| - 1], signFov) + (if Visible(g, x, v, fp, last, signFov) then [last.pos] else [])
  }

  /** A position is reported exactly when some visible sign stands there. */
  lemma {:induction false} VisibleSignsExact(g: Adapter, x: Vec, v: Vec, fp: ForceParameters, signs: seq<Sign>, signFov: real, p: Vec)
    ensures p in VisibleSigns(g, x, v, fp, signs, signFov) <==>
      exists i :: 0 <= i < |signs| && signs[i].pos == p && Visible(g, x, v, fp, signs[i], signFov)
    decreases |signs|
  {
    if |signs| > 0 {
      var init := signs[..|signs| - 1];
      VisibleSignsExact(g, x, v, fp, init, signFov, p);
      if exists i :: 0 <= i < |init| && init[i].pos == p && Visible(g, x, v, fp, init[i], signFov) {
        var i :| 0 <= i < |init| && init[i].pos == p && Visible(g, x, v, fp, init[i], signFov);
        assert signs[i] == init[i];
      }
      if exists i :: 0 <= i < |signs| && signs[i].pos == p && Visible(g, x, v, fp, signs[i], signFov) {
        var i :| 0 <= i < |signs| && signs[i].pos == p && Visible(g, x, v, fp, signs[i], signFov);
        if i < |init| { assert init[i] == signs[i]; }
      }
    }
  }

  /**
   * The signs the agent sees are exactly those `F_eik` of src/forces.py pulls towards with the same
   * radius and angles: the two measure the distance from opposite ends.
   */
  lemma {:induction false} VisibleSignsAreAttracting(g: Adapter, x: Vec, v: Vec, fp: ForceParameters, signs: seq<Sign>, signFov: real)
    requires Homogeneous(g)
    ensures VisibleSigns(g, x, v, fp, signs, signFov)
      == Forces.AttractingPositions(g, x, v, signs, fp.signVisionRadius, fp.fovAngle, signFov)
    decreases |signs|
  {
    if |signs| > 0 {
      var last := signs[|signs| - 1];
      VisibleSignsAreAttracting(g, x, v, fp, signs[..|signs| - 1], signFov);
      NormSymmetric(g, last.pos, x);
      assert Neg(Sub(last.pos, x)) == Sub(x, last.pos);
      assert Visible(g, x, v, fp, last, signFov)
        <==> Forces.SignAttracts(g, x, v, last, fp.signVisionRadius, fp.fovAngle, signFov);
    }
  }

  // ---------------------------------------------------------------------------------------------
  // Memory

  const RTOL: real := 0.00001
  const ATOL: real := 0.00000001

  function Abs(a: real): real { if a < 0.0 then -a else a }

  /** `np.allclose(a, b)` with its default tolerances; not symmetric in `a` and `b`. */
  predicate Close(a: Vec, b: Vec)
  {
    Abs(a.x - b.x) <= ATOL + RTOL * Abs(b.x) && Abs(a.y - b.y) <= ATOL + RTOL * Abs(b.y)
  }

  lemma CloseReflexive(a: Vec)
    ensures Close(a, a)
  {
    assert RTOL * Abs(a.x) >= 0.0 && RTOL * Abs(a.y) >= 0.0;
  }

  /** `any(np.allclose(p, mem) for mem in mems)`. */
  predicate AnyClose(p: Vec, mems: seq<Vec>)
  {
    exists i :: 0 <= i < |mems| && Close(p, mems[i])
  }

  /** No entry is close to an earlier one, measured the way the memorizing loop measures. */
  ghost predicate DuplicateFree(mems: seq<Vec>)
  {
    forall i, j :: 0 <= i < j < |mems| ==> !Close(mems[j], mems[i])
  }

  /** The memory after considering each visible position in turn, appending it unless it is close to an entry already there. */
  function Memorize(mem: seq<Vec>, visible: seq<Vec>): (r: seq<Vec>)
    ensures |visible| == 0 ==> r == mem
    decreases |visible|
  {
    if |visible| == 0 then mem
    else
      var m := Memorize(mem, visible[..|visible| - 1]);
      var p := visible[|visible| - 1];
      if AnyClose(p, m) then m else m + [p]
  }

  /** The memory only grows: the old memory is a prefix, and every new entry is a visible position. */
  lemma {:induction false} MemorizeExtends(mem: seq<Vec>, visible: seq<Vec>)
    ensures |mem| <= |Memorize(mem, visible)| <= |mem| + |visible|
    ensures Memorize(mem, visible)[..|mem|] == mem
    ensures forall i :: |mem| <= i < |Memorize(mem, visible)| ==> Memorize(mem, visible)[i] in visible
    decreases |visible|
  {
    if |visible| > 0 {
      var init := visible[..|visible| - 1];
      MemorizeExtends(mem, init);
      var m := Memorize(mem, init);
      assert forall q :: q in init ==> q in visible;
      if !AnyClose(visible[|visible| - 1], m) {
        assert (m + [visible[|visible| - 1]])[..|mem|] == m[..|mem|];
      }
    }
  }

  /** Afterwards every visible position is close to some remembered entry. */
  lemma {:induction false} MemorizeCovers(mem: seq<Vec>, visible: seq<Vec>)
    ensures forall p :: p in visible ==> AnyClose(p, Memorize(mem, visible))
    decreases |visible|
  {
    if |visible| > 0 {
      var init := visible[..|visible| - 1];
      var p := visible[|visible| - 1];
      MemorizeCovers(mem, init);
      var m := Memorize(mem, init);
      var r := Memorize(mem, visible);
      assert m == r[..|m|] by { MemorizeExtends(mem, visible); if !AnyClose(p, m) { assert r == m + [p]; } }
      forall q | q in visible ensures AnyClose(q, r) {
        if q in init {
          var i :| 0 <= i < |m| && Close(q, m[i]);
          assert r[i] == m[i];
        } else {
          assert q == p;
          if !AnyClose(p, m) {
            CloseReflexive(p);
            assert r[|m|] == p;
          }
        }
      }
    }
  }

  /** A duplicate-free memory stays duplicate-free. */
  lemma {:induction false} MemorizeKeepsDuplicateFree(mem: seq<Vec>, visible: seq<Vec>)
    requires DuplicateFree(mem)
    ensures DuplicateFree(Memorize(mem, visible))
    decreases |visible|
  {
    if |visible| > 0 {
      var init := visible[..|visible| - 1];
      var p := visible[|visible| - 1];
      MemorizeKeepsDuplicateFree(mem, init);
      var m := Memorize(mem, init);
      if !AnyClose(p, m) {
        var r := m + [p];
        forall i, j | 0 <= i < j < |r| ensures !Close(r[j], r[i]) {
          if j == |m| {
            assert r[i] == m[i];
          }
        }
      }
    }
  }

  // ---------------------------------------------------------------------------------------------
  // Exit or signs

  /** The distance from `x` to each exit's centroid, in list order. */
  function ExitDistances(g: Adapter, x: Vec, exits: seq<Polygon>): (ds: seq<real>)
    ensures |ds| == |exits|
  {
    seq(|exits|, i requires 0 <= i < |exits| => g.norm(Sub(x, g.centroid(exits[i]))))
  }

  /** The part of a step that depends on the mode: the exit chosen, the memory, and the three guidance forces. */
  datatype Guidance = Guidance(lastExit: nat, mem: seq<Vec>, gi: Vec, eik: Vec, fik: Vec)

  /** The `F_eik` facing cone `get_visible_signs` is called with by default. */
  function SignFov(): real { PI * 0.5 }

  /**
   * The mode logic of `compute_forces`: the exit-domain test reads the distance to the exit held
   * from the previous step, then the nearest exit is chosen; near an exit only `F_gi` acts, towards
   * the exit just chosen; otherwise newly visible signs are remembered and either `F_eik` (some sign
   * visible) or `F_fik` over the memory (none visible) acts.
   */
  function Guide(g: Adapter, fp: ForceParameters, x: Vec, v: Vec, mem: seq<Vec>, lastExit: nat,
                 signs: seq<Sign>, exits: seq<Polygon>, dists: seq<real>, inputs: ForceInputs): (r: Guidance)
    requires |dists| == |exits| && lastExit < |exits|
    ensures IsFirstArgMin(dists, r.lastExit)
  {
    var k := ArgMin(dists);
    if dists[lastExit] <= fp.exitDomainRadius then
      Guidance(k, mem, inputs.gi(exits[k]), Zero(), Zero())
    else
      var visible := VisibleSigns(g, x, v, fp, signs, SignFov());
      var mem' := Memorize(mem, visible);
      if |visible| > 0 then Guidance(k, mem', Zero(), inputs.eik, Zero())
      else Guidance(k, mem', Zero(), Zero(), inputs.fik(mem'))
  }

  /** Exit mode: only `F_gi` acts, towards the newly chosen exit, and the memory is untouched. */
  lemma GuideExitMode(g: Adapter, fp: ForceParameters, x: Vec, v: Vec, mem: seq<Vec>, lastExit: nat,
                      signs: seq<Sign>, exits: seq<Polygon>, dists: seq<real>, inputs: ForceInputs)
    requires |dists| == |exits| && lastExit < |exits|
    requires dists[lastExit] <= fp.exitDomainRadius
    ensures var r := Guide(g, fp, x, v, mem, lastExit, signs, exits, dists, inputs);
      r.mem == mem && r.eik == Zero() && r.fik == Zero() && r.gi == inputs.gi(exits[r.lastExit])
  {}

  /**
   * Sign mode: `F_gi` is zero, the visible signs are remembered, and exactly one sign force is
   * taken: `F_eik` when some sign is visible, otherwise `F_fik` over an unchanged memory.
   */
  lemma GuideSignMode(g: Adapter, fp: ForceParameters, x: Vec, v: Vec, mem: seq<Vec>, lastExit: nat,
                      signs: seq<Sign>, exits: seq<Polygon>, dists: seq<real>, inputs: ForceInputs)
    requires |dists| == |exits| && lastExit < |exits|
    requires dists[lastExit] > fp.exitDomainRadius
    ensures var r := Guide(g, fp, x, v, mem, lastExit, signs, exits, dists, inputs);
      var visible := VisibleSigns(g, x, v, fp, signs, SignFov());
      && r.gi == Zero()
      && r.mem == Memorize(mem, visible)
      && (|visible| > 0 ==> r.eik == inputs.eik && r.fik == Zero())
      && (|visible| == 0 ==> r.eik == Zero() && r.mem == mem && r.fik == inputs.fik(mem))
  {}

  /** In every mode at least one of the two sign forces is the zero vector. */
  lemma GuideNeverBothSignForces(g: Adapter, fp: ForceParameters, x: Vec, v: Vec, mem: seq<Vec>, lastExit: nat,
                                 signs: seq<Sign>, exits: seq<Polygon>, dists: seq<real>, inputs: ForceInputs)
    requires |dists| == |exits| && lastExit < |exits|
    ensures var r := Guide(g, fp, x, v, mem, lastExit, signs, exits, dists, inputs);
      r.eik == Zero() || r.fik == Zero()
  {}

  /**
   * The domain test lags one step: an agent outside the domain of the exit it held, but inside the
   * domain of the nearest exit, retargets that nearest exit (a different one) and still follows
   * signs this step, with no `F_gi`.
   */
  lemma GuideExitTestLags(g: Adapter, fp: ForceParameters, x: Vec, v: Vec, mem: seq<Vec>, lastExit: nat,
                          signs: seq<Sign>, exits: seq<Polygon>, dists: seq<real>, inputs: ForceInputs)
    requires |dists| == |exits| && lastExit < |exits|
    requires dists[lastExit] > fp.exitDomainRadius
    requires dists[ArgMin(dists)] <= fp.exitDomainRadius
    ensures var r := Guide(g, fp, x, v, mem, lastExit, signs, exits, dists, inputs);
      r.lastExit == ArgMin(dists) && r.lastExit != lastExit && r.gi == Zero()
  {}

  /**
   * One instance of the lag: an agent that held exit 0, far away, and is now within the
   * domain radius of exit 1 switches its target to exit 1 but still follows signs this step.
   */
  lemma ExitTestUsesPreviousExit(g: Adapter, fp: ForceParameters, x: Vec, v: Vec, mem: seq<Vec>,
                                 signs: seq<Sign>, exits: seq<Polygon>, inputs: ForceInputs)
    requires fp.exitDomainRadius == 4.0 && |exits| == 2
    ensures var r := Guide(g, fp, x, v, mem, 0, signs, exits, [10.0, 1.0], inputs);
      r.lastExit == 1 && r.gi == Zero()
  {
    assert ArgMin([10.0, 1.0]) == 1;
  }

  // ---------------------------------------------------------------------------------------------
  // The agent

  class Agent {
    var id: int
    var x: Vec
    var v: Vec
    var m: real
    var nu: real
    var acc: Vec
    var memSigns: seq<Vec>
    var lastExitSeen: nat
    var params: AllParameters

    /**
     * A new agent at rest in memory: no remembered signs, heading for exit 0; mass and damping
     * default to 80.0 and 0.5, the parameters to the defaults.
     */
    constructor(agentId: int, position: Vec, velocity: Vec, mass: real := 80.0, damping: real := 0.5,
                params: Option<AllParameters> := None)
      ensures id == agentId && x == position && v == velocity && m == mass && nu == damping
      ensures acc == Zero() && memSigns == [] && lastExitSeen == 0
      ensures this.params == (if params.Some? then params.value else DefaultAll())
    {
      id := agentId;
      x := position;
      v := velocity;
      m := mass;
      nu := damping;
      acc := Zero();
      memSigns := [];
      lastExitSeen := 0;
      this.params := if params.Some? then params.value else DefaultAll();
    }

    /** `update(dt)`: one semi-implicit Euler step; nothing but `x` and `v` changes. */
    method Update(dt: real)
      modifies this
      ensures (x, v) == EulerStep(old(x), old(v), old(acc), dt)
      ensures acc == old(acc) && memSigns == old(memSigns) && lastExitSeen == old(lastExitSeen)
      ensures id == old(id) && m == old(m) && nu == old(nu) && params == old(params)
    {
      v := Add(v, Scale(dt, acc));
      x := Add(x, Scale(dt, v));
    }

    /** `get_visible_signs`: the positions of the visible signs, in input order. */
    method GetVisibleSigns(g: Adapter, signs: seq<Sign>, signFovAngle: real) returns (visibleNow: seq<Vec>)
      ensures visibleNow == VisibleSigns(g, x, v, params.force, signs, signFovAngle)
    {
      visibleNow := [];
      for i := 0 to |signs|
        invariant visibleNow == VisibleSigns(g, x, v, params.force, signs[..i], signFovAngle)
      {
        assert signs[..i + 1][..i] == signs[..i];
        var r := Sub(signs[i].pos, x);
        var dist := g.norm(r);
        if dist <= params.force.signVisionRadius {
          var angleAgent := AngleBetween(g, v, r);
          var signToAgent := Neg(r);
          var angleSign := AngleBetween(g, signs[i].facing, signToAgent);
          if angleAgent <= params.force.fovAngle / 2.0 && angleSign <= signFovAngle / 2.0 {
            visibleNow := visibleNow + [signs[i].pos];
          }
        }
      }
      assert signs[..|signs|] == signs;
    }

    /**
     * `compute_forces`: picks the mode and the exit, updates the memory, and sets `acc` from the
     * nine force terms, with `di` the clearance to the nearest wall boundary and `bwi = f_wi . e_w`.
     */
    method ComputeForces(g: Adapter, inputs: ForceInputs, polygons: seq<Polygon>, signs: seq<Sign>, exits: seq<Polygon>)
      modifies this
      requires m != 0.0 && |exits| > 0 && lastExitSeen < |exits|
      ensures x == old(x) && v == old(v) && id == old(id) && m == old(m) && nu == old(nu) && params == old(params)
      ensures var r := Guide(g, old(params).force, old(x), old(v), old(memSigns), old(lastExitSeen),
                             signs, exits, ExitDistances(g, old(x), exits), inputs);
        && lastExitSeen == r.lastExit && memSigns == r.mem
        && acc == Acceleration(
             TotalForce(inputs.ai, inputs.bi, inputs.ci, inputs.wi, r.eik, r.fik, r.gi, inputs.hi,
                        inputs.f31(WallClearance(g, polygons, x), Dot(inputs.wi, inputs.ew))),
             nu, v, m)
    {
      var fp := params.force;
      var xi := x;
      var exitCenters := seq(|exits|, i requires 0 <= i < |exits| => g.centroid(exits[i]));
      var exitDistances := seq(|exits|, i requires 0 <= i < |exits| => g.norm(Sub(xi, exitCenters[i])));
      assert exitDistances == ExitDistances(g, x, exits);
      var minExitDist := exitDistances[lastExitSeen];
      ghost var r := Guide(g, fp, x, v, memSigns, lastExitSeen, signs, exits, exitDistances, inputs);
      lastExitSeen := ArgMin(exitDistances);
      var fGi, fEik, fFik;
      if minExitDist <= fp.exitDomainRadius {
        fGi := inputs.gi(exits[lastExitSeen]);
        fEik, fFik := Zero(), Zero();
      } else {
        var visibleNow := GetVisibleSigns(g, signs, PI * 0.5);
        fGi := Zero();
        ghost var mem0 := memSigns;
        for i := 0 to |visibleNow|
          invariant memSigns == Memorize(mem0, visibleNow[..i])
          invariant x == old(x) && v == old(v) && id == old(id) && m == old(m) && nu == old(nu)
          invariant params == old(params) && lastExitSeen == r.lastExit
        {
          assert visibleNow[..i + 1][..i] == visibleNow[..i];
          var pk := visibleNow[i];
          if !AnyClose(pk, memSigns) {
            memSigns := memSigns + [pk];
          }
        }
        assert visibleNow[..|visibleNow|] == visibleNow;
        if |visibleNow| > 0 {
          fEik, fFik := inputs.eik, Zero();
        } else {
          fEik, fFik := Zero(), inputs.fik(memSigns);
        }
      }
      var fHi := inputs.hi;
      var di := WallClearance(g, polygons, x);
      var bwi := Dot(inputs.wi, inputs.ew);
      var f31 := inputs.f31(di, bwi);
      var total := TotalForce(inputs.ai, inputs.bi, inputs.ci, inputs.wi, fEik, fFik, fGi, fHi, f31);
      acc := Acceleration(total, nu, v, m);
    }
  }
}
