/**
 * The vector and polygon helpers of src/utils.py. ht_model.py and model.py carry identical copies
 * of `normalize` and `angle_between` (and ht_model.py of `extract_segments`), which use these.
 */
module Utils {
  import opened Vectors
  import opened Geometry

  /** The scaling law of the Euclidean norm, used for the unit-length facts below. */
  ghost predicate Homogeneous(g: Adapter)
  {
    forall c: real, v: Vec {:trigger g.norm(Scale(c, v))} ::
      g.norm(Scale(c, v)) == (if c < 0.0 then -c else c) * g.norm(v)
  }

  /** The distance between two points does not depend on the direction it is measured in. */
  lemma NormSymmetric(g: Adapter, a: Vec, b: Vec)
    requires Homogeneous(g)
    ensures g.norm(Sub(a, b)) == g.norm(Sub(b, a))
  {
    assert Sub(b, a) == Scale(-1.0, Sub(a, b));
    assert g.norm(Scale(-1.0, Sub(a, b))) == 1.0 * g.norm(Sub(a, b));
  }

  /** `normalize`: `v / ||v||`, and the zero vector when the norm is not positive. */
  function Normalize(g: Adapter, v: Vec): Vec
  {
    var n := g.norm(v);
    if n > 0.0 then Div(v, n) else Zero()
  }

  /** A vector of positive norm normalizes to its multiple by the inverse norm. */
  lemma NormalizeIsScale(g: Adapter, v: Vec)
    requires g.norm(v) > 0.0
    ensures Normalize(g, v) == Scale(1.0 / g.norm(v), v)
  {
    DivIsScale(v, g.norm(v));
  }

  /** The zero vector normalizes to itself; any other vector to a positive multiple of itself. */
  lemma NormalizeCases(g: Adapter, v: Vec)
    requires Sound(g)
    ensures v == Zero() ==> Normalize(g, v) == Zero()
    ensures v != Zero() ==> exists c: real :: c > 0.0 && Normalize(g, v) == Scale(c, v)
  {
    if v != Zero() {
      var n := g.norm(v);
      assert n > 0.0;
      assert 1.0 / n > 0.0;
      NormalizeIsScale(g, v);
    }
  }

  /** A nonzero vector normalizes to unit length, and normalizing twice changes nothing. */
  lemma {:induction false} NormalizeUnit(g: Adapter, v: Vec)
    requires Sound(g) && Homogeneous(g)
    requires v != Zero()
    ensures g.norm(Normalize(g, v)) == 1.0
    ensures Normalize(g, Normalize(g, v)) == Normalize(g, v)
  {
    var n := g.norm(v);
    assert n > 0.0;
    var c := 1.0 / n;
    assert c > 0.0;
    NormalizeIsScale(g, v);
    var u := Scale(c, v);
    assert g.norm(u) == c * n;
    assert c * n == 1.0;
    assert Scale(1.0 / 1.0, u) == u;
  }

  /** `np.clip(c, lo, hi)`. */
  function Clip(c: real, lo: real, hi: real): (r: real)
    requires lo <= hi
    ensures lo <= r <= hi
    ensures lo <= c <= hi ==> r == c
    ensures c < lo ==> r == lo
    ensures c > hi ==> r == hi
  {
    if c < lo then lo else if c > hi then hi else c
  }

  /**
   * `angle_between`: 0 when either vector has zero norm, otherwise the arccos of the cosine of the
   * angle between them, clipped to [-1, 1] first.
   */
  function AngleBetween(g: Adapter, v1: Vec, v2: Vec): (a: real)
    ensures g.norm(v1) == 0.0 || g.norm(v2) == 0.0 ==> a == 0.0
    ensures g.norm(v1) != 0.0 && g.norm(v2) != 0.0 ==>
      exists c: real :: -1.0 <= c <= 1.0 && a == g.arccos(c)
  {
    if g.norm(v1) == 0.0 || g.norm(v2) == 0.0 then 0.0
    else
      var c := Clip(Dot(Normalize(g, v1), Normalize(g, v2)), -1.0, 1.0);
      g.arccos(c)
  }

  /** Under a sound adapter the angle is 0 against a zero vector, and always lies in [0, PI]. */
  lemma AngleBetweenRange(g: Adapter, v1: Vec, v2: Vec)
    requires Sound(g)
    ensures v1 == Zero() || v2 == Zero() ==> AngleBetween(g, v1, v2) == 0.0
    ensures 0.0 <= AngleBetween(g, v1, v2) <= PI
  {
    if g.norm(v1) != 0.0 && g.norm(v2) != 0.0 {
      var c := Clip(Dot(Normalize(g, v1), Normalize(g, v2)), -1.0, 1.0);
      assert AngleBetween(g, v1, v2) == g.arccos(c);
    }
  }

  /** The angle does not depend on the order of its arguments. */
  lemma AngleBetweenSymmetric(g: Adapter, v1: Vec, v2: Vec)
    ensures AngleBetween(g, v1, v2) == AngleBetween(g, v2, v1)
  {
    DotSymmetric(Normalize(g, v1), Normalize(g, v2));
  }

  /** `extract_segments`: the edges `coords[i] -> coords[i + 1]` of the exterior ring. */
  function ExtractSegments(p: Polygon): (segs: seq<Segment>)
    ensures |p.exterior| == 0 ==> |segs| == 0
    ensures |p.exterior| > 0 ==> |segs| == |p.exterior| - 1
    ensures forall i :: 0 <= i < |segs| ==>
      segs[i].start == p.exterior[i] && segs[i].end == p.exterior[i + 1]
  {
    var c := p.exterior;
    if |c| == 0 then [] else seq(|c| - 1, i requires 0 <= i < |c| - 1 => Segment(c[i], c[i + 1]))
  }

  /** Consecutive edges share an endpoint. */
  lemma SegmentsChain(p: Polygon, i: int)
    requires 0 <= i < |ExtractSegments(p)| - 1
    ensures ExtractSegments(p)[i].end == ExtractSegments(p)[i + 1].start
  {}

  /** The edge list loses nothing: the ring is the start points followed by the last end point. */
  lemma {:induction false} SegmentsRebuildRing(p: Polygon)
    requires |p.exterior| >= 2
    ensures var segs := ExtractSegments(p);
      seq(|segs|, i requires 0 <= i < |segs| => segs[i].start) + [segs[|segs| - 1].end] == p.exterior
  {
    var segs := ExtractSegments(p);
    var r := seq(|segs|, i requires 0 <= i < |segs| => segs[i].start) + [segs[|segs| - 1].end];
    assert |r| == |p.exterior|;
    forall i | 0 <= i < |r| ensures r[i] == p.exterior[i] {
      if i < |segs| { assert r[i] == segs[i].start; } else { assert r[i] == segs[i - 1].end; }
    }
  }

  /**
   * `extract_walls_from_geometry`: one polygon per boundary ring, the exterior first, then one per
   * hole in order, each with no holes of its own.
   */
  function ExtractWalls(p: Polygon): (walls: seq<Polygon>)
    ensures |walls| == 1 + |p.interiors|
    ensures walls[0] == Polygon(p.exterior, [])
    ensures forall i :: 0 <= i < |p.interiors| ==> walls[i + 1] == Polygon(p.interiors[i], [])
  {
    [Polygon(p.exterior, [])] +
      seq(|p.interiors|, i requires 0 <= i < |p.interiors| => Polygon(p.interiors[i], []))
  }

  /** Every wall has no holes, so the walls of a wall are that wall alone. */
  lemma ExtractWallsOfWall(p: Polygon, i: int)
    requires 0 <= i < |ExtractWalls(p)|
    ensures ExtractWalls(ExtractWalls(p)[i]) == [ExtractWalls(p)[i]]
  {}
}
