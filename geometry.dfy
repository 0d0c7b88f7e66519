/**
 * The geometry and numerics the force model consumes but does not define: numpy's vector norm,
 * arccos, exp and cos, and the shapely queries on segments, polygons and rings. Each is a field
 * of an `Adapter` value supplied by the caller; `Sound` states the few properties the rest of the
 * model relies on.
 */
module Geometry {
  import opened Vectors

  /** The double that `np.pi` stands for. */
  const PI: real := 3.141592653589793

  /** A two-point `LineString`. */
  datatype Segment = Segment(start: Vec, end: Vec)

  /** A shapely `Polygon`, reduced to the coordinates of its exterior ring and of its holes. */
  datatype Polygon = Polygon(exterior: seq<Vec>, interiors: seq<seq<Vec>>)

  datatype Adapter = Adapter(
    norm: Vec -> real,                      // np.linalg.norm
    arccos: real -> real,                   // np.arccos
    exp: real -> real,                      // np.exp
    cos: real -> real,                      // np.cos
    segmentDistance: (Segment, Vec) -> real, // segment.distance(Point(p))
    closestPoint: (Segment, Vec) -> Vec,     // segment.interpolate(segment.project(Point(p)))
    centroid: Polygon -> Vec,                // polygon.centroid
    ringDistance: (seq<Vec>, Vec) -> real,   // polygon.exterior.distance(Point(p))
    ringCentroid: seq<Vec> -> Vec)           // polygon.exterior.centroid

  /** What the model assumes of the foreign functions. */
  ghost predicate Sound(g: Adapter)
  {
    && (forall v :: g.norm(v) >= 0.0)
    && (forall v :: g.norm(v) == 0.0 <==> v == Zero())
    && (forall c :: -1.0 <= c <= 1.0 ==> 0.0 <= g.arccos(c) <= PI)
    && (forall s, p :: g.segmentDistance(s, p) >= 0.0)
  }

  /** What the exp-cos kernels of the drafts assume of `np.exp` and `np.cos`. */
  ghost predicate SoundKernels(g: Adapter)
  {
    && (forall t :: g.exp(t) > 0.0)
    && (forall t :: -1.0 <= g.cos(t) <= 1.0)
  }

  lemma NormFacts(g: Adapter, v: Vec)
    requires Sound(g)
    ensures g.norm(v) >= 0.0
    ensures g.norm(v) > 0.0 <==> v != Zero()
  {}

  /** `k` is where the first smallest entry of `ds` sits, which is what `np.argmin` returns. */
  ghost predicate IsFirstArgMin(ds: seq<real>, k: int)
  {
    && 0 <= k < |ds|
    && (forall j :: 0 <= j < |ds| ==> ds[k] <= ds[j])
    && (forall j :: 0 <= j < k ==> ds[k] < ds[j])
  }

  /**
   * Index of the first smallest entry, scanning left to right and replacing the candidate only on a
   * strictly smaller value, as `np.argmin` and the `if dist < min_dist` loops of the drafts do.
   */
  function ArgMin(ds: seq<real>): (k: nat)
    requires |ds| > 0
    ensures IsFirstArgMin(ds, k)
    decreases |ds|
  {
    if |ds| == 1 then 0
    else
      var k := ArgMin(ds[..|ds| - 1]);
      assert forall j :: 0 <= j < |ds| - 1 ==> ds[..|ds| - 1][j] == ds[j];
      if ds[|ds| - 1] < ds[k] then |ds| - 1 else k
  }

  /** Distances from `p` to each segment, in list order. */
  function SegmentDistances(g: Adapter, segs: seq<Segment>, p: Vec): (ds: seq<real>)
    ensures |ds| == |segs|
  {
    seq(|segs|, i requires 0 <= i < |segs| => g.segmentDistance(segs[i], p))
  }

  /**
   * The nearest-segment scan both nearest-wall drafts of `F_wi` run: `min_dist` starts at infinity
   * (`found == false`) and a segment replaces the candidate only when strictly closer.
   */
  method NearestSegment(g: Adapter, segs: seq<Segment>, p: Vec) returns (found: bool, k: nat, minDist: real)
    ensures found <==> |segs| > 0
    ensures found ==> k == ArgMin(SegmentDistances(g, segs, p))
    ensures found ==> minDist == g.segmentDistance(segs[k], p)
  {
    found, k, minDist := false, 0, 0.0;
    ghost var ds := SegmentDistances(g, segs, p);
    var i := 0;
    while i < |segs|
      invariant 0 <= i <= |segs|
      invariant found <==> i > 0
      invariant found ==> k == ArgMin(ds[..i]) && k < i && minDist == ds[k]
    {
      var dist := g.segmentDistance(segs[i], p);
      assert ds[..i + 1][..i] == ds[..i];
      if !found || dist < minDist {
        found, k, minDist := true, i, dist;
      }
      i := i + 1;
    }
    assert ds[..|segs|] == ds;
  }

  /**
   * `di`: the distance to the nearest wall boundary, `min(wall.exterior.distance(p) ...)`, and 1.0
   * when there are no walls.
   */
  function WallClearance(g: Adapter, walls: seq<Polygon>, p: Vec): (di: real)
    ensures |walls| == 0 ==> di == 1.0
    ensures |walls| > 0 ==> (exists j :: 0 <= j < |walls| && di == g.ringDistance(walls[j].exterior, p))
    ensures forall j :: 0 <= j < |walls| ==> di <= g.ringDistance(walls[j].exterior, p)
  {
    if |walls| == 0 then 1.0
    else
      var ds := seq(|walls|, j requires 0 <= j < |walls| => g.ringDistance(walls[j].exterior, p));
      var k := ArgMin(ds);
      assert forall j :: 0 <= j < |walls| ==> ds[j] == g.ringDistance(walls[j].exterior, p);
      ds[k]
  }
}
