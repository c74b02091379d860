/**
 * The confidence zone of an agent (src/confidenceZone/ConfidenceZone.java):
 * a regular octagon around the agent's position that update() pushes out
 * towards agents to include and pulls in away from agents to exclude.
 * The static switch LOCK_CONFIDENCE_ZONE is a parameter of update.
 */
module ConfidenceZones {
  import opened Wrappers
  import opened Numeric
  import opened Geometry
  import opened Polygons

  const NumPolygonSides: nat := 8
  const MinRadius: int := 50
  const PolygonSideLength: int := 250

  /** The weight update hands to the polygon: negated for an agent to exclude. */
  function ZoneWeight(weight: real, toInclude: bool): (r: real)
    ensures r == weight || r == -weight
    ensures r == weight <==> toInclude || weight == 0.0
  {
    if toInclude then weight else -weight
  }

  /** The vertices after update(position, weight, include) with the lock switch as given. */
  function Updated(ps: seq<Point>, centroid: Point, minRadius: int, position: Point, weight: real, toInclude: bool,
                   locked: bool, angle: (Point, Point, Point) -> Double, normalize: Point -> Point): (r: seq<Point>)
    ensures |r| == |ps|
    ensures locked ==> r == ps
  {
    if locked then ps
    else Inflated(ps, centroid, minRadius, position, ZoneWeight(weight, toInclude), angle, normalize)
  }

  /** Any two positive weights have the same effect. */
  lemma UpdateBySignOnly(ps: seq<Point>, centroid: Point, minRadius: int, position: Point, w1: real, w2: real,
                         toInclude: bool, locked: bool, angle: (Point, Point, Point) -> Double, normalize: Point -> Point)
    requires w1 > 0.0 && w2 > 0.0
    ensures Updated(ps, centroid, minRadius, position, w1, toInclude, locked, angle, normalize) ==
            Updated(ps, centroid, minRadius, position, w2, toInclude, locked, angle, normalize)
  {
    InflateBySignOnly(ps, centroid, minRadius, position, ZoneWeight(w1, toInclude), ZoneWeight(w2, toInclude), angle, normalize);
  }

  /**
   * With a positive weight, a vertex that moves steps one unit along
   * centroid→position when the agent is included and one unit back when excluded.
   */
  lemma UpdateDirection(ps: seq<Point>, centroid: Point, minRadius: int, position: Point, weight: real,
                        toInclude: bool, angle: (Point, Point, Point) -> Double, normalize: Point -> Point, i: int)
    requires weight > 0.0 && 0 <= i < |ps|
    requires Updated(ps, centroid, minRadius, position, weight, toInclude, false, angle, normalize)[i] != ps[i]
    ensures Updated(ps, centroid, minRadius, position, weight, toInclude, false, angle, normalize)[i] ==
            Step(ps[i], normalize(Minus(position, centroid)), if toInclude then 1.0 else -1.0)
  {
    InflateMovesNarrowVerticesOnly(ps, centroid, minRadius, position, ZoneWeight(weight, toInclude), angle, normalize, i);
  }

  /** No update brings a vertex closer than the minimum radius. */
  lemma UpdateKeepsMinRadius(ps: seq<Point>, centroid: Point, minRadius: int, position: Point, weight: real,
                             toInclude: bool, locked: bool, angle: (Point, Point, Point) -> Double, normalize: Point -> Point)
    requires AllAtLeast(ps, centroid, minRadius)
    ensures AllAtLeast(Updated(ps, centroid, minRadius, position, weight, toInclude, locked, angle, normalize), centroid, minRadius)
  {
    if !locked {
      InflateKeepsMinRadius(ps, centroid, minRadius, position, ZoneWeight(weight, toInclude), angle, normalize);
    }
  }

  /** A new zone: eight vertices 250 from the position, so beyond the minimum radius of 50. */
  lemma NewZoneRespectsMinRadius(position: Point, cos: real -> real, sin: real -> real)
    requires UnitCircle(cos, sin)
    ensures AllAtLeast(RegularVertices(position, NumPolygonSides, PolygonSideLength, cos, sin), position, MinRadius)
  {
    var ps := RegularVertices(position, NumPolygonSides, PolygonSideLength, cos, sin);
    forall i | 0 <= i < |ps|
      ensures AtLeast(SqDist(ps[i], position), MinRadius)
    {
      RegularVerticesRadius(position, NumPolygonSides, PolygonSideLength, cos, sin, i);
    }
  }

  /** One call update(position, weight, include), as a value. */
  datatype ZoneUpdate = ZoneUpdate(position: Point, weight: real, inward: bool)

  /** The zone's vertices after each update in turn. */
  function ApplyUpdates(ps: seq<Point>, centroid: Point, minRadius: int, us: seq<ZoneUpdate>, locked: bool,
                        angle: (Point, Point, Point) -> Double, normalize: Point -> Point): (r: seq<Point>)
    ensures |r| == |ps|
    decreases |us|
  {
    if |us| == 0 then ps
    else
      var u := us[|us| - 1];
      Updated(ApplyUpdates(ps, centroid, minRadius, us[..|us| - 1], locked, angle, normalize),
              centroid, minRadius, u.position, u.weight, u.inward, locked, angle, normalize)
  }

  /** A run of updates followed by one more is that update applied to the run's result. */
  lemma ApplyUpdatesSnoc(ps: seq<Point>, centroid: Point, minRadius: int, us: seq<ZoneUpdate>, u: ZoneUpdate, locked: bool,
                         angle: (Point, Point, Point) -> Double, normalize: Point -> Point)
    ensures ApplyUpdates(ps, centroid, minRadius, us + [u], locked, angle, normalize) ==
            Updated(ApplyUpdates(ps, centroid, minRadius, us, locked, angle, normalize),
                    centroid, minRadius, u.position, u.weight, u.inward, locked, angle, normalize)
  {
    assert (us + [u])[..|us|] == us;
  }

  /** The minimum radius survives any run of updates, and a locked zone does not change. */
  lemma {:induction false} ApplyUpdatesKeepsMinRadius(ps: seq<Point>, centroid: Point, minRadius: int, us: seq<ZoneUpdate>,
                                                      locked: bool, angle: (Point, Point, Point) -> Double,
                                                      normalize: Point -> Point)
    requires AllAtLeast(ps, centroid, minRadius)
    ensures AllAtLeast(ApplyUpdates(ps, centroid, minRadius, us, locked, angle, normalize), centroid, minRadius)
    ensures locked ==> ApplyUpdates(ps, centroid, minRadius, us, locked, angle, normalize) == ps
    decreases |us|
  {
    if |us| > 0 {
      var u := us[|us| - 1];
      ApplyUpdatesKeepsMinRadius(ps, centroid, minRadius, us[..|us| - 1], locked, angle, normalize);
      UpdateKeepsMinRadius(ApplyUpdates(ps, centroid, minRadius, us[..|us| - 1], locked, angle, normalize),
                           centroid, minRadius, u.position, u.weight, u.inward, locked, angle, normalize);
    }
  }

  /**
   * minDistance: the least distance from p to a vertex; `dist` is
   * Vector2D.distance. An empty polygon leaves the stream nothing to return.
   */
  function NearestVertexDistance(ps: seq<Point>, p: Point, dist: (Point, Point) -> real): (r: Result<real>)
    ensures r.Err? <==> |ps| == 0
    ensures r.Ok? ==> forall i :: 0 <= i < |ps| ==> r.value <= dist(p, ps[i])
    ensures r.Ok? ==> exists i :: 0 <= i < |ps| && r.value == dist(p, ps[i])
  {
    if |ps| == 0 then Err("NoSuchElementException")
    else if |ps| == 1 then Ok(dist(p, ps[0]))
    else
      var init := ps[..|ps| - 1];
      var m := NearestVertexDistance(init, p, dist).value;
      var d := dist(p, ps[|ps| - 1]);
      assert forall i :: 0 <= i < |init| ==> init[i] == ps[i];
      Ok(if d < m then d else m)
  }

  class ConfidenceZone {
    const polygon: Polygon

    /** A regular octagon of side length 250 and minimum radius 50 centred at position. */
    constructor (position: Point, cos: real -> real, sin: real -> real)
      ensures fresh(polygon)
      ensures polygon.centroid == position && polygon.minRadius == MinRadius
      ensures polygon.points == RegularVertices(position, NumPolygonSides, PolygonSideLength, cos, sin)
    {
      polygon := new Polygon.Regular(position, MinRadius, NumPolygonSides, PolygonSideLength, cos, sin);
    }

    method Translate(dx: real, dy: real)
      modifies polygon`points, polygon`centroid
      ensures polygon.centroid == Shift(old(polygon.centroid), dx, dy)
      ensures polygon.points == Translated(old(polygon.points), dx, dy)
    {
      polygon.Translate(dx, dy);
    }

    /** getArea(): the polygon's area(), so the closing edge is summed only on a closed outline. */
    method Area() returns (r: real)
      ensures r == AreaAsWritten(polygon.points)
      ensures |polygon.points| > 0 && polygon.points[|polygon.points| - 1] == polygon.points[0] ==>
              r == AreaOf(polygon.points)
    {
      r := polygon.Area();
    }

    /** update(agentPosition, weight, include); `locked` is LOCK_CONFIDENCE_ZONE. */
    method Update(position: Point, weight: real, toInclude: bool, locked: bool,
                  angle: (Point, Point, Point) -> Double, normalize: Point -> Point)
      modifies polygon`points
      ensures polygon.points == Updated(old(polygon.points), polygon.centroid, polygon.minRadius, position, weight,
                                        toInclude, locked, angle, normalize)
    {
      if locked {
        return;
      }
      var w := if toInclude then weight else -weight;
      polygon.InflateTowardsPoint(position, w, angle, normalize);
    }

    function MinDistance(p: Point, dist: (Point, Point) -> real): Result<real>
      reads polygon
    {
      NearestVertexDistance(polygon.points, p, dist)
    }

    method Contains(x: real, y: real) returns (r: Result<bool>)
      ensures r == ContainsOf(polygon.points, x, y)
    {
      r := polygon.Contains(x, y);
    }
  }
}
