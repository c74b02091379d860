/**
 * The polygon a confidence zone is made of (src/confidenceZone/geometry/Polygon.java):
 * a vertex list, a centroid and a minimum radius no moved vertex may come
 * closer than. Trigonometry (Math.cos, Math.sin, javafx Point2D.angle and
 * normalize) is passed in as functions; distances are compared squared.
 */
module Polygons {
  import opened Wrappers
  import opened Numeric
  import opened Geometry

  /** Math.PI */
  const PI: real := 3.141592653589793
  /** A vertex seen at this angle (degrees) or wider from the target does not move. */
  const MaxMoveAngle: real := 60.0

  /** cos and sin lie on the unit circle. */
  ghost predicate UnitCircle(cos: real -> real, sin: real -> real)
  {
    forall t :: cos(t) * cos(t) + sin(t) * sin(t) == 1.0
  }

  /* ---------- getRegularPolygon ---------- */

  /** The k-th angle getRegularPolygon collects, k counted from 1. */
  function RegularAngle(k: nat, sides: nat): real
    requires sides > 0
  {
    k as real * (2.0 * PI / sides as real)
  }

  function RegularVertex(center: Point, sideLength: int, t: real, cos: real -> real, sin: real -> real): Point
  {
    Point(center.x + sideLength as real * cos(t), center.y + sideLength as real * sin(t))
  }

  /** The vertices of getRegularPolygon: one per side, at angles 2π/sides, 2·2π/sides, ..., 2π. */
  function RegularVertices(center: Point, sides: nat, sideLength: int, cos: real -> real, sin: real -> real): (r: seq<Point>)
    ensures |r| == sides
  {
    if sides == 0 then []
    else seq(sides, i requires 0 <= i < sides => RegularVertex(center, sideLength, RegularAngle(i + 1, sides), cos, sin))
  }

  lemma MulPositives(u: real, v: real)
    requires u > 0.0 && v > 0.0
    ensures u * v > 0.0
  {
  }

  lemma DivideBack(a: real, n: real)
    requires n > 0.0
    ensures (a / n) * n == a
  {
  }

  /**
   * The accumulated angle (k + 1)·sep stays within 2π exactly while k + 1 <= sides,
   * so the collecting loop stops after `sides` angles.
   */
  lemma {:induction false} NextAngleFits(k: nat, sides: nat)
    requires sides > 0
    ensures RegularAngle(k + 1, sides) <= 2.0 * PI <==> k + 1 <= sides
  {
    var sep := 2.0 * PI / sides as real;
    DivideBack(2.0 * PI, sides as real);
    assert sep > 0.0;
    if k + 1 > sides {
      MulPositives((k + 1 - sides) as real, sep);
      assert RegularAngle(k + 1, sides) > 2.0 * PI;
    } else if k + 1 < sides {
      MulPositives((sides - (k + 1)) as real, sep);
      assert RegularAngle(k + 1, sides) < 2.0 * PI;
    }
  }

  /** A vertex at angle t lies sideLength away from the centre. */
  lemma RegularVertexRadius(center: Point, sideLength: int, t: real, cos: real -> real, sin: real -> real)
    requires UnitCircle(cos, sin)
    ensures SqDist(RegularVertex(center, sideLength, t, cos, sin), center) == (sideLength * sideLength) as real
  {
    var l := sideLength as real;
    var c, s := cos(t), sin(t);
    var v := RegularVertex(center, sideLength, t, cos, sin);
    assert c * c + s * s == 1.0;
    calc {
      SqDist(v, center);
      Sq(v.x - center.x) + Sq(v.y - center.y);
      { assert v.x - center.x == l * c; assert v.y - center.y == l * s; }
      Sq(l * c) + Sq(l * s);
      (l * c) * (l * c) + (l * s) * (l * s);
      (l * l) * (c * c + s * s);
      l * l;
    }
  }

  /** Every vertex of a regular polygon lies sideLength from its centre. */
  lemma RegularVerticesRadius(center: Point, sides: nat, sideLength: int, cos: real -> real, sin: real -> real, i: int)
    requires UnitCircle(cos, sin) && 0 <= i < sides
    ensures SqDist(RegularVertices(center, sides, sideLength, cos, sin)[i], center) == (sideLength * sideLength) as real
  {
    RegularVertexRadius(center, sideLength, RegularAngle(i + 1, sides), cos, sin);
  }

  /* ---------- inflateTowardsPoint ---------- */

  /** `a >= bound` on a double: false for NaN. */
  predicate AtLeastDegrees(a: Double, bound: real)
  {
    (a.Finite? && a.r >= bound) || a.PosInf?
  }

  /** d moved by the unit vector u, forwards, backwards or not at all by the sign s. */
  function Step(d: Point, u: Point, s: real): Point
  {
    Point(d.x + u.x * s, d.y + u.y * s)
  }

  /**
   * One vertex of inflateTowardsPoint. angle(c, d, t) is the angle at c
   * between d and t, and normalize the unit vector along its argument.
   */
  function Moved(d: Point, centroid: Point, minRadius: int, target: Point, weight: real,
                 angle: (Point, Point, Point) -> Double, normalize: Point -> Point): (r: Point)
    ensures r == d || AtLeast(SqDist(r, centroid), minRadius)
    ensures AtLeastDegrees(angle(centroid, d, target), MaxMoveAngle) ==> r == d
  {
    if AtLeastDegrees(angle(centroid, d, target), MaxMoveAngle) then d
    else
      var p := Step(d, normalize(Minus(target, centroid)), Signum(weight));
      if AtLeast(SqDist(p, centroid), minRadius) then p else d
  }

  /** The vertices after inflateTowardsPoint. */
  function Inflated(ps: seq<Point>, centroid: Point, minRadius: int, target: Point, weight: real,
                    angle: (Point, Point, Point) -> Double, normalize: Point -> Point): (r: seq<Point>)
    ensures |r| == |ps|
  {
    seq(|ps|, i requires 0 <= i < |ps| => Moved(ps[i], centroid, minRadius, target, weight, angle, normalize))
  }

  /** Every vertex is at least minRadius from the centroid. */
  predicate AllAtLeast(ps: seq<Point>, centroid: Point, minRadius: int)
  {
    forall i :: 0 <= i < |ps| ==> AtLeast(SqDist(ps[i], centroid), minRadius)
  }

  /** A vertex that changes had a narrow angle and took one unit step along centroid→target, by the weight's sign. */
  lemma InflateMovesNarrowVerticesOnly(ps: seq<Point>, centroid: Point, minRadius: int, target: Point, weight: real,
                                       angle: (Point, Point, Point) -> Double, normalize: Point -> Point, i: int)
    requires 0 <= i < |ps|
    requires Inflated(ps, centroid, minRadius, target, weight, angle, normalize)[i] != ps[i]
    ensures !AtLeastDegrees(angle(centroid, ps[i], target), MaxMoveAngle)
    ensures Inflated(ps, centroid, minRadius, target, weight, angle, normalize)[i] ==
            Step(ps[i], normalize(Minus(target, centroid)), Signum(weight))
    ensures AtLeast(SqDist(Inflated(ps, centroid, minRadius, target, weight, angle, normalize)[i], centroid), minRadius)
  {
  }

  /** The minimum-radius guard keeps "every vertex at least minRadius away" true. */
  lemma InflateKeepsMinRadius(ps: seq<Point>, centroid: Point, minRadius: int, target: Point, weight: real,
                              angle: (Point, Point, Point) -> Double, normalize: Point -> Point)
    requires AllAtLeast(ps, centroid, minRadius)
    ensures AllAtLeast(Inflated(ps, centroid, minRadius, target, weight, angle, normalize), centroid, minRadius)
  {
    var r := Inflated(ps, centroid, minRadius, target, weight, angle, normalize);
    forall i | 0 <= i < |r|
      ensures AtLeast(SqDist(r[i], centroid), minRadius)
    {
      assert r[i] == Moved(ps[i], centroid, minRadius, target, weight, angle, normalize);
    }
  }

  /** A zero weight moves nothing. */
  lemma InflateByZero(ps: seq<Point>, centroid: Point, minRadius: int, target: Point,
                      angle: (Point, Point, Point) -> Double, normalize: Point -> Point)
    ensures Inflated(ps, centroid, minRadius, target, 0.0, angle, normalize) == ps
  {
    var r := Inflated(ps, centroid, minRadius, target, 0.0, angle, normalize);
    forall i | 0 <= i < |ps|
      ensures r[i] == ps[i]
    {
      var u := normalize(Minus(target, centroid));
      assert Step(ps[i], u, 0.0) == ps[i];
    }
  }

  /** Only the sign of the weight matters. */
  lemma InflateBySignOnly(ps: seq<Point>, centroid: Point, minRadius: int, target: Point, w1: real, w2: real,
                          angle: (Point, Point, Point) -> Double, normalize: Point -> Point)
    requires (w1 > 0.0 <==> w2 > 0.0) && (w1 < 0.0 <==> w2 < 0.0)
    ensures Inflated(ps, centroid, minRadius, target, w1, angle, normalize) ==
            Inflated(ps, centroid, minRadius, target, w2, angle, normalize)
  {
    assert Signum(w1) == Signum(w2);
  }

  /* ---------- translate ---------- */

  function Translated(ps: seq<Point>, dx: real, dy: real): (r: seq<Point>)
    ensures |r| == |ps|
  {
    seq(|ps|, i requires 0 <= i < |ps| => Shift(ps[i], dx, dy))
  }

  /** Translating the vertices and the centroid together keeps every vertex–centroid distance. */
  lemma TranslateKeepsRadii(ps: seq<Point>, centroid: Point, dx: real, dy: real, i: int)
    requires 0 <= i < |ps|
    ensures SqDist(Translated(ps, dx, dy)[i], Shift(centroid, dx, dy)) == SqDist(ps[i], centroid)
  {
    SqDistUnderShift(ps[i], centroid, dx, dy);
  }

  lemma TranslateKeepsMinRadius(ps: seq<Point>, centroid: Point, minRadius: int, dx: real, dy: real)
    requires AllAtLeast(ps, centroid, minRadius)
    ensures AllAtLeast(Translated(ps, dx, dy), Shift(centroid, dx, dy), minRadius)
  {
    forall i | 0 <= i < |ps|
      ensures AtLeast(SqDist(Translated(ps, dx, dy)[i], Shift(centroid, dx, dy)), minRadius)
    {
      TranslateKeepsRadii(ps, centroid, dx, dy, i);
    }
  }

  /* ---------- area ---------- */

  function Cross(a: Point, b: Point): real
  {
    a.x * b.y - a.y * b.x
  }

  /** The shoelace terms of consecutive vertices, without the edge from the last back to the first. */
  function OpenShoelace(ps: seq<Point>): real
  {
    if |ps| < 2 then 0.0
    else OpenShoelace(ps[..|ps| - 1]) + Cross(ps[|ps| - 2], ps[|ps| - 1])
  }

  /** area() as written: half the open sum, so the closing edge is missing. */
  function AreaAsWritten(ps: seq<Point>): real
  {
    0.5 * OpenShoelace(ps)
  }

  /** The shoelace formula over the closed outline, edge from last to first included. */
  function AreaOf(ps: seq<Point>): real
  {
    if |ps| == 0 then 0.0 else 0.5 * (OpenShoelace(ps) + Cross(ps[|ps| - 1], ps[0]))
  }

  lemma CrossUnderShift(a: Point, b: Point, dx: real, dy: real)
    ensures Cross(Shift(a, dx, dy), Shift(b, dx, dy)) == Cross(a, b) + dy * (a.x - b.x) + dx * (b.y - a.y)
  {
  }

  /** Shifting the vertices changes the open sum by terms that depend only on its two end points. */
  lemma OpenShoelaceUnderShift(ps: seq<Point>, dx: real, dy: real)
    requires |ps| > 0
    ensures OpenShoelace(Translated(ps, dx, dy)) ==
            OpenShoelace(ps) + dy * (ps[0].x - ps[|ps| - 1].x) + dx * (ps[|ps| - 1].y - ps[0].y)
  {
    OpenShoelaceShifted(ps, dx, dy);
  }

  /** `after` is `before` plus the shift terms of the end points p and q. */
  predicate ShiftedBy(after: real, before: real, dx: real, dy: real, p: Point, q: Point)
  {
    after == before + dy * (p.x - q.x) + dx * (q.y - p.y)
  }

  lemma CrossShifted(a: Point, b: Point, dx: real, dy: real)
    ensures ShiftedBy(Cross(Shift(a, dx, dy), Shift(b, dx, dy)), Cross(a, b), dx, dy, a, b)
  {
    CrossUnderShift(a, b, dx, dy);
  }

  lemma {:induction false} OpenShoelaceShifted(ps: seq<Point>, dx: real, dy: real)
    requires |ps| > 0
    ensures ShiftedBy(OpenShoelace(Translated(ps, dx, dy)), OpenShoelace(ps), dx, dy, ps[0], ps[|ps| - 1])
  {
    var n := |ps|;
    if n >= 2 {
      var init := ps[..n - 1];
      var t := Translated(ps, dx, dy);
      assert t[..n - 1] == Translated(init, dx, dy);
      assert t[n - 2] == Shift(ps[n - 2], dx, dy) && t[n - 1] == Shift(ps[n - 1], dx, dy);
      OpenShoelaceShifted(init, dx, dy);
      CrossShifted(ps[n - 2], ps[n - 1], dx, dy);
      assert init[0] == ps[0] && init[n - 2] == ps[n - 2];
      ShiftedChain(OpenShoelace(t), OpenShoelace(Translated(init, dx, dy)), Cross(t[n - 2], t[n - 1]),
                   OpenShoelace(init), Cross(ps[n - 2], ps[n - 1]), dx, dy, ps[0], ps[n - 2], ps[n - 1]);
    }
  }

  /** The end-point terms of the prefix and of the last edge add up to those of the whole outline. */
  lemma ShiftedChain(total: real, prefix: real, last: real, o: real, c: real, dx: real, dy: real, p: Point, q: Point, r: Point)
    requires total == prefix + last
    requires ShiftedBy(prefix, o, dx, dy, p, q) && ShiftedBy(last, c, dx, dy, q, r)
    ensures ShiftedBy(total, o + c, dx, dy, p, r)
  {
    assert dy * (p.x - q.x) + dy * (q.x - r.x) == dy * (p.x - r.x);
    assert dx * (q.y - p.y) + dx * (r.y - q.y) == dx * (r.y - p.y);
  }

  /** The area of the closed outline does not depend on where the polygon lies. */
  lemma AreaUnderTranslation(ps: seq<Point>, dx: real, dy: real)
    ensures AreaOf(Translated(ps, dx, dy)) == AreaOf(ps)
  {
    if |ps| > 0 {
      OpenShoelaceUnderShift(ps, dx, dy);
      CrossUnderShift(ps[|ps| - 1], ps[0], dx, dy);
    }
  }

  /** The unit square with lower left corner (a, b). */
  function Square(a: real, b: real): seq<Point>
  {
    [Point(a, b), Point(a + 1.0, b), Point(a + 1.0, b + 1.0), Point(a, b + 1.0)]
  }

  /**
   * As written, the unit square's area depends on where it lies (1 at the
   * origin, 1.5 one unit to the right); over the closed outline it is 1 everywhere.
   */
  lemma AreaAsWrittenDependsOnPosition(a: real, b: real)
    ensures AreaAsWritten(Square(a, b)) == 1.0 + 0.5 * a
    ensures AreaOf(Square(a, b)) == 1.0
  {
    var s := Square(a, b);
    OpenOfFour(s);
    assert Cross(s[0], s[1]) == -b;
    assert Cross(s[1], s[2]) == a + 1.0;
    assert Cross(s[2], s[3]) == b + 1.0;
    assert Cross(s[3], s[0]) == -a;
  }

  lemma OpenOfFour(s: seq<Point>)
    requires |s| == 4
    ensures OpenShoelace(s) == Cross(s[0], s[1]) + Cross(s[1], s[2]) + Cross(s[2], s[3])
  {
    assert s[..3][..2] == s[..2];
    assert s[..2][..1] == s[..1];
  }

  /** The two agree on an outline that repeats its first vertex at the end. */
  lemma AreaAsWrittenOnClosedOutline(ps: seq<Point>)
    requires |ps| > 0 && ps[|ps| - 1] == ps[0]
    ensures AreaAsWritten(ps) == AreaOf(ps)
  {
  }

  /* ---------- contains ---------- */

  /** Whether the ray from (x, y) towards +x crosses the edge last→cur, as the loop body of contains decides it. */
  function EdgeHit(last: Point, cur: Point, x: real, y: real): bool
  {
    if cur.y == last.y then false
    else
      var passed := if cur.x < last.x then x >= last.x else x >= cur.x;
      var leftx := if cur.x < last.x then cur.x else last.x;
      if passed then false
      else if cur.y < last.y then
        if y < cur.y || y >= last.y then false
        else if x < leftx then true
        else x - cur.x < (y - cur.y) / (last.y - cur.y) * (last.x - cur.x)
      else
        if y < last.y || y >= cur.y then false
        else if x < leftx then true
        else x - last.x < (y - last.y) / (last.y - cur.y) * (last.x - cur.x)
  }

  /** The crossings over the edges ending at each of ps, the first edge starting at last. */
  function Crossings(ps: seq<Point>, last: Point, x: real, y: real): nat
  {
    if |ps| == 0 then 0
    else (if EdgeHit(last, ps[0], x, y) then 1 else 0) + Crossings(ps[1..], ps[0], x, y)
  }

  /** contains: the even-odd rule over the closed outline; an empty polygon has no last vertex to start from. */
  function ContainsOf(ps: seq<Point>, x: real, y: real): Result<bool>
  {
    if |ps| == 0 then Err("ArrayIndexOutOfBoundsException")
    else Ok(Crossings(ps, ps[|ps| - 1], x, y) % 2 == 1)
  }

  lemma EdgeHitUnderShift(last: Point, cur: Point, x: real, y: real, dx: real, dy: real)
    ensures EdgeHit(Shift(last, dx, dy), Shift(cur, dx, dy), x + dx, y + dy) == EdgeHit(last, cur, x, y)
  {
    var l, c := Shift(last, dx, dy), Shift(cur, dx, dy);
    assert (y + dy) - c.y == y - cur.y && l.y - c.y == last.y - cur.y && l.x - c.x == last.x - cur.x;
    assert (y + dy) - l.y == y - last.y;
    assert (x + dx) - c.x == x - cur.x && (x + dx) - l.x == x - last.x;
  }

  lemma {:induction false} CrossingsUnderShift(ps: seq<Point>, last: Point, x: real, y: real, dx: real, dy: real)
    ensures Crossings(Translated(ps, dx, dy), Shift(last, dx, dy), x + dx, y + dy) == Crossings(ps, last, x, y)
  {
    if |ps| > 0 {
      var t := Translated(ps, dx, dy);
      assert t[1..] == Translated(ps[1..], dx, dy);
      EdgeHitUnderShift(last, ps[0], x, y, dx, dy);
      CrossingsUnderShift(ps[1..], ps[0], x, y, dx, dy);
    }
  }

  /** Moving the polygon and the point together does not change the answer. */
  lemma ContainsUnderTranslation(ps: seq<Point>, x: real, y: real, dx: real, dy: real)
    ensures ContainsOf(Translated(ps, dx, dy), x + dx, y + dy) == ContainsOf(ps, x, y)
  {
    if |ps| > 0 {
      CrossingsUnderShift(ps, ps[|ps| - 1], x, y, dx, dy);
    }
  }

  /** A point with no vertex to its right, or none above it, or every vertex above it, is crossed by no edge. */
  predicate OutsideBounds(ps: seq<Point>, x: real, y: real)
  {
    (forall i :: 0 <= i < |ps| ==> ps[i].x <= x) ||
    (forall i :: 0 <= i < |ps| ==> ps[i].y <= y) ||
    (forall i :: 0 <= i < |ps| ==> ps[i].y > y)
  }

  lemma EdgeOutsideBounds(last: Point, cur: Point, x: real, y: real)
    requires (last.x <= x && cur.x <= x) || (last.y <= y && cur.y <= y) || (last.y > y && cur.y > y)
    ensures !EdgeHit(last, cur, x, y)
  {
  }

  lemma {:induction false} CrossingsOutsideBounds(ps: seq<Point>, last: Point, x: real, y: real)
    requires OutsideBounds([last] + ps, x, y)
    ensures Crossings(ps, last, x, y) == 0
  {
    if |ps| > 0 {
      var all := [last] + ps;
      assert all[0] == last && all[1] == ps[0];
      EdgeOutsideBounds(last, ps[0], x, y);
      var rest := [ps[0]] + ps[1..];
      assert rest == all[1..];
      assert forall i :: 0 <= i < |rest| ==> rest[i] == all[i + 1];
      CrossingsOutsideBounds(ps[1..], ps[0], x, y);
    }
  }

  /** A point right of, above, or below every vertex is outside. */
  lemma OutsideBoundsIsOutside(ps: seq<Point>, x: real, y: real)
    requires |ps| > 0 && OutsideBounds(ps, x, y)
    ensures ContainsOf(ps, x, y) == Ok(false)
  {
    var last := ps[|ps| - 1];
    assert forall i :: 0 <= i < |[last] + ps| ==> ([last] + ps)[i] in ps;
    CrossingsOutsideBounds(ps, last, x, y);
  }

  /* ---------- the polygon ---------- */

  class Polygon {
    var points: seq<Point>
    var centroid: Point
    /** The minimum allowed distance of a vertex from the centroid. */
    const minRadius: int

    /** getRegularPolygon(xCenter, yCenter, minRadius, sides, sideLength). */
    constructor Regular(center: Point, minRadius: int, sides: nat, sideLength: int, cos: real -> real, sin: real -> real)
      ensures this.minRadius == minRadius && centroid == center
      ensures points == RegularVertices(center, sides, sideLength, cos, sin)
    {
      var angles: seq<real> := [];
      if sides > 0 {
        var sep := 2.0 * PI / sides as real;
        var ca := 0.0;
        var k: nat := 0;
        NextAngleFits(0, sides);
        while ca + sep <= 2.0 * PI
          invariant k <= sides && ca == RegularAngle(k, sides)
          invariant |angles| == k && forall j :: 0 <= j < k ==> angles[j] == RegularAngle(j + 1, sides)
          decreases sides - k
        {
          NextAngleFits(k, sides);
          ca := ca + sep;
          angles := angles + [ca];
          k := k + 1;
        }
        NextAngleFits(k, sides);
      }
      this.minRadius := minRadius;
      centroid := center;
      points := [];
      new;
      var i := 0;
      while i < sides
        invariant 0 <= i <= sides && |angles| == sides && centroid == center
        invariant points == RegularVertices(center, sides, sideLength, cos, sin)[..i]
      {
        points := points + [RegularVertex(center, sideLength, angles[i], cos, sin)];
        i := i + 1;
      }
    }

    /** inflateTowardsPoint: the vertices move as Inflated says; the centroid stays. */
    method InflateTowardsPoint(target: Point, weight: real,
                               angle: (Point, Point, Point) -> Double, normalize: Point -> Point)
      modifies this`points
      ensures points == Inflated(old(points), centroid, minRadius, target, weight, angle, normalize)
    {
      ghost var original := points;
      var i := 0;
      while i < |points|
        invariant |points| == |original| && 0 <= i <= |points|
        invariant forall j :: 0 <= j < i ==> points[j] == Moved(original[j], centroid, minRadius, target, weight, angle, normalize)
        invariant forall j :: i <= j < |points| ==> points[j] == original[j]
      {
        points := points[i := Moved(points[i], centroid, minRadius, target, weight, angle, normalize)];
        i := i + 1;
      }
    }

    /** translate: the centroid and every vertex shift by (dx, dy). */
    method Translate(dx: real, dy: real)
      modifies this`points, this`centroid
      ensures centroid == Shift(old(centroid), dx, dy)
      ensures points == Translated(old(points), dx, dy)
    {
      centroid := Shift(centroid, dx, dy);
      ghost var original := points;
      var i := 0;
      while i < |points|
        invariant |points| == |original| && 0 <= i <= |points|
        invariant centroid == Shift(old(centroid), dx, dy)
        invariant forall j :: 0 <= j < i ==> points[j] == Shift(original[j], dx, dy)
        invariant forall j :: i <= j < |points| ==> points[j] == original[j]
      {
        points := points[i := Shift(points[i], dx, dy)];
        i := i + 1;
      }
    }

    /** addPoint */
    method AddPoint(x: real, y: real)
      modifies this`points
      ensures points == old(points) + [Point(x, y)]
    {
      points := points + [Point(x, y)];
    }

    /**
     * area(): half the shoelace sum over consecutive vertices. The edge from the last
     * vertex back to the first is not summed, so the result is the closed-outline area
     * only when the outline repeats its first vertex at the end.
     */
    method Area() returns (r: real)
      ensures r == AreaAsWritten(points)
      ensures |points| > 0 && points[|points| - 1] == points[0] ==> r == AreaOf(points)
    {
      var sum := 0.0;
      var i := 0;
      while i < |points| - 1
        invariant 0 <= i <= |points| || (|points| == 0 && i == 0)
        invariant |points| > 0 ==> i < |points| && sum == OpenShoelace(points[..i + 1])
        invariant |points| == 0 ==> sum == 0.0
      {
        assert points[..i + 2][..i + 1] == points[..i + 1];
        sum := sum + Cross(points[i], points[i + 1]);
        i := i + 1;
      }
      if |points| > 0 {
        assert points[..i + 1] == points;
      }
      r := 0.5 * sum;
      if |points| > 0 && points[|points| - 1] == points[0] {
        AreaAsWrittenOnClosedOutline(points);
      }
    }

    /** contains(x, y): the even-odd crossing count over the edges last→first, first→second, .... */
    method Contains(x: real, y: real) returns (r: Result<bool>)
      ensures r == ContainsOf(points, x, y)
    {
      var n := |points|;
      if n == 0 {
        return Err("ArrayIndexOutOfBoundsException");
      }
      var hits: nat := 0;
      var last := points[n - 1];
      var i := 0;
      while i < n
        invariant 0 <= i <= n
        invariant hits + Crossings(points[i..], last, x, y) == Crossings(points, points[n - 1], x, y)
        invariant i > 0 ==> last == points[i - 1]
      {
        assert points[i..][1..] == points[i + 1..];
        if EdgeHit(last, points[i], x, y) {
          hits := hits + 1;
        }
        last := points[i];
        i := i + 1;
      }
      r := Ok(hits % 2 == 1);
    }
  }
}
