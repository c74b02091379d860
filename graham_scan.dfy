/**
 * The Graham scan that builds the convex hull of a point set
 * (src/confidenceZone/geometry/GrahamScan.java). The cross product casts
 * some coordinates to long before subtracting, and the point order uses
 * Math.atan2, which is a parameter `atan2(y, x)` here.
 */
module GrahamScans {
  import opened Wrappers
  import opened Numeric
  import opened Seqs
  import opened Geometry

  /** Turn */
  datatype Turn = CLOCKWISE | COUNTER_CLOCKWISE | COLLINEAR

  /** getTurn's cross product: b.x, c.y, b.y and c.x are cast to long first. */
  function Cross(a: Point, b: Point, c: Point): real
  {
    (Trunc(b.x) as real - a.x) * (Trunc(c.y) as real - a.y) - (Trunc(b.y) as real - a.y) * (Trunc(c.x) as real - a.x)
  }

  /** The exact cross product of b - a and c - a. */
  function ExactCross(a: Point, b: Point, c: Point): real
  {
    (b.x - a.x) * (c.y - a.y) - (b.y - a.y) * (c.x - a.x)
  }

  /** getTurn: the sign of the cross product. */
  function GetTurn(a: Point, b: Point, c: Point): (r: Turn)
    ensures r == COUNTER_CLOCKWISE <==> Cross(a, b, c) > 0.0
    ensures r == CLOCKWISE <==> Cross(a, b, c) < 0.0
    ensures r == COLLINEAR <==> Cross(a, b, c) == 0.0
  {
    var cp := Cross(a, b, c);
    if cp > 0.0 then COUNTER_CLOCKWISE else if cp < 0.0 then CLOCKWISE else COLLINEAR
  }

  /** The casts are harmless on integer points: the turn is the exact one. */
  lemma IntegerTurnIsExact(a: Point, b: Point, c: Point)
    requires IntegerPoint(b) && IntegerPoint(c)
    ensures Cross(a, b, c) == ExactCross(a, b, c)
  {
    TruncInteger(b.x);
    TruncInteger(b.y);
    TruncInteger(c.x);
    TruncInteger(c.y);
  }

  function Opposite(t: Turn): Turn
  {
    match t
    case CLOCKWISE => COUNTER_CLOCKWISE
    case COUNTER_CLOCKWISE => CLOCKWISE
    case COLLINEAR => COLLINEAR
  }

  /** On integer points, visiting the last two in the other order gives the opposite turn. */
  lemma TurnReverses(a: Point, b: Point, c: Point)
    requires IntegerPoint(b) && IntegerPoint(c)
    ensures GetTurn(a, c, b) == Opposite(GetTurn(a, b, c))
  {
    IntegerTurnIsExact(a, b, c);
    IntegerTurnIsExact(a, c, b);
    assert ExactCross(a, c, b) == -ExactCross(a, b, c);
  }

  /** Every point from index 2 on is collinear with the first two. */
  predicate AllCollinear(ps: seq<Point>)
  {
    |ps| < 2 || forall i :: 2 <= i < |ps| ==> GetTurn(ps[0], ps[1], ps[i]) == COLLINEAR
  }

  /** areAllCollinear */
  method AreAllCollinear(ps: seq<Point>) returns (r: bool)
    ensures r == AllCollinear(ps)
  {
    if |ps| < 2 {
      return true;
    }
    var a := ps[0];
    var b := ps[1];
    var i := 2;
    while i < |ps|
      invariant 2 <= i <= |ps|
      invariant forall k :: 2 <= k < i ==> GetTurn(a, b, ps[k]) == COLLINEAR
    {
      if GetTurn(a, b, ps[i]) != COLLINEAR {
        return false;
      }
      i := i + 1;
    }
    return true;
  }

  /** Integer points collinear with a line through a and b are collinear with it read from b. */
  lemma CollinearFromEitherEnd(ps: seq<Point>)
    requires |ps| >= 2 && forall i :: 0 <= i < |ps| ==> IntegerPoint(ps[i])
    ensures AllCollinear(ps) <==> AllCollinear([ps[1], ps[0]] + ps[2..])
  {
    var qs := [ps[1], ps[0]] + ps[2..];
    forall i | 2 <= i < |ps|
      ensures GetTurn(ps[0], ps[1], ps[i]) == COLLINEAR <==> GetTurn(qs[0], qs[1], qs[i]) == COLLINEAR
    {
      assert qs[i] == ps[i];
      IntegerTurnIsExact(ps[0], ps[1], ps[i]);
      IntegerTurnIsExact(ps[1], ps[0], ps[i]);
      assert ExactCross(ps[1], ps[0], ps[i]) == -ExactCross(ps[0], ps[1], ps[i]);
    }
  }

  /** `a` comes before `b` in getLowestPoint's order: lower y, then lower x. */
  predicate Below(a: Point, b: Point)
  {
    a.y < b.y || (a.y == b.y && a.x < b.x)
  }

  /** The point getLowestPoint keeps: the first that no later point is below. */
  function Lowest(ps: seq<Point>): (r: Point)
    requires |ps| > 0
    ensures r in ps
    ensures forall q :: q in ps ==> !Below(q, r)
  {
    if |ps| == 1 then ps[0]
    else
      var init := ps[..|ps| - 1];
      var l := Lowest(init);
      var last := ps[|ps| - 1];
      assert forall q :: q in ps <==> q in init || q == last;
      if Below(last, l) then last else l
  }

  /** No two points are each below the other, so the lowest point is unique. */
  lemma LowestIsUnique(ps: seq<Point>, p: Point)
    requires p in ps && forall q :: q in ps ==> !Below(q, p)
    ensures p == Lowest(ps)
  {
  }

  /** getLowestPoint */
  method GetLowestPoint(ps: seq<Point>) returns (lowest: Point)
    requires |ps| > 0
    ensures lowest == Lowest(ps)
  {
    lowest := ps[0];
    var i := 1;
    while i < |ps|
      invariant 1 <= i <= |ps|
      invariant lowest == Lowest(ps[..i])
    {
      var temp := ps[i];
      assert ps[..i + 1][..i] == ps[..i];
      if temp.y < lowest.y || (temp.y == lowest.y && temp.x < lowest.x) {
        lowest := temp;
      }
      i := i + 1;
    }
    assert ps[..i] == ps;
  }

  /** The points without repetitions, each kept where it first occurs (TreeSet.add of equal points). */
  function Distinct(ps: seq<Point>): (r: seq<Point>)
    ensures forall p :: p in r <==> p in ps
    ensures forall i, j :: 0 <= i < j < |r| ==> r[i] != r[j]
  {
    if |ps| == 0 then []
    else
      var init := Distinct(ps[..|ps| - 1]);
      var last := ps[|ps| - 1];
      assert forall q :: q in ps <==> q in ps[..|ps| - 1] || q == last;
      if last in init then init else init + [last]
  }

  /** The angle of p seen from the lowest point, with p's coordinates cast to long. */
  function Theta(lowest: Point, p: Point, atan2: (real, real) -> real): real
  {
    atan2(Trunc(p.y) as real - lowest.y, Trunc(p.x) as real - lowest.x)
  }

  /** The squared distance of p to the lowest point, the lowest point's coordinates cast to long. */
  function RadialSq(lowest: Point, p: Point): real
  {
    Sq(Trunc(lowest.x) as real - p.x) + Sq(Trunc(lowest.y) as real - p.y)
  }

  /** getSortedPointSet's comparator: by angle, then nearer first. */
  function ByAngle(lowest: Point, atan2: (real, real) -> real): (Point, Point) -> bool
  {
    (a: Point, b: Point) =>
      Theta(lowest, a, atan2) < Theta(lowest, b, atan2) ||
      (Theta(lowest, a, atan2) == Theta(lowest, b, atan2) && RadialSq(lowest, a) <= RadialSq(lowest, b))
  }

  lemma ByAngleIsTotalPreorder(lowest: Point, atan2: (real, real) -> real)
    ensures TotalPreorder(ByAngle(lowest, atan2))
  {
  }

  /**
   * getSortedPointSet: the distinct points in increasing angle around the
   * lowest one, nearer first on equal angles, later points after earlier
   * ones on a full tie.
   */
  function SortedPointSet(ps: seq<Point>, atan2: (real, real) -> real): (r: seq<Point>)
    requires |ps| > 0
    ensures forall p :: p in r <==> p in ps
    ensures SortedBy(r, ByAngle(Lowest(ps), atan2))
  {
    var d := Distinct(ps);
    ByAngleIsTotalPreorder(Lowest(ps), atan2);
    SortBySorted(d, ByAngle(Lowest(ps), atan2));
    assert forall p :: p in SortBy(d, ByAngle(Lowest(ps), atan2)) <==> p in multiset(d);
    SortBy(d, ByAngle(Lowest(ps), atan2))
  }

  /** What Math.atan2 does for the lowest point: 0 at itself, never negative above or level with it. */
  ghost predicate Atan2Basics(atan2: (real, real) -> real)
  {
    atan2(0.0, 0.0) == 0.0 && forall y: real, x: real :: y >= 0.0 ==> atan2(y, x) >= 0.0
  }

  /** Seen from an integer lowest point, an integer point level with it or above has a non-negative angle, itself angle 0. */
  lemma ThetaFromLowest(lo: Point, p: Point, atan2: (real, real) -> real)
    requires IntegerPoint(lo) && IntegerPoint(p) && p.y >= lo.y
    requires Atan2Basics(atan2)
    ensures Theta(lo, lo, atan2) == 0.0 <= Theta(lo, p, atan2)
    ensures RadialSq(lo, p) == SqDist(lo, p)
  {
    TruncInteger(p.x);
    TruncInteger(p.y);
    TruncInteger(lo.x);
    TruncInteger(lo.y);
  }

  /** On integer points nothing but the lowest point itself sorts before it. */
  lemma OnlyLowestPrecedesLowest(ps: seq<Point>, p: Point, atan2: (real, real) -> real)
    requires |ps| > 0 && p in ps && IntegerPoint(p) && IntegerPoint(Lowest(ps))
    requires Atan2Basics(atan2)
    ensures ByAngle(Lowest(ps), atan2)(p, Lowest(ps)) ==> p == Lowest(ps)
  {
    var lo := Lowest(ps);
    assert !Below(p, lo);
    ThetaFromLowest(lo, p, atan2);
    ThetaFromLowest(lo, lo, atan2);
    SqDistPositive(lo, p);
  }

  /** On integer points the sorted set starts with the lowest point. */
  lemma SortedSetStartsLowest(ps: seq<Point>, atan2: (real, real) -> real)
    requires |ps| > 0 && forall i :: 0 <= i < |ps| ==> IntegerPoint(ps[i])
    requires Atan2Basics(atan2)
    ensures SortedPointSet(ps, atan2)[0] == Lowest(ps)
  {
    var lo := Lowest(ps);
    var s := SortedPointSet(ps, atan2);
    assert lo in s;
    var j :| 0 <= j < |s| && s[j] == lo;
    assert s[0] in ps;
    if j != 0 {
      assert ByAngle(lo, atan2)(s[0], s[j]);
    }
    OnlyLowestPrecedesLowest(ps, s[0], atan2);
  }

  /** The points (xs[i], ys[i]). */
  function Zip(xs: seq<real>, ys: seq<real>): (r: seq<Point>)
    requires |xs| == |ys|
    ensures |r| == |xs| && forall i :: 0 <= i < |xs| ==> r[i] == Point(xs[i], ys[i])
  {
    seq(|xs|, i requires 0 <= i < |xs| => Point(xs[i], ys[i]))
  }

  /** getConvexHull(xs, ys): the points (xs[i], ys[i]), or an error when the lengths differ. */
  method GetConvexHullOf(xs: seq<real>, ys: seq<real>, atan2: (real, real) -> real) returns (r: Result<seq<Point>>)
    ensures |xs| != |ys| ==> r.Err?
    ensures r.Ok? ==> |xs| == |ys| && 3 <= |r.value| && r.value[0] == r.value[|r.value| - 1] &&
                      forall p :: p in r.value ==> p in Zip(xs, ys)
  {
    if |xs| != |ys| {
      return Err("IllegalArgumentException: xs and ys don't have the same size");
    }
    var ps: seq<Point> := [];
    var i := 0;
    while i < |xs|
      invariant 0 <= i <= |xs| && ps == Zip(xs, ys)[..i]
    {
      ps := ps + [Point(xs[i], ys[i])];
      i := i + 1;
    }
    assert ps == Zip(xs, ys);
    r := GetConvexHull(ps, atan2);
    return r;
  }

  /**
   * getConvexHull: sort the distinct points around the lowest one, then walk
   * them with a stack, dropping the top on a clockwise turn, replacing it on
   * a collinear one and keeping it on a counter-clockwise one; the hull is
   * closed by pushing the first point again. Fewer than three distinct
   * points, all of them collinear, or a walk that empties the stack are
   * errors.
   */
  method GetConvexHull(ps: seq<Point>, atan2: (real, real) -> real) returns (r: Result<seq<Point>>)
    ensures |ps| == 0 ==> r.Err?
    ensures r.Ok? ==> |ps| > 0 && 3 <= |r.value| &&
                      r.value[0] == SortedPointSet(ps, atan2)[0] == r.value[|r.value| - 1] &&
                      forall p :: p in r.value ==> p in ps
    ensures |ps| > 0 && (|SortedPointSet(ps, atan2)| < 3 || AllCollinear(SortedPointSet(ps, atan2))) ==> r.Err?
  {
    if |ps| == 0 {
      return Err("IndexOutOfBoundsException");
    }
    var sorted := SortedPointSet(ps, atan2);
    if |sorted| < 3 {
      return Err("IllegalArgumentException: can only create a convex hull of 3 or more unique points");
    }
    var collinear := AreAllCollinear(sorted);
    if collinear {
      return Err("IllegalArgumentException: cannot create a convex hull from collinear points");
    }
    var stack := [sorted[0], sorted[1]];
    var i := 2;
    while i < |sorted|
      invariant 2 <= i <= |sorted|
      invariant 2 <= |stack| && stack[0] == sorted[0]
      invariant forall p :: p in stack ==> p in sorted
      decreases |sorted| - i, |stack|
    {
      var head := sorted[i];
      var middle := stack[|stack| - 1];
      stack := stack[..|stack| - 1];
      var tail := stack[|stack| - 1];
      var turn := GetTurn(tail, middle, head);
      match turn
      case COUNTER_CLOCKWISE =>
        stack := stack + [middle, head];
        i := i + 1;
      case CLOCKWISE =>
        if |stack| < 2 {
          // the next pass would pop the last point and peek at an empty stack
          return Err("EmptyStackException");
        }
      case COLLINEAR =>
        stack := stack + [head];
        i := i + 1;
    }
    stack := stack + [sorted[0]];
    return Ok(stack);
  }
}
