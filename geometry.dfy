/**
 * Points of the plane (commons-math Vector2D) and the arithmetic the
 * confidence-zone geometry shares. Coordinates are exact reals.
 */
module Geometry {
  import opened Numeric

  datatype Point = Point(x: real, y: real)

  function Minus(a: Point, b: Point): Point
  {
    Point(a.x - b.x, a.y - b.y)
  }

  function Shift(p: Point, dx: real, dy: real): Point
  {
    Point(p.x + dx, p.y + dy)
  }

  function Sq(d: real): real
  {
    d * d
  }

  lemma MulPositive(u: real)
    requires u > 0.0
    ensures u * u > 0.0
  {
  }

  lemma MulNegative(u: real)
    requires u < 0.0
    ensures u * u > 0.0
  {
  }

  /** A non-zero difference has a positive square. */
  lemma SqPositive(d: real)
    requires d != 0.0
    ensures Sq(d) > 0.0
  {
    if d > 0.0 {
      calc { Sq(d); d * d; > { MulPositive(d); } 0.0; }
    } else {
      calc { Sq(d); d * d; > { MulNegative(d); } 0.0; }
    }
  }

  lemma SqNonNegative(d: real)
    ensures Sq(d) >= 0.0
  {
    if d != 0.0 {
      SqPositive(d);
    }
  }

  /** The squared Euclidean distance; comparing it stands for comparing Vector2D.distance. */
  function SqDist(a: Point, b: Point): real
  {
    Sq(a.x - b.x) + Sq(a.y - b.y)
  }

  lemma SqDistNonNegative(a: Point, b: Point)
    ensures SqDist(a, b) >= 0.0
  {
    SqNonNegative(a.x - b.x);
    SqNonNegative(a.y - b.y);
  }

  /** Distinct points are a positive distance apart, and a point is at distance 0 from itself. */
  lemma SqDistPositive(a: Point, b: Point)
    ensures a != b ==> SqDist(a, b) > 0.0
    ensures SqDist(a, a) == 0.0
  {
    if a != b {
      SqNonNegative(a.x - b.x);
      SqNonNegative(a.y - b.y);
      if a.x != b.x {
        SqPositive(a.x - b.x);
      } else {
        SqPositive(a.y - b.y);
      }
    }
  }

  /** Shifting both points by the same amount keeps their distance. */
  lemma SqDistUnderShift(a: Point, b: Point, dx: real, dy: real)
    ensures SqDist(Shift(a, dx, dy), Shift(b, dx, dy)) == SqDist(a, b)
  {
  }

  /**
   * `dist >= r` for the distance whose square is `sq`: any distance passes
   * a bound that is not positive.
   */
  predicate AtLeast(sq: real, r: int)
  {
    r <= 0 || sq >= (r * r) as real
  }

  /** Math.signum */
  function Signum(w: real): (r: real)
    ensures r == -1.0 || r == 0.0 || r == 1.0
    ensures (r > 0.0 <==> w > 0.0) && (r < 0.0 <==> w < 0.0)
  {
    if w > 0.0 then 1.0 else if w < 0.0 then -1.0 else 0.0
  }

  predicate IsInteger(x: real)
  {
    x == x.Floor as real
  }

  predicate IntegerPoint(p: Point)
  {
    IsInteger(p.x) && IsInteger(p.y)
  }

  /** A cast to long leaves an integer coordinate unchanged. */
  lemma TruncInteger(x: real)
    requires IsInteger(x)
    ensures Trunc(x) as real == x
  {
    var n := x.Floor;
    if x < 0.0 {
      assert -x == (-n) as real;
      assert (-x).Floor == -n;
    }
  }
}
