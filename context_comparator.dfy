/**
 * The point-wise context comparator
 * (src/context/comparison/ContextComparatorImpl.java).
 */
module ContextComparators {
  import opened Wrappers
  import opened Numeric
  import opened ContextEntries
  import opened Contexts
  import opened VarWidthComparators

  /** |b[i] - a[i]| for the first n positions. */
  function PointDiffs(a: seq<Double>, b: seq<Double>, n: nat): (r: seq<Double>)
    requires n <= |a| && n <= |b|
    ensures |r| == n && forall i :: 0 <= i < n ==> r[i] == Abs(Sub(b[i], a[i]))
  {
    seq(n, i requires 0 <= i < n => Abs(Sub(b[i], a[i])))
  }

  /**
   * compare(c1, c2): 0 when either context is empty; otherwise the mean of
   * |c2[i] - c1[i]| over c2's positions, divided by c2's size once more.
   * c1 is indexed up to c2's size, so a shorter c1 fails
   * (ArrayIndexOutOfBoundsException).
   */
  method Compare(c1: ContextData, c2: ContextData) returns (r: Result<Double>)
    ensures |c1.entries| == 0 || |c2.entries| == 0 ==> r == Ok(Finite(0.0))
    ensures r.Err? <==> |c1.entries| > 0 && |c2.entries| > 0 && |c1.entries| < |c2.entries|
    ensures r.Ok? && |c1.entries| > 0 && |c2.entries| > 0 ==>
              var n := Finite(|c2.entries| as real);
              r.value == Div(Div(SumD(PointDiffs(ValuesOf(c1.entries), ValuesOf(c2.entries), |c2.entries|)), n), n)
  {
    if |c1.entries| == 0 || |c2.entries| == 0 {
      return Ok(Finite(0.0));
    }
    var c1InfoSeq, meanPoly := ValuesOf(c1.entries), ValuesOf(c2.entries);
    var polyPointsX: seq<Double> := [];
    var i := 0;
    while i < |meanPoly|
      invariant 0 <= i <= |meanPoly|
      invariant i <= |c1InfoSeq| && polyPointsX == PointDiffs(c1InfoSeq, meanPoly, i)
    {
      if i >= |c1InfoSeq| {
        return Err("ArrayIndexOutOfBoundsException");
      }
      polyPointsX := polyPointsX + [Abs(Sub(meanPoly[i], c1InfoSeq[i]))];
      i := i + 1;
    }
    var n := Finite(|polyPointsX| as real);
    r := Ok(Div(Div(SumD(polyPointsX), n), n));
  }

  /** On equal sizes the result is compareSequences of VarWidthComparator divided by the size again. */
  lemma IsMeanAbsDiffOverSize(a: seq<Double>, b: seq<Double>)
    requires |a| == |b| && |a| > 0
    ensures CompareSequences(a, b) == Ok(Div(SumD(PointDiffs(a, b, |b|)), Finite(|a| as real)))
  {
    forall i | 0 <= i < |a|
      ensures AbsDiffs(a, b)[i] == PointDiffs(a, b, |b|)[i]
    {
      SubAntisymmetric(a[i], b[i]);
      NegDistributes(Sub(b[i], a[i]), a[i]);
    }
    assert AbsDiffs(a, b) == PointDiffs(a, b, |b|);
  }

  /** For finite values the result is never negative. */
  lemma ComparisonNonNegative(a: seq<Double>, b: seq<Double>)
    requires |b| > 0 && |b| <= |a|
    requires forall i :: 0 <= i < |a| ==> IsFinite(a[i])
    requires forall i :: 0 <= i < |b| ==> IsFinite(b[i])
    ensures var n := Finite(|b| as real);
            var r := Div(Div(SumD(PointDiffs(a, b, |b|)), n), n);
            IsFinite(r) && r.r >= 0.0
  {
    var d := PointDiffs(a, b, |b|);
    assert forall i :: 0 <= i < |d| ==> IsFinite(d[i]) && d[i].r >= 0.0;
    SumDNonNegative(d);
    DivNonNegative(SumD(d).r, |b| as real);
    DivNonNegative(SumD(d).r / (|b| as real), |b| as real);
  }

  /** A finite context compared with itself gives 0. */
  lemma ComparisonWithItself(a: seq<Double>)
    requires |a| > 0 && forall i :: 0 <= i < |a| ==> IsFinite(a[i])
    ensures var n := Finite(|a| as real);
            Div(Div(SumD(PointDiffs(a, a, |a|)), n), n) == Finite(0.0)
  {
    SelfDiffsAreZero(a);
    SumDZero(PointDiffs(a, a, |a|));
  }

  lemma SelfDiffsAreZero(a: seq<Double>)
    requires forall i :: 0 <= i < |a| ==> IsFinite(a[i])
    ensures forall i :: 0 <= i < |a| ==> PointDiffs(a, a, |a|)[i] == Finite(0.0)
  {
  }
}
