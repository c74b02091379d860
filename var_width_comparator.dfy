/**
 * Comparison of contexts of possibly different lengths
 * (src/context/comparison/VarWidthComparator.java).
 */
module VarWidthComparators {
  import opened Wrappers
  import opened Numeric
  import opened ContextEntries
  import opened Contexts

  /** |a[i] - b[i]| for every position. */
  function AbsDiffs(a: seq<Double>, b: seq<Double>): (r: seq<Double>)
    requires |a| == |b|
    ensures |r| == |a| && forall i :: 0 <= i < |a| ==> r[i] == Abs(Sub(a[i], b[i]))
  {
    seq(|a|, i requires 0 <= i < |a| => Abs(Sub(a[i], b[i])))
  }

  /**
   * compareSequences: the mean absolute difference; IllegalArgumentException
   * when the lengths differ.
   */
  function CompareSequences(a: seq<Double>, b: seq<Double>): (r: Result<Double>)
    ensures r.Err? <==> |a| != |b|
  {
    if |a| != |b| then Err("IllegalArgumentException: sequences have to be of the same length")
    else Ok(Div(SumD(AbsDiffs(a, b)), Finite(|a| as real)))
  }

  /** The shoelace sum of a[j]*b[j+1] - a[j+1]*b[j] over j < n - 1. */
  function CrossSum(a: seq<Double>, b: seq<Double>, n: nat): Double
    requires n <= |a| && n <= |b|
  {
    if n <= 1 then Finite(0.0)
    else Add(CrossSum(a, b, n - 1), Sub(Mul(a[n - 2], b[n - 1]), Mul(a[n - 1], b[n - 2])))
  }

  /** compareSequencesGauss, as a value: half the absolute shoelace sum. */
  function GaussArea(a: seq<Double>, b: seq<Double>): Double
    requires |a| == |b|
  {
    Div(Abs(CrossSum(a, b, |a|)), Finite(2.0))
  }

  /** compareSequencesGauss: the area is accumulated in a loop; IllegalArgumentException when the lengths differ. */
  method CompareSequencesGauss(a: seq<Double>, b: seq<Double>) returns (r: Result<Double>)
    ensures r.Err? <==> |a| != |b|
    ensures r.Ok? ==> r.value == GaussArea(a, b)
  {
    if |a| != |b| {
      return Err("IllegalArgumentException: sequences have to be of the same length");
    }
    var area := Finite(0.0);
    var j := 0;
    while j < |b| - 1
      invariant 0 <= j <= if |b| == 0 then 0 else |b| - 1
      invariant area == CrossSum(a, b, if |b| == 0 then 0 else j + 1)
    {
      area := Add(area, Sub(Mul(a[j], b[j + 1]), Mul(a[j + 1], b[j])));
      j := j + 1;
    }
    r := Ok(Div(Abs(area), Finite(2.0)));
  }

  /** The Gauss area of window `delta` of the longer sequence, scaled by the length difference. */
  function WindowScore(short: seq<Double>, long: seq<Double>, delta: nat): Double
    requires delta + |short| <= |long|
  {
    Mul(GaussArea(short, long[delta..delta + |short|]), Finite((|long| - |short|) as real))
  }

  /** The running minimum after offsets 0 .. k-1, starting from Double.MAX_VALUE; `<` skips NaN scores. */
  function RunningMin(short: seq<Double>, long: seq<Double>, k: nat): Double
    requires k + |short| <= |long|
  {
    if k == 0 then Finite(MaxValue)
    else
      var m := RunningMin(short, long, k - 1);
      var a := WindowScore(short, long, k - 1);
      if Lt(a, m) then a else m
  }

  /**
   * compare: 0 when either context is empty; the mean absolute difference for
   * equal sizes; otherwise the least scaled Gauss area over the offsets
   * 0 .. max - min - 1 (the last offset, max - min, is not tried).
   */
  method Compare(c1: ContextData, c2: ContextData) returns (r: Double)
    ensures |c1.entries| == 0 || |c2.entries| == 0 ==> r == Finite(0.0)
    ensures |c1.entries| > 0 && |c1.entries| == |c2.entries| ==>
              CompareSequences(ValuesOf(c1.entries), ValuesOf(c2.entries)) == Ok(r)
    ensures |c1.entries| > 0 && |c2.entries| > 0 && |c1.entries| != |c2.entries| ==>
              r == RunningMin(ShortLong(c1, c2).0, ShortLong(c1, c2).1, |ShortLong(c1, c2).1| - |ShortLong(c1, c2).0|)
  {
    if |c1.entries| == 0 || |c2.entries| == 0 {
      return Finite(0.0);
    }
    var (shortV, longV) := ShortLong(c1, c2);
    if |longV| - |shortV| == 0 {
      var cs := CompareSequences(shortV, longV);
      return cs.value;
    }
    r := MinWindowScore(shortV, longV);
  }

  /** The loop of compare over the offsets 0 .. max - min - 1, keeping the running minimum. */
  method MinWindowScore(shortV: seq<Double>, longV: seq<Double>) returns (meanMinArea: Double)
    requires |shortV| < |longV|
    ensures meanMinArea == RunningMin(shortV, longV, |longV| - |shortV|)
  {
    var minLength, maxLength := |shortV|, |longV|;
    meanMinArea := Finite(MaxValue);
    var delta := 0;
    while delta < maxLength - minLength
      invariant 0 <= delta <= maxLength - minLength
      invariant meanMinArea == RunningMin(shortV, longV, delta)
    {
      var g := CompareSequencesGauss(shortV, longV[delta..delta + minLength]);
      var meanArea := Mul(g.value, Finite((maxLength - minLength) as real));
      assert meanArea == WindowScore(shortV, longV, delta);
      RunningMinStep(shortV, longV, delta);
      if Lt(meanArea, meanMinArea) {
        meanMinArea := meanArea;
      }
      delta := delta + 1;
    }
  }

  lemma RunningMinStep(short: seq<Double>, long: seq<Double>, k: nat)
    requires k + 1 + |short| <= |long|
    ensures var m, a := RunningMin(short, long, k), WindowScore(short, long, k);
            RunningMin(short, long, k + 1) == if Lt(a, m) then a else m
  {
  }

  /** The shorter and the longer value sequence, c1 first on a tie. */
  function ShortLong(c1: ContextData, c2: ContextData): (p: (seq<Double>, seq<Double>))
    ensures |p.0| <= |p.1|
  {
    if |c1.entries| > |c2.entries| then (ValuesOf(c2.entries), ValuesOf(c1.entries))
    else (ValuesOf(c1.entries), ValuesOf(c2.entries))
  }

  /** The running minimum is never NaN and lies below every non-NaN score it has seen. */
  lemma {:induction false} RunningMinIsLeast(short: seq<Double>, long: seq<Double>, k: nat, j: nat)
    requires k + |short| <= |long| && j < k
    requires !WindowScore(short, long, j).NaN?
    ensures !RunningMin(short, long, k).NaN?
    ensures Le(RunningMin(short, long, k), WindowScore(short, long, j))
  {
    RunningMinNotNaN(short, long, k - 1);
    if j < k - 1 {
      RunningMinIsLeast(short, long, k - 1, j);
    }
  }

  lemma {:induction false} RunningMinNotNaN(short: seq<Double>, long: seq<Double>, k: nat)
    requires k + |short| <= |long|
    ensures !RunningMin(short, long, k).NaN?
  {
    if k > 0 {
      RunningMinNotNaN(short, long, k - 1);
    }
  }

  /** The running minimum is Double.MAX_VALUE or the score of one of the offsets tried. */
  lemma {:induction false} RunningMinIsAttained(short: seq<Double>, long: seq<Double>, k: nat)
    requires k + |short| <= |long|
    ensures RunningMin(short, long, k) == Finite(MaxValue) ||
            exists j :: 0 <= j < k && RunningMin(short, long, k) == WindowScore(short, long, j)
  {
    if k > 0 {
      RunningMinIsAttained(short, long, k - 1);
    }
  }

  /** With a size difference of one only offset 0 is tried. */
  lemma SizeDifferenceOne(short: seq<Double>, long: seq<Double>)
    requires |long| == |short| + 1
    ensures RunningMin(short, long, |long| - |short|) ==
            if Lt(WindowScore(short, long, 0), Finite(MaxValue)) then WindowScore(short, long, 0) else Finite(MaxValue)
  {
  }

  /** compareSequences is symmetric. */
  lemma CompareSequencesSymmetric(a: seq<Double>, b: seq<Double>)
    ensures CompareSequences(a, b) == CompareSequences(b, a)
  {
    if |a| == |b| {
      forall i | 0 <= i < |a|
        ensures AbsDiffs(a, b)[i] == AbsDiffs(b, a)[i]
      {
        SubAntisymmetric(a[i], b[i]);
        NegDistributes(Sub(b[i], a[i]), a[i]);
      }
      assert AbsDiffs(a, b) == AbsDiffs(b, a);
    }
  }

  /** On finite values of equal, non-zero length compareSequences is a finite mean that is never negative. */
  lemma CompareSequencesNonNegative(a: seq<Double>, b: seq<Double>)
    requires |a| == |b| && |a| > 0
    requires forall i :: 0 <= i < |a| ==> IsFinite(a[i]) && IsFinite(b[i])
    ensures CompareSequences(a, b).Ok? && IsFinite(CompareSequences(a, b).value)
    ensures CompareSequences(a, b).value.r >= 0.0
  {
    var d := AbsDiffs(a, b);
    assert forall i :: 0 <= i < |d| ==> IsFinite(d[i]) && d[i].r >= 0.0;
    SumDNonNegative(d);
    DivNonNegative(SumD(d).r, |a| as real);
  }

  /** A finite sequence compared with itself gives 0. */
  lemma CompareSequencesSelf(a: seq<Double>)
    requires |a| > 0 && forall i :: 0 <= i < |a| ==> IsFinite(a[i])
    ensures CompareSequences(a, a) == Ok(Finite(0.0))
  {
    SumDZero(AbsDiffs(a, a));
  }

  /** Exchanging the sequences negates the shoelace sum. */
  lemma {:induction false} CrossSumAntisymmetric(a: seq<Double>, b: seq<Double>, n: nat)
    requires n <= |a| && n <= |b|
    ensures CrossSum(b, a, n) == Neg(CrossSum(a, b, n))
  {
    if n > 1 {
      CrossSumAntisymmetric(a, b, n - 1);
      var p, q := Mul(a[n - 2], b[n - 1]), Mul(a[n - 1], b[n - 2]);
      NegDistributes(b[n - 2], a[n - 1]);
      NegDistributes(b[n - 1], a[n - 2]);
      assert Mul(b[n - 2], a[n - 1]) == q && Mul(b[n - 1], a[n - 2]) == p;
      SubAntisymmetric(q, p);
      assert CrossSum(b, a, n) == Add(CrossSum(b, a, n - 1), Sub(q, p));
      NegDistributes(CrossSum(a, b, n - 1), Sub(p, q));
    }
  }

  /** compareSequencesGauss is symmetric and never negative. */
  lemma GaussAreaSymmetric(a: seq<Double>, b: seq<Double>)
    requires |a| == |b|
    ensures GaussArea(a, b) == GaussArea(b, a)
    ensures IsFinite(GaussArea(a, b)) ==> GaussArea(a, b).r >= 0.0
  {
    var x := CrossSum(a, b, |a|);
    CrossSumAntisymmetric(a, b, |a|);
    NegDistributes(x, x);
    assert Abs(CrossSum(b, a, |b|)) == Abs(x);
    if IsFinite(GaussArea(a, b)) {
      assert IsFinite(Abs(x)) && Abs(x).r >= 0.0;
      DivNonNegative(Abs(x).r, 2.0);
    }
  }

  /** A finite sequence encloses no area with itself. */
  lemma {:induction false} CrossSumSelf(a: seq<Double>, n: nat)
    requires n <= |a| && forall i :: 0 <= i < |a| ==> IsFinite(a[i])
    ensures CrossSum(a, a, n) == Finite(0.0)
  {
    if n > 1 {
      CrossSumSelf(a, n - 1);
      assert IsFinite(a[n - 2]) && IsFinite(a[n - 1]);
    }
  }

  lemma GaussAreaSelf(a: seq<Double>)
    requires forall i :: 0 <= i < |a| ==> IsFinite(a[i])
    ensures GaussArea(a, a) == Finite(0.0)
  {
    CrossSumSelf(a, |a|);
  }
}
