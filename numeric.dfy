/**
 * Java `double` values as the system uses them: a finite real, NaN or an
 * infinity. Arithmetic follows IEEE-754 on these four cases; rounding,
 * overflow and the sign of zero are not modelled.
 */
module Numeric {

  datatype Double = Finite(r: real) | NaN | PosInf | NegInf

  /** Double.MAX_VALUE, (2 - 2^-52) * 2^1023. */
  const MaxValue: real := 179769313486231570814527423731704356798070567525844996598917476803157260780028538760589558632766878171540458953514382464234321326889464182768467546703537516986049910576551282076245490090389328944075868508455133942304583236903222948165808559332123348274797826204144723168738177180919299881250404026184124858368.0

  /** Double.isFinite */
  predicate IsFinite(d: Double)
  {
    d.Finite?
  }

  function Neg(a: Double): (r: Double)
    ensures IsFinite(r) <==> IsFinite(a)
    ensures r.NaN? <==> a.NaN?
  {
    match a
    case Finite(x) => Finite(-x)
    case NaN => NaN
    case PosInf => NegInf
    case NegInf => PosInf
  }

  function Add(a: Double, b: Double): (r: Double)
    ensures IsFinite(r) <==> IsFinite(a) && IsFinite(b)
    ensures IsFinite(a) && IsFinite(b) ==> r.r == a.r + b.r
    ensures a.NaN? || b.NaN? ==> r.NaN?
  {
    if a.NaN? || b.NaN? then NaN
    else if a.PosInf? then (if b.NegInf? then NaN else PosInf)
    else if a.NegInf? then (if b.PosInf? then NaN else NegInf)
    else if b.Finite? then Finite(a.r + b.r)
    else b
  }

  function Sub(a: Double, b: Double): (r: Double)
    ensures IsFinite(r) <==> IsFinite(a) && IsFinite(b)
    ensures IsFinite(a) && IsFinite(b) ==> r.r == a.r - b.r
  {
    Add(a, Neg(b))
  }

  /** Math.abs */
  function Abs(a: Double): (r: Double)
    ensures IsFinite(r) <==> IsFinite(a)
    ensures IsFinite(a) ==> r.r >= 0.0 && (r.r == a.r || r.r == -a.r)
  {
    match a
    case Finite(x) => Finite(if x < 0.0 then -x else x)
    case NaN => NaN
    case _ => PosInf
  }

  function Mul(a: Double, b: Double): (r: Double)
    ensures IsFinite(r) <==> IsFinite(a) && IsFinite(b)
    ensures IsFinite(a) && IsFinite(b) ==> r.r == a.r * b.r
  {
    if a.NaN? || b.NaN? then NaN
    else if a.Finite? && b.Finite? then Finite(a.r * b.r)
    else if a == Finite(0.0) || b == Finite(0.0) then NaN
    else if Positive(a) == Positive(b) then PosInf
    else NegInf
  }

  /** Division; x / 0 is an infinity or NaN, x / infinity is zero. */
  function Div(a: Double, b: Double): (r: Double)
    ensures IsFinite(r) <==> IsFinite(a) && (IsFinite(b) ==> b.r != 0.0) && (!IsFinite(b) ==> !b.NaN?)
    ensures IsFinite(a) && IsFinite(b) && b.r != 0.0 ==> r.r == a.r / b.r
    ensures a == Finite(0.0) && b == Finite(0.0) ==> r.NaN?
  {
    if a.NaN? || b.NaN? then NaN
    else if a.Finite? && b.Finite? then
      if b.r != 0.0 then Finite(a.r / b.r)
      else if a.r == 0.0 then NaN
      else if a.r > 0.0 then PosInf
      else NegInf
    else if a.Finite? then Finite(0.0)
    else if b.Finite? then (if b.r >= 0.0 then a else Neg(a))
    else NaN
  }

  /** Sign used by multiplication of non-NaN values. */
  predicate Positive(a: Double)
  {
    match a
    case Finite(x) => x > 0.0
    case PosInf => true
    case _ => false
  }

  /** Position on the extended real line, for comparisons of non-NaN values. */
  function Rank(a: Double): int
  {
    match a
    case NegInf => 0
    case Finite(_) => 1
    case _ => 2
  }

  /** The primitive comparison `a < b` (false whenever NaN is involved). */
  predicate Lt(a: Double, b: Double)
  {
    !a.NaN? && !b.NaN? &&
    (Rank(a) < Rank(b) || (a.Finite? && b.Finite? && a.r < b.r))
  }

  /** The primitive comparison `a <= b` (false whenever NaN is involved). */
  predicate Le(a: Double, b: Double)
  {
    !a.NaN? && !b.NaN? &&
    (Rank(a) < Rank(b) || (Rank(a) == Rank(b) && (a.Finite? ==> a.r <= b.r)))
  }

  /** Double.compare(a, b) <= 0: the total order in which NaN is the greatest value. */
  predicate CompareLe(a: Double, b: Double)
  {
    if b.NaN? then true
    else if a.NaN? then false
    else Le(a, b)
  }

  /** Double.compare orders every pair of values ... */
  lemma CompareLeTotal(a: Double, b: Double)
    ensures CompareLe(a, b) || CompareLe(b, a)
  {
  }

  /** ... transitively, so sorting by it is well defined. */
  lemma CompareLeTransitive(a: Double, b: Double, c: Double)
    requires CompareLe(a, b) && CompareLe(b, c)
    ensures CompareLe(a, c)
  {
  }

  /**
   * Stream.min with Double.compare: a left fold that keeps the earlier
   * element on ties, so the result is the first least score.
   */
  function MinByIndex(s: seq<Double>, n: nat): (r: nat)
    requires 0 < n <= |s|
    ensures r < n
    ensures forall j :: 0 <= j < n ==> CompareLe(s[r], s[j])
    ensures forall j :: 0 <= j < r ==> !CompareLe(s[j], s[r])
  {
    if n == 1 then 0
    else
      var a := MinByIndex(s, n - 1);
      if CompareLe(s[a], s[n - 1]) then a
      else
        CompareLeTotal(s[a], s[n - 1]);
        forall j | 0 <= j < n - 1
          ensures CompareLe(s[n - 1], s[j]) && !CompareLe(s[j], s[n - 1])
        {
          CompareLeTransitive(s[n - 1], s[a], s[j]);
          if CompareLe(s[j], s[n - 1]) {
            CompareLeTransitive(s[a], s[j], s[n - 1]);
          }
        }
        n - 1
  }

  /** Math.min: NaN if either argument is NaN. */
  function Min(a: Double, b: Double): (r: Double)
    ensures r.NaN? <==> a.NaN? || b.NaN?
    ensures !r.NaN? ==> Le(r, a) && Le(r, b) && (r == a || r == b)
  {
    if a.NaN? || b.NaN? then NaN else if Le(a, b) then a else b
  }

  /** Math.max: NaN if either argument is NaN. */
  function Max(a: Double, b: Double): (r: Double)
    ensures r.NaN? <==> a.NaN? || b.NaN?
    ensures !r.NaN? ==> Le(a, r) && Le(b, r) && (r == a || r == b)
  {
    if a.NaN? || b.NaN? then NaN else if Le(a, b) then b else a
  }

  /** DoubleStream.min(): Math.min folded left to right, so one NaN makes the result NaN. */
  function MinOf(s: seq<Double>): (r: Double)
    requires |s| > 0
    ensures r.NaN? <==> exists i :: 0 <= i < |s| && s[i].NaN?
    ensures !r.NaN? ==> forall i :: 0 <= i < |s| ==> Le(r, s[i])
    ensures r in s
  {
    if |s| == 1 then s[0]
    else
      var m := MinOf(s[..|s| - 1]);
      assert forall i :: 0 <= i < |s| - 1 ==> s[..|s| - 1][i] == s[i];
      Min(m, s[|s| - 1])
  }

  /** DoubleStream.max(), likewise. */
  function MaxOf(s: seq<Double>): (r: Double)
    requires |s| > 0
    ensures r.NaN? <==> exists i :: 0 <= i < |s| && s[i].NaN?
    ensures !r.NaN? ==> forall i :: 0 <= i < |s| ==> Le(s[i], r)
    ensures r in s
  {
    if |s| == 1 then s[0]
    else
      var m := MaxOf(s[..|s| - 1]);
      assert forall i :: 0 <= i < |s| - 1 ==> s[..|s| - 1][i] == s[i];
      Max(m, s[|s| - 1])
  }

  /** Sum of a sequence of doubles, left to right (DoubleStream.sum). */
  function SumD(s: seq<Double>): (r: Double)
    ensures IsFinite(r) <==> forall i :: 0 <= i < |s| ==> IsFinite(s[i])
  {
    if |s| == 0 then Finite(0.0) else Add(SumD(s[..|s| - 1]), s[|s| - 1])
  }

  /** Finite values of a sequence whose entries are all finite. */
  function Reals(s: seq<Double>): (r: seq<real>)
    requires forall i :: 0 <= i < |s| ==> IsFinite(s[i])
    ensures |r| == |s| && forall i :: 0 <= i < |s| ==> s[i] == Finite(r[i])
  {
    if |s| == 0 then [] else assert IsFinite(s[0]); [s[0].r] + Reals(s[1..])
  }

  /** Sum of reals, left to right. */
  function Sum(s: seq<real>): real
  {
    if |s| == 0 then 0.0 else Sum(s[..|s| - 1]) + s[|s| - 1]
  }

  lemma {:induction false} SumDOfFinite(s: seq<Double>)
    requires forall i :: 0 <= i < |s| ==> IsFinite(s[i])
    ensures SumD(s) == Finite(Sum(Reals(s)))
  {
    if |s| > 0 {
      SumDOfFinite(s[..|s| - 1]);
      assert Reals(s)[..|s| - 1] == Reals(s[..|s| - 1]);
    }
  }

  lemma {:induction false} SumNonNegative(s: seq<real>)
    requires forall i :: 0 <= i < |s| ==> s[i] >= 0.0
    ensures Sum(s) >= 0.0
  {
    if |s| > 0 {
      SumNonNegative(s[..|s| - 1]);
    }
  }

  lemma {:induction false} SumZero(s: seq<real>)
    requires forall i :: 0 <= i < |s| ==> s[i] == 0.0
    ensures Sum(s) == 0.0
  {
    if |s| > 0 {
      SumZero(s[..|s| - 1]);
    }
  }

  lemma {:induction false} SumAppend(s: seq<real>, t: seq<real>)
    ensures Sum(s + t) == Sum(s) + Sum(t)
    decreases |t|
  {
    if |t| > 0 {
      assert (s + t)[..|s + t| - 1] == s + t[..|t| - 1];
      SumAppend(s, t[..|t| - 1]);
    } else {
      assert s + t == s;
    }
  }

  lemma SubAntisymmetric(a: Double, b: Double)
    ensures Sub(a, b) == Neg(Sub(b, a))
  {
  }

  lemma NegDistributes(a: Double, b: Double)
    ensures Add(Neg(a), Neg(b)) == Neg(Add(a, b))
    ensures Abs(Neg(a)) == Abs(a)
    ensures Mul(a, b) == Mul(b, a)
  {
  }

  /** A non-negative finite value divided by a positive count stays non-negative. */
  lemma DivNonNegative(x: real, n: real)
    requires x >= 0.0 && n > 0.0
    ensures Div(Finite(x), Finite(n)) == Finite(x / n) && x / n >= 0.0
  {
  }

  /** A finite sum of non-negative terms is non-negative. */
  lemma {:induction false} SumDNonNegative(s: seq<Double>)
    requires forall i :: 0 <= i < |s| ==> IsFinite(s[i]) && s[i].r >= 0.0
    ensures IsFinite(SumD(s)) && SumD(s).r >= 0.0
  {
    if |s| > 0 {
      SumDNonNegative(s[..|s| - 1]);
    }
  }

  /** A sum of zeros is zero. */
  lemma {:induction false} SumDZero(s: seq<Double>)
    requires forall i :: 0 <= i < |s| ==> s[i] == Finite(0.0)
    ensures SumD(s) == Finite(0.0)
  {
    if |s| > 0 {
      SumDZero(s[..|s| - 1]);
    }
  }

  /** Truncation toward zero, as a Java cast from double to an integer type. */
  function Trunc(x: real): (r: int)
    ensures x >= 0.0 ==> r as real <= x < r as real + 1.0
    ensures x < 0.0 ==> r as real - 1.0 < x <= r as real
  {
    if x >= 0.0 then x.Floor else -((-x).Floor)
  }
}
