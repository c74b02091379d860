/**
 * Imputation of a missing value from the last step of similar contexts
 * (src/context/estimation/ContextEstimationImpl.java).
 */
module Estimation {
  import opened Wrappers
  import opened Numeric
  import opened ContextEntries
  import opened Contexts

  /** The context comparison strategy installed in Context (a parameter here). */
  type Comparator = (ContextData, ContextData) -> Double

  /** A (finalDataIdx, score) pair supplied from outside. */
  type WeightPair = (int, Double)

  /** The last step of a context: its last value minus the one before. */
  function LastDelta(c: ContextData): Double
    requires |c.entries| >= 2
  {
    Sub(c.entries[|c.entries| - 1].value, c.entries[|c.entries| - 2].value)
  }

  /** The candidates impute considers: the reference's size and not equal to it. */
  function Eligible(ref: ContextData, cands: seq<ContextData>): (r: seq<ContextData>)
    ensures |r| <= |cands|
    ensures forall i :: 0 <= i < |r| ==> |r[i].entries| == |ref.entries| && !Same(r[i], ref) && r[i] in cands
  {
    if |cands| == 0 then []
    else
      var rest := Eligible(ref, cands[..|cands| - 1]);
      var c := cands[|cands| - 1];
      if |c.entries| == |ref.entries| && !Same(c, ref) then rest + [c] else rest
  }

  /** The score of the first pair carrying index `idx`, if any. */
  function FindWeight(ws: seq<WeightPair>, idx: int): (r: Option<Double>)
    ensures r.Some? <==> exists k :: 0 <= k < |ws| && ws[k].0 == idx
    ensures r.Some? ==> exists k :: 0 <= k < |ws| && ws[k] == (idx, r.value) &&
                                   forall j :: 0 <= j < k ==> ws[j].0 != idx
  {
    if |ws| == 0 then None
    else if ws[0].0 == idx then Some(ws[0].1)
    else
      var r := FindWeight(ws[1..], idx);
      if r.Some? then
        var k :| 0 <= k < |ws[1..]| && ws[1..][k] == (idx, r.value) && forall j :: 0 <= j < k ==> ws[1..][j].0 != idx;
        assert ws[k + 1] == (idx, r.value);
        r
      else r
  }

  /** The weight of one candidate: the supplied score, or maxScore - score. */
  function WeightOf(c: ContextData, score: Double, maxScore: Double, weights: Option<seq<WeightPair>>): Option<Double>
  {
    if weights.Some? then FindWeight(weights.value, c.finalDataIdx)
    else Some(Sub(maxScore, score))
  }

  /** The (delta, weight) pairs of the candidates that are used, in order. */
  function Used(el: seq<ContextData>, scores: seq<Double>, maxScore: Double, weights: Option<seq<WeightPair>>, n: nat): (r: seq<(Double, Double)>)
    requires n <= |el| == |scores|
    requires forall i :: 0 <= i < |el| ==> |el[i].entries| >= 2
    ensures |r| <= n
    ensures weights.None? ==> |r| == n
  {
    if n == 0 then []
    else
      var rest := Used(el, scores, maxScore, weights, n - 1);
      var w := WeightOf(el[n - 1], scores[n - 1], maxScore, weights);
      if w.Some? then rest + [(LastDelta(el[n - 1]), w.value)] else rest
  }

  function Scores(ref: ContextData, el: seq<ContextData>, cmp: Comparator): (r: seq<Double>)
    ensures |r| == |el| && forall i :: 0 <= i < |el| ==> r[i] == cmp(ref, el[i])
  {
    seq(|el|, i requires 0 <= i < |el| => cmp(ref, el[i]))
  }

  /** DoubleStream.max().orElse(NaN) */
  function MaxScore(scores: seq<Double>): Double
  {
    if |scores| == 0 then NaN else MaxOf(scores)
  }

  /** Σ delta * weight / Σ weight */
  function Quotient(kv: seq<(Double, Double)>): Double
  {
    Div(SumD(seq(|kv|, i requires 0 <= i < |kv| => Mul(kv[i].0, kv[i].1))),
        SumD(seq(|kv|, i requires 0 <= i < |kv| => kv[i].1)))
  }

  /**
   * What impute returns: the weighted mean of the candidates' last steps, or
   * the reference's own last step when that mean is not finite. A reference
   * of fewer than two entries fails (ArrayIndexOutOfBoundsException), whether
   * at the first candidate or at the fallback.
   */
  function ImputeSpec(ref: ContextData, cands: seq<ContextData>, weights: Option<seq<WeightPair>>, cmp: Comparator): Result<Double>
  {
    if |ref.entries| < 2 then Err("ArrayIndexOutOfBoundsException")
    else
      var el := Eligible(ref, cands);
      var scores := Scores(ref, el, cmp);
      var q := Quotient(Used(el, scores, MaxScore(scores), weights, |el|));
      Ok(if IsFinite(q) then q else LastDelta(ref))
  }

  /** impute: the candidate loop builds the (delta, weight) list, then the quotient is taken. */
  method Impute(ref: ContextData, cands: seq<ContextData>, weights: Option<seq<WeightPair>>, cmp: Comparator)
    returns (r: Result<Double>)
    ensures r == ImputeSpec(ref, cands, weights, cmp)
    ensures r.Err? <==> |ref.entries| < 2
  {
    var el := Eligible(ref, cands);
    var scores := Scores(ref, el, cmp);
    var maxWeight := MaxScore(scores);
    if |ref.entries| < 2 {
      return Err("ArrayIndexOutOfBoundsException");
    }
    var kv := WeighCandidates(el, scores, maxWeight, weights);
    var q := Quotient(kv);
    if !IsFinite(q) {
      q := LastDelta(ref);
    }
    r := Ok(q);
  }

  lemma {:induction false} NothingEligible(ref: ContextData, cands: seq<ContextData>)
    requires forall i :: 0 <= i < |cands| ==> |cands[i].entries| != |ref.entries| || Same(cands[i], ref)
    ensures Eligible(ref, cands) == []
  {
    if |cands| > 0 {
      NothingEligible(ref, cands[..|cands| - 1]);
    }
  }

  /** The candidate loop of impute: each eligible context contributes its last step and its weight. */
  method WeighCandidates(el: seq<ContextData>, scores: seq<Double>, maxWeight: Double, weights: Option<seq<WeightPair>>)
    returns (kv: seq<(Double, Double)>)
    requires |el| == |scores|
    requires forall i :: 0 <= i < |el| ==> |el[i].entries| >= 2
    ensures kv == Used(el, scores, maxWeight, weights, |el|)
  {
    kv := [];
    var i := 0;
    while i < |el|
      invariant 0 <= i <= |el|
      invariant kv == Used(el, scores, maxWeight, weights, i)
    {
      var theContext := el[i];
      var valDiff := LastDelta(theContext);
      ghost var w := WeightOf(theContext, scores[i], maxWeight, weights);
      assert Used(el, scores, maxWeight, weights, i + 1) == if w.Some? then kv + [(valDiff, w.value)] else kv;
      if weights.Some? {
        var pp := FindWeight(weights.value, theContext.finalDataIdx);
        if pp.Some? {
          kv := kv + [(valDiff, pp.value)];
        }
      } else {
        kv := kv + [(valDiff, Sub(maxWeight, scores[i]))];
      }
      i := i + 1;
    }
  }

  /** With no usable candidate the quotient is 0/0 and impute falls back to the reference's last step. */
  lemma FallbackWithoutCandidates(ref: ContextData, cands: seq<ContextData>, weights: Option<seq<WeightPair>>, cmp: Comparator)
    requires |ref.entries| >= 2
    requires forall i :: 0 <= i < |cands| ==> |cands[i].entries| != |ref.entries| || Same(cands[i], ref)
    ensures ImputeSpec(ref, cands, weights, cmp) == Ok(LastDelta(ref))
  {
    NothingEligible(ref, cands);
    assert Quotient([]) == Div(Finite(0.0), Finite(0.0));
  }

  /**
   * Without supplied weights every weight is maxScore - score: with finite
   * scores each is finite and non-negative, and the farthest candidate's is 0.
   */
  lemma {:induction false} InternalWeightsNonNegative(el: seq<ContextData>, scores: seq<Double>, n: nat)
    requires n <= |el| == |scores| && |scores| > 0
    requires forall i :: 0 <= i < |el| ==> |el[i].entries| >= 2
    requires forall i :: 0 <= i < |scores| ==> IsFinite(scores[i])
    ensures var kv := Used(el, scores, MaxScore(scores), None, n);
            forall k :: 0 <= k < |kv| ==> IsFinite(kv[k].1) && kv[k].1.r >= 0.0 && kv[k].1 == Sub(MaxScore(scores), scores[k])
  {
    if n > 0 {
      InternalWeightsNonNegative(el, scores, n - 1);
      var m := MaxScore(scores);
      assert IsFinite(scores[0]) && !scores[0].NaN?;
      assert !m.NaN? && Le(scores[n - 1], m) && m in scores;
    }
  }

  /** The candidate with the largest score gets weight 0. */
  lemma FarthestGetsZero(scores: seq<Double>, k: nat)
    requires k < |scores| && forall i :: 0 <= i < |scores| ==> IsFinite(scores[i])
    requires scores[k] == MaxScore(scores)
    ensures Sub(MaxScore(scores), scores[k]) == Finite(0.0)
  {
  }

  /**
   * With supplied weights every weight used is the score of a supplied pair,
   * and a candidate whose finalDataIdx no pair carries is skipped.
   */
  lemma {:induction false} SuppliedWeightsAreUsedUnchanged(el: seq<ContextData>, scores: seq<Double>, m: Double, ws: seq<WeightPair>, n: nat)
    requires n <= |el| == |scores|
    requires forall i :: 0 <= i < |el| ==> |el[i].entries| >= 2
    ensures var kv := Used(el, scores, m, Some(ws), n);
            forall k :: 0 <= k < |kv| ==> exists j :: 0 <= j < |ws| && ws[j].1 == kv[k].1
    ensures (forall i :: 0 <= i < n ==> FindWeight(ws, el[i].finalDataIdx).None?) ==> Used(el, scores, m, Some(ws), n) == []
  {
    if n > 0 {
      SuppliedWeightsAreUsedUnchanged(el, scores, m, ws, n - 1);
    }
  }

  lemma WorkedExampleEligible(ref: ContextData, a: ContextData, b: ContextData)
    requires |a.entries| == |ref.entries| && |b.entries| == |ref.entries|
    requires !Same(a, ref) && !Same(b, ref)
    ensures Eligible(ref, [a, b]) == [a, b]
  {
    assert [a, b][..1] == [a];
    assert Eligible(ref, [a]) == [a];
  }

  lemma WorkedExampleUsed(a: ContextData, b: ContextData, scores: seq<Double>, m: Double)
    requires ValuesOf(a.entries) == [Finite(0.0), Finite(0.0), Finite(1.0)] && a.finalDataIdx == 5
    requires ValuesOf(b.entries) == [Finite(0.0), Finite(1.0), Finite(0.0)] && b.finalDataIdx == 6
    requires |scores| == 2
    ensures Used([a, b], scores, m, Some([(5, Finite(2.0)), (6, Finite(1.0))]), 2) ==
            [(Finite(1.0), Finite(2.0)), (Finite(-1.0), Finite(1.0))]
  {
    var ws := [(5, Finite(2.0)), (6, Finite(1.0))];
    assert ValuesOf(a.entries)[2] == a.entries[2].value && ValuesOf(a.entries)[1] == a.entries[1].value;
    assert ValuesOf(b.entries)[2] == b.entries[2].value && ValuesOf(b.entries)[1] == b.entries[1].value;
    assert LastDelta(a) == Finite(1.0) && LastDelta(b) == Finite(-1.0);
    assert FindWeight(ws, 5) == Some(Finite(2.0));
    assert FindWeight(ws, 6) == Some(Finite(1.0));
    assert Used([a, b], scores, m, Some(ws), 1) == [(Finite(1.0), Finite(2.0))];
  }

  lemma WorkedExampleQuotient()
    ensures Quotient([(Finite(1.0), Finite(2.0)), (Finite(-1.0), Finite(1.0))]) == Finite(1.0 / 3.0)
  {
    var kv := [(Finite(1.0), Finite(2.0)), (Finite(-1.0), Finite(1.0))];
    var num := seq(|kv|, i requires 0 <= i < |kv| => Mul(kv[i].0, kv[i].1));
    var den := seq(|kv|, i requires 0 <= i < |kv| => kv[i].1);
    assert num == [Finite(2.0), Finite(-1.0)];
    assert den == [Finite(2.0), Finite(1.0)];
    assert num[..1] == [Finite(2.0)] && den[..1] == [Finite(2.0)];
    assert SumD(num[..1]) == Finite(2.0) && SumD(den[..1]) == Finite(2.0);
    assert SumD(num) == Finite(1.0);
    assert SumD(den) == Finite(3.0);
  }

  /** Example, beside the general lemmas above: steps +1 (weight 2) and -1 (weight 1) give (2 - 1) / 3 = 1/3. */
  lemma WorkedExample(ref: ContextData, a: ContextData, b: ContextData, cmp: Comparator)
    requires |ref.entries| == 3 && forall i :: 0 <= i < 3 ==> IsFinite(ref.entries[i].value)
    requires ValuesOf(a.entries) == [Finite(0.0), Finite(0.0), Finite(1.0)] && a.finalDataIdx == 5
    requires ValuesOf(b.entries) == [Finite(0.0), Finite(1.0), Finite(0.0)] && b.finalDataIdx == 6
    requires !Same(a, ref) && !Same(b, ref)
    ensures ImputeSpec(ref, [a, b], Some([(5, Finite(2.0)), (6, Finite(1.0))]), cmp) == Ok(Finite(1.0 / 3.0))
  {
    WorkedExampleEligible(ref, a, b);
    WorkedExampleUsed(a, b, Scores(ref, [a, b], cmp), MaxScore(Scores(ref, [a, b], cmp)));
    WorkedExampleQuotient();
  }
}
