/**
 * The offline correlation finder (src/correlationFinder/CorrelationFinders.java):
 * the distance between two sensors' recent contexts, the greedy pairing of
 * sensors by context similarity, the remap and smoothing of the responses of
 * each pair, and the threshold between the low and the high cluster of
 * responses.
 */
module CorrelationFinders {
  import opened Wrappers
  import opened Numeric
  import opened ContextInfos

  /** CONTEXT_SIZE: samples before the current one that a context window holds. */
  const ContextSize: nat := 50

  /** A sensor is known by its name and the information it measures. */
  datatype SensorInfo = SensorInfo(name: string, info: ContextInfo)

  datatype SensorPair = SensorPair(left: SensorInfo, right: SensorInfo)

  /**
   * The recorded series of every sensor (`values`), with `sensors` the order
   * in which the key set of the map is iterated.
   */
  datatype Dataset = Dataset(sensors: seq<SensorInfo>, values: map<SensorInfo, seq<Double>>)

  predicate WellFormed(ds: Dataset)
  {
    forall k :: 0 <= k < |ds.sensors| ==> ds.sensors[k] in ds.values
  }

  /* ---------- contextDistance ---------- */

  /**
   * `series.subList(max(0, i - CONTEXT_SIZE), i + 1)`: the samples up to and
   * including sample i, at most CONTEXT_SIZE + 1 of them, with the exceptions
   * subList throws for a range outside the series.
   */
  function ContextWindow(series: seq<Double>, i: int): (r: Result<seq<Double>>)
    ensures r.Ok? <==> -1 <= i < |series|
    ensures r.Ok? ==> |r.value| == (if i >= ContextSize then ContextSize + 1 else i + 1)
    ensures r.Ok? ==> forall k :: 0 <= k < |r.value| ==> r.value[k] == series[i + 1 - |r.value| + k]
  {
    var from := if i - ContextSize > 0 then i - ContextSize else 0;
    if i + 1 > |series| then Err("IndexOutOfBoundsException")
    else if from > i + 1 then Err("IllegalArgumentException")
    else Ok(series[from..i + 1])
  }

  /** The terms of the distance: |s1[k] - s2[k]| for k from 1 to |s1| - 1. */
  function AbsDiffs(s1: seq<Double>, s2: seq<Double>): (r: seq<Double>)
    requires |s1| <= 1 || |s1| <= |s2|
    ensures |r| == if |s1| == 0 then 0 else |s1| - 1
    ensures forall k :: 0 <= k < |r| ==> r[k] == Abs(Sub(s1[k + 1], s2[k + 1]))
  {
    if |s1| <= 1 then []
    else seq(|s1| - 1, k requires 0 <= k < |s1| - 1 => Abs(Sub(s1[k + 1], s2[k + 1])))
  }

  /**
   * contextDistance: the sum of the absolute differences from index 1 on,
   * divided by the length of the first context; a second context shorter
   * than the first is indexed out of its bounds.
   */
  function ContextDistance(s1: seq<Double>, s2: seq<Double>): (r: Result<Double>)
    ensures r.Err? <==> 1 < |s1| && |s2| < |s1|
    ensures |s1| == 0 ==> r == Ok(NaN)
  {
    if 1 < |s1| && |s2| < |s1| then Err("IndexOutOfBoundsException")
    else Ok(Div(SumD(AbsDiffs(s1, s2)), Finite(|s1| as real)))
  }

  /** The same terms on reals. */
  function RealAbsDiffs(x: seq<real>, y: seq<real>): (r: seq<real>)
    requires |x| <= |y|
    ensures |r| == if |x| == 0 then 0 else |x| - 1
  {
    if |x| <= 1 then []
    else seq(|x| - 1, k requires 0 <= k < |x| - 1 => if x[k + 1] < y[k + 1] then y[k + 1] - x[k + 1] else x[k + 1] - y[k + 1])
  }

  /** The terms of the distance on finite contexts are the real terms. */
  lemma TermsOfFinite(s1: seq<Double>, s2: seq<Double>)
    requires 0 < |s1| <= |s2|
    requires forall k :: 0 <= k < |s1| ==> IsFinite(s1[k])
    requires forall k :: 0 <= k < |s2| ==> IsFinite(s2[k])
    ensures forall k :: 0 <= k < |AbsDiffs(s1, s2)| ==> IsFinite(AbsDiffs(s1, s2)[k])
    ensures Reals(AbsDiffs(s1, s2)) == RealAbsDiffs(Reals(s1), Reals(s2))
  {
    var terms := AbsDiffs(s1, s2);
    var x, y := Reals(s1), Reals(s2);
    var lhs, rhs := Reals(terms), RealAbsDiffs(x, y);
    forall k | 0 <= k < |rhs|
      ensures lhs[k] == rhs[k]
    {
      assert terms[k] == Abs(Sub(s1[k + 1], s2[k + 1]));
      assert s1[k + 1] == Finite(x[k + 1]) && s2[k + 1] == Finite(y[k + 1]);
    }
  }

  /** On finite contexts the distance is the real sum of the terms over n = |s1|, and never negative. */
  lemma DistanceOfFinite(s1: seq<Double>, s2: seq<Double>)
    requires 0 < |s1| <= |s2|
    requires forall k :: 0 <= k < |s1| ==> IsFinite(s1[k])
    requires forall k :: 0 <= k < |s2| ==> IsFinite(s2[k])
    ensures ContextDistance(s1, s2) == Ok(Finite(Sum(RealAbsDiffs(Reals(s1), Reals(s2))) / |s1| as real))
    ensures Sum(RealAbsDiffs(Reals(s1), Reals(s2))) / |s1| as real >= 0.0
  {
    var rhs := RealAbsDiffs(Reals(s1), Reals(s2));
    TermsOfFinite(s1, s2);
    SumDOfFinite(AbsDiffs(s1, s2));
    assert forall k :: 0 <= k < |rhs| ==> rhs[k] >= 0.0;
    SumNonNegative(rhs);
    DivNonNegative(Sum(rhs), |s1| as real);
  }

  /** A context is at distance 0 from itself. */
  lemma DistanceToSelf(s: seq<Double>)
    requires 0 < |s|
    requires forall k :: 0 <= k < |s| ==> IsFinite(s[k])
    ensures ContextDistance(s, s) == Ok(Finite(0.0))
  {
    var x := Reals(s);
    var rhs := RealAbsDiffs(x, x);
    forall k | 0 <= k < |rhs|
      ensures rhs[k] == 0.0
    {
    }
    SumZero(rhs);
    DistanceOfFinite(s, s);
    assert Sum(rhs) / |s| as real == 0.0;
  }

  /** The first sample of either context takes no part in the distance. */
  lemma DistanceIgnoresFirstSample(s1: seq<Double>, s2: seq<Double>, a: Double, b: Double)
    requires 0 < |s1| && 0 < |s2|
    ensures ContextDistance([a] + s1[1..], [b] + s2[1..]) == ContextDistance(s1, s2)
  {
    var t1, t2 := [a] + s1[1..], [b] + s2[1..];
    if !(1 < |s1| && |s2| < |s1|) {
      assert AbsDiffs(t1, t2) == AbsDiffs(s1, s2);
    }
  }

  /** Contexts of equal length are as far from each other in both directions. */
  lemma DistanceIsSymmetric(s1: seq<Double>, s2: seq<Double>)
    requires |s1| == |s2|
    ensures ContextDistance(s1, s2) == ContextDistance(s2, s1)
  {
    forall k | 1 <= k < |s1|
      ensures Abs(Sub(s1[k], s2[k])) == Abs(Sub(s2[k], s1[k]))
    {
      SubAntisymmetric(s1[k], s2[k]);
      NegDistributes(Sub(s2[k], s1[k]), Finite(0.0));
    }
    assert AbsDiffs(s1, s2) == AbsDiffs(s2, s1);
  }

  /* ---------- getSensorsPairsByContextSimilarity ---------- */

  /**
   * How the partner search treats its running score. As written the score is
   * never lowered from Double.MAX_VALUE; RunningMinimum lowers it to every
   * accepted distance.
   */
  datatype Scoring = FixedScore | RunningMinimum

  /** s2 may partner s1: another name, and not in a pair yet. */
  predicate Eligible(s1: SensorInfo, added: seq<SensorInfo>, s2: SensorInfo)
  {
    s2.name != s1.name && s2 !in added
  }

  /** The distance from the context c1 to the context of s2 at sample i. */
  function DistanceTo(ds: Dataset, i: int, c1: seq<Double>, s2: SensorInfo): Result<Double>
    requires s2 in ds.values
  {
    match ContextWindow(ds.values[s2], i)
    case Err(e) => Err(e)
    case Ok(c2) => ContextDistance(c1, c2)
  }

  /** The distance from the context c1 to every sensor's context at sample i. */
  function Distances(ds: Dataset, i: int, c1: seq<Double>): (m: map<SensorInfo, Result<Double>>)
  {
    map s | s in ds.values :: DistanceTo(ds, i, c1, s)
  }

  /** `dist` has a distance for every sensor of the dataset. */
  predicate Searchable(ds: Dataset, dist: map<SensorInfo, Result<Double>>)
  {
    WellFormed(ds) && ds.values.Keys <= dist.Keys
  }

  /**
   * The inner loop from position j on, with `dist` the distances from s1's
   * context, the partner found so far and the score a distance must be below.
   */
  function PartnerFrom(ds: Dataset, scoring: Scoring, s1: SensorInfo, dist: map<SensorInfo, Result<Double>>,
                       added: seq<SensorInfo>, j: nat, best: Option<SensorInfo>, score: Double): (r: Result<Option<SensorInfo>>)
    requires Searchable(ds, dist)
    requires best.Some? ==> Eligible(s1, added, best.value) && best.value in ds.sensors
    ensures r.Ok? && r.value.Some? ==> Eligible(s1, added, r.value.value) && r.value.value in ds.sensors
    decreases |ds.sensors| - j
  {
    if j >= |ds.sensors| then Ok(best)
    else
      var s2 := ds.sensors[j];
      if !Eligible(s1, added, s2) then PartnerFrom(ds, scoring, s1, dist, added, j + 1, best, score)
      else
        match dist[s2]
        case Err(e) => Err(e)
        case Ok(d) =>
          if Lt(d, score) then
            PartnerFrom(ds, scoring, s1, dist, added, j + 1, Some(s2), if scoring == RunningMinimum then d else score)
          else PartnerFrom(ds, scoring, s1, dist, added, j + 1, best, score)
  }

  /** The outer loop from position k on, with the sensors already paired and the pairs made. */
  function PairsFrom(ds: Dataset, i: int, scoring: Scoring, k: nat,
                     added: seq<SensorInfo>, pairs: seq<SensorPair>): (r: Result<seq<SensorPair>>)
    requires WellFormed(ds)
    ensures r.Ok? ==> |pairs| <= |r.value| && r.value[..|pairs|] == pairs
    decreases |ds.sensors| - k
  {
    if k >= |ds.sensors| then Ok(pairs)
    else
      var s1 := ds.sensors[k];
      if s1 in added then PairsFrom(ds, i, scoring, k + 1, added, pairs)
      else
        match ContextWindow(ds.values[s1], i)
        case Err(e) => Err(e)
        case Ok(c1) =>
          match PartnerFrom(ds, scoring, s1, Distances(ds, i, c1), added, 0, None, Finite(MaxValue))
          case Err(e) => Err(e)
          case Ok(None) => PairsFrom(ds, i, scoring, k + 1, added, pairs)
          case Ok(Some(b)) =>
            var r := PairsFrom(ds, i, scoring, k + 1, added + [s1, b], pairs + [SensorPair(s1, b)]);
            assert r.Ok? ==> r.value[..|pairs|] == (pairs + [SensorPair(s1, b)])[..|pairs|];
            r
  }

  /** The pairs getSensorsPairsByContextSimilarity(i) returns, under a scoring. */
  function SimilarityPairs(ds: Dataset, i: int, scoring: Scoring): (r: Result<seq<SensorPair>>)
    requires WellFormed(ds)
  {
    PairsFrom(ds, i, scoring, 0, [], [])
  }

  /** The sensors of a list of pairs, in order. */
  function Members(ps: seq<SensorPair>): (r: seq<SensorInfo>)
    ensures |r| == 2 * |ps|
  {
    if |ps| == 0 then [] else Members(ps[..|ps| - 1]) + [ps[|ps| - 1].left, ps[|ps| - 1].right]
  }

  predicate Distinct<T(==)>(s: seq<T>)
  {
    forall a, b :: 0 <= a < b < |s| ==> s[a] != s[b]
  }

  lemma {:induction false} PairsFromDisjoint(ds: Dataset, i: int, scoring: Scoring, k: nat,
                                             added: seq<SensorInfo>, pairs: seq<SensorPair>)
    requires WellFormed(ds)
    requires added == Members(pairs) && Distinct(added)
    requires forall p :: p in pairs ==> p.left.name != p.right.name
    requires forall s :: s in added ==> s in ds.sensors
    ensures var r := PairsFrom(ds, i, scoring, k, added, pairs);
      r.Ok? ==> Distinct(Members(r.value)) && (forall p :: p in r.value ==> p.left.name != p.right.name)
                && (forall s :: s in Members(r.value) ==> s in ds.sensors)
    decreases |ds.sensors| - k
  {
    if k < |ds.sensors| {
      var s1 := ds.sensors[k];
      if s1 in added {
        PairsFromDisjoint(ds, i, scoring, k + 1, added, pairs);
      } else {
        match ContextWindow(ds.values[s1], i)
        case Err(_) =>
        case Ok(c1) =>
          match PartnerFrom(ds, scoring, s1, Distances(ds, i, c1), added, 0, None, Finite(MaxValue))
          case Err(_) =>
          case Ok(None) => PairsFromDisjoint(ds, i, scoring, k + 1, added, pairs);
          case Ok(Some(b)) =>
            PairExtendsDisjoint(ds, added, pairs, s1, b);
            PairsFromDisjoint(ds, i, scoring, k + 1, added + [s1, b], pairs + [SensorPair(s1, b)]);
      }
    }
  }

  /** Pairing two unpaired sensors of different names keeps the pairs disjoint. */
  lemma PairExtendsDisjoint(ds: Dataset, added: seq<SensorInfo>, pairs: seq<SensorPair>, s1: SensorInfo, b: SensorInfo)
    requires added == Members(pairs) && Distinct(added)
    requires forall p :: p in pairs ==> p.left.name != p.right.name
    requires forall s :: s in added ==> s in ds.sensors
    requires s1 in ds.sensors && s1 !in added && Eligible(s1, added, b) && b in ds.sensors
    ensures var pairs' := pairs + [SensorPair(s1, b)];
      added + [s1, b] == Members(pairs') && Distinct(added + [s1, b]) &&
      (forall p :: p in pairs' ==> p.left.name != p.right.name) &&
      (forall s :: s in added + [s1, b] ==> s in ds.sensors)
  {
    var pairs' := pairs + [SensorPair(s1, b)];
    assert pairs'[..|pairs'| - 1] == pairs;
    assert s1 != b;
  }

  /**
   * No sensor appears in two pairs, the partners of a pair have different
   * names, and every paired sensor is one of the dataset's.
   */
  lemma PairsAreDisjoint(ds: Dataset, i: int, scoring: Scoring)
    requires WellFormed(ds)
    ensures var r := SimilarityPairs(ds, i, scoring);
      r.Ok? ==> Distinct(Members(r.value)) && (forall p :: p in r.value ==> p.left.name != p.right.name)
                && (forall s :: s in Members(r.value) ==> s in ds.sensors)
  {
    PairsFromDisjoint(ds, i, scoring, 0, [], []);
  }

  /** s2 passes the test against Double.MAX_VALUE, the score that is never lowered. */
  predicate Accepted(dist: map<SensorInfo, Result<Double>>, s1: SensorInfo, added: seq<SensorInfo>, s2: SensorInfo)
    requires s2 in dist
  {
    Eligible(s1, added, s2) && dist[s2].Ok? && Lt(dist[s2].value, Finite(MaxValue))
  }

  /** Every eligible sensor from position j0 on has a context at sample i. */
  predicate WindowsAvailable(ds: Dataset, dist: map<SensorInfo, Result<Double>>, s1: SensorInfo, added: seq<SensorInfo>, j0: nat)
    requires Searchable(ds, dist)
  {
    forall j :: j0 <= j < |ds.sensors| && Eligible(s1, added, ds.sensors[j]) ==> dist[ds.sensors[j]].Ok?
  }

  /** One step of the inner loop with the fixed score: an accepted sensor becomes the partner. */
  lemma FixedScoreStep(ds: Dataset, s1: SensorInfo, dist: map<SensorInfo, Result<Double>>,
                       added: seq<SensorInfo>, j0: nat, best: Option<SensorInfo>)
    requires Searchable(ds, dist) && WindowsAvailable(ds, dist, s1, added, j0) && j0 < |ds.sensors|
    requires best.Some? ==> Eligible(s1, added, best.value) && best.value in ds.sensors
    ensures var s2 := ds.sensors[j0];
            PartnerFrom(ds, FixedScore, s1, dist, added, j0, best, Finite(MaxValue)) ==
            PartnerFrom(ds, FixedScore, s1, dist, added, j0 + 1, if Accepted(dist, s1, added, s2) then Some(s2) else best, Finite(MaxValue))
  {
  }

  lemma {:induction false} NoCandidateKeepsBest(ds: Dataset, s1: SensorInfo, dist: map<SensorInfo, Result<Double>>,
                                                added: seq<SensorInfo>, j0: nat, best: Option<SensorInfo>)
    requires Searchable(ds, dist) && WindowsAvailable(ds, dist, s1, added, j0)
    requires best.Some? ==> Eligible(s1, added, best.value) && best.value in ds.sensors
    requires forall j :: j0 <= j < |ds.sensors| ==> !Accepted(dist, s1, added, ds.sensors[j])
    ensures PartnerFrom(ds, FixedScore, s1, dist, added, j0, best, Finite(MaxValue)) == Ok(best)
    decreases |ds.sensors| - j0
  {
    if j0 < |ds.sensors| {
      FixedScoreStep(ds, s1, dist, added, j0, best);
      NoCandidateKeepsBest(ds, s1, dist, added, j0 + 1, best);
    }
  }

  /**
   * As written, the partner is the last eligible sensor, in iteration order,
   * whose distance is below Double.MAX_VALUE, however near the others are.
   */
  lemma {:induction false} PartnerIsLastAccepted(ds: Dataset, s1: SensorInfo, dist: map<SensorInfo, Result<Double>>,
                                                 added: seq<SensorInfo>, j0: nat, best: Option<SensorInfo>, k: nat)
    requires Searchable(ds, dist) && WindowsAvailable(ds, dist, s1, added, j0)
    requires best.Some? ==> Eligible(s1, added, best.value) && best.value in ds.sensors
    requires j0 <= k < |ds.sensors| && Accepted(dist, s1, added, ds.sensors[k])
    requires forall j :: k < j < |ds.sensors| ==> !Accepted(dist, s1, added, ds.sensors[j])
    ensures PartnerFrom(ds, FixedScore, s1, dist, added, j0, best, Finite(MaxValue)) == Ok(Some(ds.sensors[k]))
    decreases k - j0
  {
    var s2 := ds.sensors[j0];
    FixedScoreStep(ds, s1, dist, added, j0, best);
    if j0 < k {
      if Accepted(dist, s1, added, s2) {
        PartnerIsLastAccepted(ds, s1, dist, added, j0 + 1, Some(s2), k);
      } else {
        PartnerIsLastAccepted(ds, s1, dist, added, j0 + 1, best, k);
      }
    } else {
      NoCandidateKeepsBest(ds, s1, dist, added, k + 1, Some(s2));
    }
  }

  /** One step of the inner loop with a running minimum: a nearer eligible sensor lowers the score. */
  lemma RunningMinimumStep(ds: Dataset, s1: SensorInfo, dist: map<SensorInfo, Result<Double>>,
                           added: seq<SensorInfo>, j0: nat, best: Option<SensorInfo>, score: Double)
    requires Searchable(ds, dist) && WindowsAvailable(ds, dist, s1, added, j0) && j0 < |ds.sensors|
    requires best.Some? ==> Eligible(s1, added, best.value) && best.value in ds.sensors
    ensures var s2 := ds.sensors[j0];
            PartnerFrom(ds, RunningMinimum, s1, dist, added, j0, best, score) ==
            if Eligible(s1, added, s2) && Lt(dist[s2].value, score)
            then PartnerFrom(ds, RunningMinimum, s1, dist, added, j0 + 1, Some(s2), dist[s2].value)
            else PartnerFrom(ds, RunningMinimum, s1, dist, added, j0 + 1, best, score)
  {
  }

  /**
   * With the score lowered to every accepted distance, the partner is a
   * sensor no accepted sensor is nearer than, and one is found whenever a
   * sensor is accepted.
   */
  lemma {:induction false} RunningMinimumIsNearest(ds: Dataset, s1: SensorInfo, dist: map<SensorInfo, Result<Double>>,
                                                   added: seq<SensorInfo>, j0: nat, best: Option<SensorInfo>, score: Double)
    requires Searchable(ds, dist) && WindowsAvailable(ds, dist, s1, added, j0)
    requires best.Some? ==> Eligible(s1, added, best.value) && best.value in ds.sensors
    requires best.Some? ==> dist[best.value] == Ok(score)
    requires best.None? ==> score == Finite(MaxValue)
    requires !score.NaN?
    ensures var r := PartnerFrom(ds, RunningMinimum, s1, dist, added, j0, best, score);
      r.Ok? && (r.value.Some? ==> dist[r.value.value].Ok?) &&
      (forall j :: j0 <= j < |ds.sensors| && Accepted(dist, s1, added, ds.sensors[j]) ==>
         r.value.Some? && !Lt(dist[ds.sensors[j]].value, dist[r.value.value].value))
    decreases |ds.sensors| - j0
  {
    RunningMinimumBound(ds, s1, dist, added, j0, best, score);
    if j0 < |ds.sensors| {
      var s2 := ds.sensors[j0];
      var r := PartnerFrom(ds, RunningMinimum, s1, dist, added, j0, best, score);
      var take := Eligible(s1, added, s2) && Lt(dist[s2].value, score);
      var best', score' := if take then Some(s2) else best, if take then dist[s2].value else score;
      RunningMinimumStep(ds, s1, dist, added, j0, best, score);
      assert r == PartnerFrom(ds, RunningMinimum, s1, dist, added, j0 + 1, best', score');
      RunningMinimumIsNearest(ds, s1, dist, added, j0 + 1, best', score');
      RunningMinimumBound(ds, s1, dist, added, j0 + 1, best', score');
      forall j | j0 <= j < |ds.sensors| && Accepted(dist, s1, added, ds.sensors[j])
        ensures r.value.Some? && !Lt(dist[ds.sensors[j]].value, dist[r.value.value].value)
      {
        if j == j0 {
          assert r.value.Some?;
          var d, dr := dist[s2].value, dist[r.value.value].value;
          assert Le(dr, d) || !Lt(d, score);
        }
      }
    }
  }

  /** With a running minimum, a partner is found unless none was found before, and it is within the score. */
  lemma {:induction false} RunningMinimumBound(ds: Dataset, s1: SensorInfo, dist: map<SensorInfo, Result<Double>>,
                                               added: seq<SensorInfo>, j0: nat, best: Option<SensorInfo>, score: Double)
    requires Searchable(ds, dist) && WindowsAvailable(ds, dist, s1, added, j0)
    requires best.Some? ==> Eligible(s1, added, best.value) && best.value in ds.sensors
    requires best.Some? ==> dist[best.value] == Ok(score)
    requires !score.NaN?
    ensures var r := PartnerFrom(ds, RunningMinimum, s1, dist, added, j0, best, score);
      r.Ok? && (r.value.None? ==> best.None?) &&
      (r.value.Some? ==> dist[r.value.value].Ok? && Le(dist[r.value.value].value, score))
    decreases |ds.sensors| - j0
  {
    if j0 < |ds.sensors| {
      var s2 := ds.sensors[j0];
      RunningMinimumStep(ds, s1, dist, added, j0, best, score);
      if Eligible(s1, added, s2) && Lt(dist[s2].value, score) {
        RunningMinimumBound(ds, s1, dist, added, j0 + 1, Some(s2), dist[s2].value);
      } else {
        RunningMinimumBound(ds, s1, dist, added, j0 + 1, best, score);
      }
    }
  }

  /** The inner loop of getSensorsPairsByContextSimilarity for the sensor s1 with context c1. */
  method BestSensor(ds: Dataset, i: int, s1: SensorInfo, c1: seq<Double>, added: seq<SensorInfo>)
    returns (r: Result<Option<SensorInfo>>)
    requires WellFormed(ds)
    ensures r == PartnerFrom(ds, FixedScore, s1, Distances(ds, i, c1), added, 0, None, Finite(MaxValue))
  {
    ghost var dist := Distances(ds, i, c1);
    var best: Option<SensorInfo> := None;
    var score := Finite(MaxValue);
    var j := 0;
    while j < |ds.sensors|
      invariant j <= |ds.sensors|
      invariant best.Some? ==> Eligible(s1, added, best.value) && best.value in ds.sensors
      invariant PartnerFrom(ds, FixedScore, s1, dist, added, j, best, score)
             == PartnerFrom(ds, FixedScore, s1, dist, added, 0, None, Finite(MaxValue))
    {
      var s2 := ds.sensors[j];
      assert dist[s2] == DistanceTo(ds, i, c1, s2);
      if Eligible(s1, added, s2) {
        var c2 := ContextWindow(ds.values[s2], i);
        if c2.Err? {
          return Err(c2.error);
        }
        var d := ContextDistance(c1, c2.value);
        if d.Err? {
          return Err(d.error);
        }
        if Lt(d.value, score) {
          best := Some(s2);
        }
      }
      j := j + 1;
    }
    return Ok(best);
  }

  /** getSensorsPairsByContextSimilarity(i), with its score never lowered. */
  method SensorsPairsByContextSimilarity(ds: Dataset, i: int) returns (r: Result<seq<SensorPair>>)
    requires WellFormed(ds)
    ensures r == SimilarityPairs(ds, i, FixedScore)
    ensures r.Ok? ==> Distinct(Members(r.value)) && forall p :: p in r.value ==> p.left.name != p.right.name
  {
    var added: seq<SensorInfo> := [];
    var pairs: seq<SensorPair> := [];
    var k := 0;
    while k < |ds.sensors|
      invariant k <= |ds.sensors|
      invariant PairsFrom(ds, i, FixedScore, k, added, pairs) == SimilarityPairs(ds, i, FixedScore)
    {
      var s1 := ds.sensors[k];
      if s1 !in added {
        var c1 := ContextWindow(ds.values[s1], i);
        if c1.Err? {
          return Err(c1.error);
        }
        var best := BestSensor(ds, i, s1, c1.value, added);
        if best.Err? {
          return Err(best.error);
        }
        if best.value.Some? {
          ghost var before := added;
          added := added + [s1];
          pairs := pairs + [SensorPair(s1, best.value.value)];
          added := added + [best.value.value];
          assert added == before + [s1, best.value.value];
        }
      }
      k := k + 1;
    }
    r := Ok(pairs);
    PairsAreDisjoint(ds, i, FixedScore);
  }

  /**
   * Three sensors of distinct names, each with at least two samples, where
   * the second is nearer to the first than the third is at sample 1.
   */
  predicate ThirdIsFarther(ds: Dataset)
  {
    WellFormed(ds) && |ds.sensors| == 3 &&
    ds.sensors[0].name != ds.sensors[1].name && ds.sensors[0].name != ds.sensors[2].name &&
    ds.sensors[1].name != ds.sensors[2].name &&
    (forall k :: 0 <= k < 3 ==> |ds.values[ds.sensors[k]]| >= 2) &&
    var c0 := ds.values[ds.sensors[0]][0..2];
    DistanceTo(ds, 1, c0, ds.sensors[1]).Ok? && DistanceTo(ds, 1, c0, ds.sensors[2]).Ok? &&
    Lt(DistanceTo(ds, 1, c0, ds.sensors[1]).value, DistanceTo(ds, 1, c0, ds.sensors[2]).value) &&
    Lt(DistanceTo(ds, 1, c0, ds.sensors[2]).value, Finite(MaxValue))
  }

  /** Example, beside the general distance lemmas: sensors A, B, C with series [0, 0], [0, 1] and [0, 5]: B is at distance 0.5 from A, C at 2.5. */
  lemma ThreeSensorsExample(ds: Dataset)
    requires ds.sensors == [SensorInfo("A", TEMP), SensorInfo("B", TEMP), SensorInfo("C", TEMP)]
    requires ds.values == map[SensorInfo("A", TEMP) := [Finite(0.0), Finite(0.0)],
                              SensorInfo("B", TEMP) := [Finite(0.0), Finite(1.0)],
                              SensorInfo("C", TEMP) := [Finite(0.0), Finite(5.0)]]
    ensures ThirdIsFarther(ds)
    ensures DistanceTo(ds, 1, ds.values[ds.sensors[0]], ds.sensors[1]) == Ok(Finite(0.5))
    ensures DistanceTo(ds, 1, ds.values[ds.sensors[0]], ds.sensors[2]) == Ok(Finite(2.5))
  {
    var a, b, c := ds.sensors[0], ds.sensors[1], ds.sensors[2];
    assert ds.values[a][0..2] == ds.values[a];
    DistanceFromFlat(ds, ds.values[a], b, 1.0);
    DistanceFromFlat(ds, ds.values[a], c, 5.0);
  }

  /** From the context [0, 0], a sensor whose samples are [0, x] is at distance x / 2 at sample 1. */
  lemma DistanceFromFlat(ds: Dataset, c1: seq<Double>, s2: SensorInfo, x: real)
    requires s2 in ds.values && ds.values[s2] == [Finite(0.0), Finite(x)]
    requires c1 == [Finite(0.0), Finite(0.0)] && x >= 0.0
    ensures DistanceTo(ds, 1, c1, s2) == Ok(Finite(x / 2.0))
  {
    assert ds.values[s2][0..2] == ds.values[s2];
    assert ContextWindow(ds.values[s2], 1) == Ok(ds.values[s2]);
    assert Sub(Finite(0.0), Finite(x)) == Finite(-x);
    assert AbsDiffs(c1, ds.values[s2]) == [Finite(x)];
    assert SumD([Finite(x)]) == Finite(x);
  }

  /** As written, the first sensor's search ends on the third sensor. */
  lemma FirstPartnerAsWritten(ds: Dataset)
    requires ThirdIsFarther(ds)
    ensures var a := ds.sensors[0];
            PartnerFrom(ds, FixedScore, a, Distances(ds, 1, ds.values[a][0..2]), [], 0, None, Finite(MaxValue))
            == Ok(Some(ds.sensors[2]))
  {
    var a := ds.sensors[0];
    var dist := Distances(ds, 1, ds.values[a][0..2]);
    assert dist[ds.sensors[1]] == DistanceTo(ds, 1, ds.values[a][0..2], ds.sensors[1]);
    assert dist[ds.sensors[2]] == DistanceTo(ds, 1, ds.values[a][0..2], ds.sensors[2]);
    PartnerIsLastAccepted(ds, a, dist, [], 0, None, 2);
  }

  /** As written, once the first and third are paired the second finds no partner. */
  lemma SecondUnpairedAsWritten(ds: Dataset)
    requires ThirdIsFarther(ds)
    ensures var a, b, c := ds.sensors[0], ds.sensors[1], ds.sensors[2];
            PairsFrom(ds, 1, FixedScore, 1, [a, c], [SensorPair(a, c)]) == Ok([SensorPair(a, c)])
  {
    var a, b, c := ds.sensors[0], ds.sensors[1], ds.sensors[2];
    assert ContextWindow(ds.values[b], 1) == Ok(ds.values[b][0..2]);
    SecondFindsNoneAsWritten(ds);
    assert PairsFrom(ds, 1, FixedScore, 2, [a, c], [SensorPair(a, c)]) == Ok([SensorPair(a, c)]);
  }

  /** As written, with the first and third paired, the second has no eligible partner left. */
  lemma SecondFindsNoneAsWritten(ds: Dataset)
    requires ThirdIsFarther(ds)
    ensures var a, b, c := ds.sensors[0], ds.sensors[1], ds.sensors[2];
            PartnerFrom(ds, FixedScore, b, Distances(ds, 1, ds.values[b][0..2]), [a, c], 0, None, Finite(MaxValue)) == Ok(None)
  {
    var a, b, c := ds.sensors[0], ds.sensors[1], ds.sensors[2];
    var dist := Distances(ds, 1, ds.values[b][0..2]);
    assert Searchable(ds, dist);
    assert PartnerFrom(ds, FixedScore, b, dist, [a, c], 2, None, Finite(MaxValue)) == Ok(None);
    assert PartnerFrom(ds, FixedScore, b, dist, [a, c], 1, None, Finite(MaxValue)) == Ok(None);
  }

  /**
   * As written, the first sensor is paired with the third although the
   * second is nearer to it, and the second is left without a partner.
   */
  lemma AsWrittenPairsWithLastCandidate(ds: Dataset)
    requires ThirdIsFarther(ds)
    ensures SimilarityPairs(ds, 1, FixedScore) == Ok([SensorPair(ds.sensors[0], ds.sensors[2])])
  {
    var a, c := ds.sensors[0], ds.sensors[2];
    assert ContextWindow(ds.values[a], 1) == Ok(ds.values[a][0..2]);
    FirstPartnerAsWritten(ds);
    SecondUnpairedAsWritten(ds);
    assert [] + [a, c] == [a, c] && [] + [SensorPair(a, c)] == [SensorPair(a, c)];
  }

  /** With a running minimum, the first sensor's search keeps the second sensor. */
  lemma FirstPartnerRunningMinimum(ds: Dataset)
    requires ThirdIsFarther(ds)
    ensures var a := ds.sensors[0];
            PartnerFrom(ds, RunningMinimum, a, Distances(ds, 1, ds.values[a][0..2]), [], 0, None, Finite(MaxValue))
            == Ok(Some(ds.sensors[1]))
  {
    var a, b, c := ds.sensors[0], ds.sensors[1], ds.sensors[2];
    var dist := Distances(ds, 1, ds.values[a][0..2]);
    assert dist[b] == DistanceTo(ds, 1, ds.values[a][0..2], b);
    assert dist[c] == DistanceTo(ds, 1, ds.values[a][0..2], c);
    var d1 := dist[b].value;
    assert PartnerFrom(ds, RunningMinimum, a, dist, [], 2, Some(b), d1) == Ok(Some(b));
    assert PartnerFrom(ds, RunningMinimum, a, dist, [], 1, None, Finite(MaxValue)) == Ok(Some(b));
  }

  /** With the first two sensors paired, the second is skipped and the third finds no partner. */
  lemma ThirdUnpairedRunningMinimum(ds: Dataset)
    requires ThirdIsFarther(ds)
    ensures var a, b := ds.sensors[0], ds.sensors[1];
            PairsFrom(ds, 1, RunningMinimum, 1, [a, b], [SensorPair(a, b)]) == Ok([SensorPair(a, b)])
  {
    var a, b, c := ds.sensors[0], ds.sensors[1], ds.sensors[2];
    var cc := ds.values[c][0..2];
    var dist := Distances(ds, 1, cc);
    assert ContextWindow(ds.values[c], 1) == Ok(cc);
    assert PartnerFrom(ds, RunningMinimum, c, dist, [a, b], 2, None, Finite(MaxValue)) == Ok(None);
    assert PartnerFrom(ds, RunningMinimum, c, dist, [a, b], 0, None, Finite(MaxValue)) == Ok(None);
    assert PairsFrom(ds, 1, RunningMinimum, 2, [a, b], [SensorPair(a, b)]) == Ok([SensorPair(a, b)]);
  }

  /** With a running minimum, the first sensor is paired with the second, the nearest. */
  lemma RunningMinimumPairsWithNearest(ds: Dataset)
    requires ThirdIsFarther(ds)
    ensures SimilarityPairs(ds, 1, RunningMinimum) == Ok([SensorPair(ds.sensors[0], ds.sensors[1])])
  {
    var a, b := ds.sensors[0], ds.sensors[1];
    assert ContextWindow(ds.values[a], 1) == Ok(ds.values[a][0..2]);
    FirstPartnerRunningMinimum(ds);
    ThirdUnpairedRunningMinimum(ds);
    assert [] + [a, b] == [a, b] && [] + [SensorPair(a, b)] == [SensorPair(a, b)];
  }

  /* ---------- setCorrelation ---------- */

  /** What the source keeps of a DeviceStatus: its sample index, response and boundaries. */
  datatype DeviceStatus = DeviceStatus(sampleIndex: int, response: Double, boundary: Double, maxBoundary: Double)

  /**
   * The remap of setCorrelation: a negative correlation q becomes 1 - |q|, so
   * that values near 1 mean correlated and values near 0 uncorrelated.
   */
  function Remapped(q: Double): (r: Double)
    ensures !Lt(q, Finite(0.0)) ==> r == q
    ensures Le(Finite(-1.0), q) && Le(q, Finite(1.0)) ==> Le(Finite(0.0), r) && Le(r, Finite(1.0))
  {
    if Lt(q, Finite(0.0)) then Sub(Finite(1.0), Abs(q)) else q
  }

  /**
   * A negative correlation in [-1, 0) lands in [0, 1), the stronger the
   * negative correlation the nearer to 0; values in [0, 1] are fixed points.
   */
  lemma RemapOfNegatives(q1: Double, q2: Double)
    requires Le(Finite(-1.0), q1) && Le(q1, q2) && Lt(q2, Finite(0.0))
    ensures Remapped(q1) == Finite(1.0 + q1.r) && Remapped(q2) == Finite(1.0 + q2.r)
    ensures Le(Finite(0.0), Remapped(q1)) && Le(Remapped(q1), Remapped(q2)) && Lt(Remapped(q2), Finite(1.0))
    ensures Remapped(Remapped(q1)) == Remapped(q1)
  {
  }

  /** The loop of setCorrelation that remaps the window's responses in place. */
  method RemapNegatives(a: array<Double>)
    modifies a
    ensures forall k :: 0 <= k < a.Length ==> a[k] == Remapped(old(a[k]))
  {
    var k := 0;
    while k < a.Length
      invariant 0 <= k <= a.Length
      invariant forall j :: 0 <= j < k ==> a[j] == Remapped(old(a[j]))
      invariant forall j :: k <= j < a.Length ==> a[j] == old(a[j])
    {
      if Lt(a[k], Finite(0.0)) {
        a[k] := Sub(Finite(1.0), Abs(a[k]));
      }
      k := k + 1;
    }
  }

  /** The first index of the last CONTEXT_SIZE statuses of a list of n. */
  function SmoothingStart(n: nat): (r: nat)
    ensures r <= n && n - r == (if n < ContextSize then n else ContextSize)
  {
    if n > ContextSize then n - ContextSize else 0
  }

  function RemappedResponses(statuses: seq<DeviceStatus>): (r: seq<Double>)
    ensures |r| == |statuses| && forall k :: 0 <= k < |r| ==> r[k] == Remapped(statuses[k].response)
  {
    seq(|statuses|, k requires 0 <= k < |statuses| => Remapped(statuses[k].response))
  }

  /**
   * The statuses of one pair after setCorrelation: the last CONTEXT_SIZE of
   * them all take the median of their remapped responses; the earlier ones,
   * every sample index and every boundary are left as they were.
   */
  function Smoothed(statuses: seq<DeviceStatus>, median: seq<Double> -> Double): (r: seq<DeviceStatus>)
    ensures |r| == |statuses|
    ensures forall k :: 0 <= k < |r| ==> r[k] == statuses[k].(response := r[k].response)
    ensures forall k :: 0 <= k < SmoothingStart(|statuses|) ==> r[k] == statuses[k]
    ensures forall k :: SmoothingStart(|statuses|) <= k < |r| ==>
              r[k].response == median(RemappedResponses(statuses[SmoothingStart(|statuses|)..]))
  {
    var start := SmoothingStart(|statuses|);
    var m := median(RemappedResponses(statuses[start..]));
    seq(|statuses|, k requires 0 <= k < |statuses| => if k < start then statuses[k] else statuses[k].(response := m))
  }

  /** The work setCorrelation does on the list of one pair. */
  method SmoothResponses(statuses: seq<DeviceStatus>, median: seq<Double> -> Double) returns (r: seq<DeviceStatus>)
    ensures r == Smoothed(statuses, median)
  {
    var start := SmoothingStart(|statuses|);
    var window := statuses[start..];
    var values := new Double[|window|](k requires 0 <= k < |window| => window[k].response);
    RemapNegatives(values);
    assert values[..] == RemappedResponses(window);
    var avg := median(values[..]);
    r := statuses;
    var j := start;
    while j < |statuses|
      invariant start <= j <= |statuses| && |r| == |statuses|
      invariant forall k :: 0 <= k < j ==> r[k] == Smoothed(statuses, median)[k]
      invariant forall k :: j <= k < |r| ==> r[k] == statuses[k]
    {
      r := r[j := r[j].(response := avg)];
      j := j + 1;
    }
  }

  /** setCorrelation: every pair's list is smoothed, each on its own. */
  method SetCorrelation(couples: map<SensorPair, seq<DeviceStatus>>, median: seq<Double> -> Double)
    returns (r: map<SensorPair, seq<DeviceStatus>>)
    ensures r.Keys == couples.Keys
    ensures forall p :: p in couples ==> r[p] == Smoothed(couples[p], median)
  {
    r := couples;
    var todo := couples.Keys;
    while todo != {}
      invariant todo <= couples.Keys && r.Keys == couples.Keys
      invariant forall p :: p in couples && p !in todo ==> r[p] == Smoothed(couples[p], median)
      invariant forall p :: p in todo ==> r[p] == couples[p]
      decreases |todo|
    {
      var p :| p in todo;
      var smoothed := SmoothResponses(r[p], median);
      r := r[p := smoothed];
      todo := todo - {p};
    }
  }

  /* ---------- evaluateThresholdByThreeClusters ---------- */

  datatype Clusters = Clusters(low: seq<Double>, high: seq<Double>)

  /**
   * The clustering loop from position k on: a value already in either
   * cluster is skipped; otherwise it joins the cluster whose standard
   * deviation it changes less, the low one on a tie.
   */
  function ClustersFrom(values: seq<Double>, k: nat, c: Clusters, sd: seq<Double> -> Double): (r: Clusters)
    ensures |r.low| >= |c.low| && |r.high| >= |c.high|
    decreases |values| - k
  {
    if k >= |values| then c
    else
      var d := values[k];
      if d in c.low || d in c.high then ClustersFrom(values, k + 1, c, sd)
      else
        var lowDiff := Abs(Sub(sd(c.low + [d]), sd(c.low)));
        var highDiff := Abs(Sub(sd(c.high + [d]), sd(c.high)));
        if Le(lowDiff, highDiff) then ClustersFrom(values, k + 1, Clusters(c.low + [d], c.high), sd)
        else ClustersFrom(values, k + 1, Clusters(c.low, c.high + [d]), sd)
  }

  /** The clusters seeded with the 25th (low) and 75th (high) percentiles. */
  function Clustered(values: seq<Double>, percentile: (seq<Double>, real) -> Double, sd: seq<Double> -> Double): (r: Clusters)
    ensures |r.low| > 0 && |r.high| > 0
  {
    ClustersFrom(values, 0, Clusters([percentile(values, 25.0)], [percentile(values, 75.0)]), sd)
  }

  /** (max(low) + min(high)) * 0.5 */
  function Midpoint(c: Clusters): Double
    requires |c.low| > 0 && |c.high| > 0
  {
    Mul(Add(MaxOf(c.low), MinOf(c.high)), Finite(0.5))
  }

  lemma {:induction false} ClustersFromCover(values: seq<Double>, k: nat, c: Clusters, sd: seq<Double> -> Double)
    requires k <= |values|
    ensures var r := ClustersFrom(values, k, c, sd);
      r.low[..|c.low|] == c.low && r.high[..|c.high|] == c.high &&
      (forall j :: k <= j < |values| ==> values[j] in r.low || values[j] in r.high) &&
      (forall x :: x in r.low ==> x in c.low || x in values[k..]) &&
      (forall x :: x in r.high ==> x in c.high || x in values[k..])
    decreases |values| - k
  {
    if k < |values| {
      var d := values[k];
      var r := ClustersFrom(values, k, c, sd);
      if d in c.low || d in c.high {
        ClustersFromCover(values, k + 1, c, sd);
      } else {
        var lowDiff := Abs(Sub(sd(c.low + [d]), sd(c.low)));
        var highDiff := Abs(Sub(sd(c.high + [d]), sd(c.high)));
        var next := if Le(lowDiff, highDiff) then Clusters(c.low + [d], c.high) else Clusters(c.low, c.high + [d]);
        ClustersFromCover(values, k + 1, next, sd);
        assert r.low[..|c.low|] == next.low[..|next.low|][..|c.low|];
        assert r.high[..|c.high|] == next.high[..|next.high|][..|c.high|];
        assert d in next.low || d in next.high;
      }
      assert forall x :: x in values[k + 1..] ==> x in values[k..];
    }
  }

  /**
   * Every value ends up in the low or the high cluster, which start from the
   * 25th and 75th percentiles and hold nothing else but the values.
   */
  lemma EveryValueIsClustered(values: seq<Double>, percentile: (seq<Double>, real) -> Double, sd: seq<Double> -> Double)
    ensures var c := Clustered(values, percentile, sd);
      c.low[0] == percentile(values, 25.0) && c.high[0] == percentile(values, 75.0) &&
      (forall d :: d in values ==> d in c.low || d in c.high) &&
      (forall x :: x in c.low ==> x == percentile(values, 25.0) || x in values) &&
      (forall x :: x in c.high ==> x == percentile(values, 75.0) || x in values)
  {
    var seed := Clusters([percentile(values, 25.0)], [percentile(values, 75.0)]);
    ClustersFromCover(values, 0, seed, sd);
    var c := Clustered(values, percentile, sd);
    assert c.low[..1] == seed.low && c.high[..1] == seed.high;
    assert values[0..] == values;
  }

  /**
   * The threshold lies halfway between the largest low value and the
   * smallest high value: as far above the one as below the other.
   */
  lemma MidpointIsHalfway(c: Clusters)
    requires |c.low| > 0 && |c.high| > 0
    requires IsFinite(MaxOf(c.low)) && IsFinite(MinOf(c.high))
    ensures IsFinite(Midpoint(c))
    ensures Sub(Midpoint(c), MaxOf(c.low)) == Sub(MinOf(c.high), Midpoint(c))
    ensures Le(MaxOf(c.low), MinOf(c.high)) ==> Le(MaxOf(c.low), Midpoint(c)) && Le(Midpoint(c), MinOf(c.high))
  {
  }

  /** evaluateThresholdByThreeClusters */
  method EvaluateThresholdByThreeClusters(values: seq<Double>, percentile: (seq<Double>, real) -> Double,
                                          sd: seq<Double> -> Double) returns (r: Double)
    ensures r == Midpoint(Clustered(values, percentile, sd))
  {
    var maxValue := percentile(values, 75.0);
    var minValue := percentile(values, 25.0);
    var low := [minValue];
    var high := [maxValue];
    var k := 0;
    while k < |values|
      invariant k <= |values|
      invariant ClustersFrom(values, k, Clusters(low, high), sd) == Clustered(values, percentile, sd)
    {
      var d := values[k];
      if d !in low && d !in high {
        var newLowVariance := sd(low + [d]);
        var newHighVariance := sd(high + [d]);
        var previousLowVariance := sd(low);
        var previousHighVariance := sd(high);
        var lowDiff := Abs(Sub(newLowVariance, previousLowVariance));
        var highDiff := Abs(Sub(newHighVariance, previousHighVariance));
        if Le(lowDiff, highDiff) {
          low := low + [d];
        } else {
          high := high + [d];
        }
      }
      k := k + 1;
    }
    var thLow := MaxOf(low);
    var thHigh := MinOf(high);
    r := Mul(Add(thLow, thHigh), Finite(0.5));
  }
}
