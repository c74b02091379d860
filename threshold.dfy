/**
 * Threshold evaluation of a contact sensor
 * (src/agent/contactSensor/impl/ThresholdEvaluationImpl.java and
 * PearsonThresholdEvaluation.java): k-means centroids of a pair's finite
 * correlations serve as thresholds, and getClass finds the interval between
 * consecutive sorted thresholds that holds a correlation.
 */
module Thresholds {
  import opened Numeric
  import opened Seqs

  const MaxKMeansIter: nat := 10
  const MaxKMeansClust: nat := 2

  /** What the k-means library returns for the data: a label per point and the centroids. */
  datatype Clustering = Clustering(labels: seq<int>, centroids: seq<Double>)

  /* ---------- calculate ---------- */

  /** corrs.removeIf(x -> !Double.isFinite(x)) */
  function FiniteOnly(s: seq<Double>): (r: seq<Double>)
    ensures |r| <= |s|
    ensures forall i :: 0 <= i < |r| ==> IsFinite(r[i])
    ensures forall x :: x in r <==> x in s && IsFinite(x)
  {
    if |s| == 0 then []
    else
      var init := FiniteOnly(s[..|s| - 1]);
      assert s == s[..|s| - 1] + [s[|s| - 1]];
      if IsFinite(s[|s| - 1]) then init + [s[|s| - 1]] else init
  }

  /** A list of finite values loses nothing, so filtering twice is filtering once. */
  lemma {:induction false} FiniteOnlyKeepsFiniteLists(s: seq<Double>)
    requires forall i :: 0 <= i < |s| ==> IsFinite(s[i])
    ensures FiniteOnly(s) == s
  {
    if |s| > 0 {
      FiniteOnlyKeepsFiniteLists(s[..|s| - 1]);
      assert s[..|s| - 1] + [s[|s| - 1]] == s;
    }
  }

  /* ---------- getClass ---------- */

  /** corr lies in [ths[j], ths[j + 1]] by the primitive comparisons. */
  predicate Brackets(corr: Double, ths: seq<Double>, j: int)
  {
    0 <= j && j + 1 < |ths| && Le(ths[j], corr) && Le(corr, ths[j + 1])
  }

  /** The class getClass falls back to: the last interval, or 0 with fewer than two thresholds. */
  function LastClass(ths: seq<Double>): nat
  {
    if |ths| < 2 then 0 else |ths| - 2
  }

  /** The scan of getClass from index i on: it stops when i + 1 reaches the length. */
  function ClassFrom(corr: Double, ths: seq<Double>, i: nat): (r: nat)
    requires i >= 1
    decreases |ths| - i
  {
    if i + 1 < |ths| then
      if Le(ths[i - 1], corr) && Le(corr, ths[i]) then i - 1 else ClassFrom(corr, ths, i + 1)
    else i - 1
  }

  function ClassOf(corr: Double, ths: seq<Double>): nat
  {
    ClassFrom(corr, ths, 1)
  }

  lemma {:induction false} ClassFromSpec(corr: Double, ths: seq<Double>, i: nat)
    requires 1 <= i && (i + 1 < |ths| || i == 1)
    ensures i - 1 <= ClassFrom(corr, ths, i) <= LastClass(ths)
    ensures forall j :: i - 1 <= j < ClassFrom(corr, ths, i) ==> !Brackets(corr, ths, j)
    ensures ClassFrom(corr, ths, i) < LastClass(ths) ==> Brackets(corr, ths, ClassFrom(corr, ths, i))
    decreases |ths| - i
  {
    if i + 1 < |ths| && !(Le(ths[i - 1], corr) && Le(corr, ths[i])) && i + 2 < |ths| {
      ClassFromSpec(corr, ths, i + 1);
    }
  }

  /**
   * The class is the first interval that holds corr among all but the last;
   * when none does, it is the last interval's class, which is never compared against.
   * Those three facts determine the result.
   */
  lemma ClassOfSpec(corr: Double, ths: seq<Double>)
    ensures ClassOf(corr, ths) <= LastClass(ths)
    ensures forall j :: 0 <= j < ClassOf(corr, ths) ==> !Brackets(corr, ths, j)
    ensures ClassOf(corr, ths) < LastClass(ths) ==> Brackets(corr, ths, ClassOf(corr, ths))
  {
    ClassFromSpec(corr, ths, 1);
  }

  /** Comparing non-NaN values by `<=` is total and transitive. */
  lemma LeTotal(a: Double, b: Double)
    requires !a.NaN? && !b.NaN?
    ensures Le(a, b) || Le(b, a)
  {
  }

  lemma LeTransitive(a: Double, b: Double, c: Double)
    requires Le(a, b) && Le(b, c)
    ensures Le(a, c)
  {
  }

  /**
   * Though the last interval is never compared against, a correlation within the range
   * of sorted thresholds still lands in an interval that holds it.
   */
  lemma ClassBracketsInRange(corr: Double, ths: seq<Double>)
    requires |ths| >= 2 && SortedBy(ths, CompareLe)
    requires Le(ths[0], corr) && Le(corr, ths[|ths| - 1])
    ensures Brackets(corr, ths, ClassOf(corr, ths))
  {
    ClassOfSpec(corr, ths);
    var r := ClassOf(corr, ths);
    var j := 0;
    while j < r
      invariant 0 <= j <= r && Le(ths[j], corr)
    {
      assert !Brackets(corr, ths, j);
      assert CompareLe(ths[j + 1], ths[|ths| - 1]);
      LeTotal(corr, ths[j + 1]);
      j := j + 1;
    }
  }

  /** Arrays.sort on a Double[]: ascending under Double.compare. */
  lemma CompareLeIsTotalPreorder()
    ensures TotalPreorder(CompareLe)
  {
    forall a, b, c | CompareLe(a, b) && CompareLe(b, c)
      ensures CompareLe(a, c)
    {
      CompareLeTransitive(a, b, c);
    }
  }

  /* ---------- PearsonThresholdEvaluation ---------- */

  /** The thresholds getClass sees for Pearson correlations: -1 first, 1 last. */
  function PearsonThresholds(thresholds: seq<Double>): (r: seq<Double>)
    ensures |r| == |thresholds| + 2 && r[0] == Finite(-1.0) && r[|r| - 1] == Finite(1.0)
    ensures r[1..|r| - 1] == thresholds
  {
    [Finite(-1.0)] + thresholds + [Finite(1.0)]
  }

  /** With the two centroids of 2-means, a Pearson class is 0, 1 or 2. */
  lemma PearsonClassRange(corr: Double, thresholds: seq<Double>)
    requires |thresholds| == MaxKMeansClust
    ensures ClassOf(corr, SortBy(PearsonThresholds(thresholds), CompareLe)) <= 2
  {
    ClassOfSpec(corr, SortBy(PearsonThresholds(thresholds), CompareLe));
  }

  /**
   * Any correlation in [-1, 1] gets a class whose interval holds it, once the
   * thresholds are numbers (not NaN).
   */
  lemma PearsonClassBrackets(corr: Double, thresholds: seq<Double>)
    requires corr.Finite? && -1.0 <= corr.r <= 1.0
    requires forall i :: 0 <= i < |thresholds| ==> !thresholds[i].NaN?
    ensures Brackets(corr, SortBy(PearsonThresholds(thresholds), CompareLe),
                     ClassOf(corr, SortBy(PearsonThresholds(thresholds), CompareLe)))
  {
    var ths := PearsonThresholds(thresholds);
    var sorted := SortBy(ths, CompareLe);
    CompareLeIsTotalPreorder();
    SortBySorted(ths, CompareLe);
    var n := |sorted| - 1;
    assert ths[0] in multiset(sorted) && ths[|ths| - 1] in multiset(sorted);
    var lo :| 0 <= lo < |sorted| && sorted[lo] == Finite(-1.0);
    var hi :| 0 <= hi < |sorted| && sorted[hi] == Finite(1.0);
    assert CompareLe(sorted[0], sorted[lo]);
    LeTransitive(sorted[0], sorted[lo], corr);
    assert sorted[n] in multiset(ths);
    assert !sorted[n].NaN?;
    assert CompareLe(sorted[hi], sorted[n]);
    LeTransitive(corr, sorted[hi], sorted[n]);
    ClassBracketsInRange(corr, sorted);
  }

  /** getClassOld: the index of the nearest of -1, 0 and 1, ties to the lower index. */
  function NearestOfThree(corr: Double): (r: nat)
    ensures r < 3
  {
    MinByIndex([Abs(Sub(corr, Finite(-1.0))), Abs(corr), Abs(Sub(corr, Finite(1.0)))], 3)
  }

  /** The three regions of getClassOld: up to -1/2, up to 1/2, above; NaN gives class 0. */
  lemma NearestOfThreeRegions(corr: Double)
    ensures corr.NaN? ==> NearestOfThree(corr) == 0
    ensures corr.Finite? ==> (NearestOfThree(corr) == 0 <==> corr.r <= -0.5)
    ensures corr.Finite? ==> (NearestOfThree(corr) == 2 <==> corr.r > 0.5)
  {
    if corr.Finite? {
      var x := corr.r;
      var s := [Abs(Sub(corr, Finite(-1.0))), Abs(corr), Abs(Sub(corr, Finite(1.0)))];
      var a := if x + 1.0 < 0.0 then -(x + 1.0) else x + 1.0;
      var b := if x < 0.0 then -x else x;
      var c := if x - 1.0 < 0.0 then -(x - 1.0) else x - 1.0;
      assert s[0] == Finite(a) && s[1] == Finite(b) && s[2] == Finite(c);
      var r := MinByIndex(s, 3);
      if x <= -0.5 {
        assert CompareLe(s[0], s[1]) && CompareLe(s[0], s[2]);
      } else if x <= 0.5 {
        assert !CompareLe(s[0], s[1]) && CompareLe(s[1], s[2]);
      } else {
        assert !CompareLe(s[0], s[2]) && !CompareLe(s[1], s[2]);
      }
    }
  }

  class ThresholdEvaluation {
    /** kmeans != null */
    var clustered: bool
    var labels: seq<int>
    var centroids: seq<Double>

    constructor ()
      ensures !HasThreshold() && labels == [] && centroids == []
    {
      clustered := false;
      labels := [];
      centroids := [];
    }

    function HasThreshold(): bool
      reads this
    {
      clustered
    }

    /**
     * calculate: the pair's correlation list loses its non-finite values
     * (the list after the call is `kept`), then 2-means over what is left
     * gives the labels and the centroids, which are the thresholds.
     */
    method Calculate(corrs: seq<Double>, kmeans: seq<real> -> Clustering) returns (kept: seq<Double>, ths: seq<Double>)
      modifies this
      ensures kept == FiniteOnly(corrs)
      ensures HasThreshold()
      ensures labels == kmeans(Reals(kept)).labels && centroids == kmeans(Reals(kept)).centroids
      ensures ths == centroids
    {
      kept := FiniteOnly(corrs);
      var c := kmeans(Reals(kept));
      clustered := true;
      labels := c.labels;
      centroids := c.centroids;
      ths := centroids;
    }

    /**
     * getClass: sorts the caller's thresholds in place, then scans the
     * intervals. The count map holds the one class found, so its maximal
     * entry is always present and the fallback 999 is never returned.
     */
    method GetClass(corr: Double, ths: array<Double>) returns (r: nat)
      modifies ths
      ensures ths[..] == SortBy(old(ths[..]), CompareLe)
      ensures r == ClassOf(corr, ths[..])
    {
      var sorted := SortBy(ths[..], CompareLe);
      CopyInto(ths, sorted);
      var cls := ScanClass(corr, ths);
      var classCount: map<int, int> := map[];
      if cls !in classCount {
        classCount := classCount[cls := 0];
      }
      classCount := classCount[cls := classCount[cls] + 1];
      var k :| k in classCount && forall k' :: k' in classCount ==> classCount[k'] <= classCount[k];
      r := k;
    }

    function UndeterminedClass(): real
    {
      0.0
    }
  }

  /** Overwrites the array with the given contents, element by element. */
  method CopyInto(a: array<Double>, s: seq<Double>)
    requires |s| == a.Length
    modifies a
    ensures a[..] == s
  {
    forall k | 0 <= k < a.Length {
      a[k] := s[k];
    }
  }

  /**
   * The loop of getClass over sorted thresholds: the first i with
   * ths[i - 1] <= corr <= ths[i] gives class i - 1; when none does, the
   * class is the number of intervals tried.
   */
  method ScanClass(corr: Double, ths: array<Double>) returns (cls: nat)
    ensures cls == ClassOf(corr, ths[..])
  {
    var found := false;
    var i := 1;
    cls := 0;
    while !found && i + 1 < ths.Length
      invariant 1 <= i && cls == i - 1
      invariant !found ==> ClassFrom(corr, ths[..], i) == ClassOf(corr, ths[..])
      invariant found ==> cls == ClassOf(corr, ths[..])
      decreases ths.Length - i, !found
    {
      if Le(ths[i - 1], corr) && Le(corr, ths[i]) {
        found := true;
      } else {
        i := i + 1;
        cls := cls + 1;
      }
    }
  }

  /** PearsonThresholdEvaluation, its superclass held as `base`. */
  class PearsonThresholdEvaluation {
    const base: ThresholdEvaluation

    constructor ()
      ensures fresh(base) && !base.HasThreshold()
    {
      base := new ThresholdEvaluation();
    }

    /** getClass on a fresh copy with -1 prepended and 1 appended; the caller's array is untouched. */
    method GetClass(corr: Double, thresholds: array<Double>) returns (r: nat)
      ensures r == ClassOf(corr, SortBy(PearsonThresholds(thresholds[..]), CompareLe))
    {
      var the := new Double[thresholds.Length + 2](k => Finite(0.0));
      the[0] := Finite(-1.0);
      forall k | 0 <= k < thresholds.Length {
        the[k + 1] := thresholds[k];
      }
      the[thresholds.Length + 1] := Finite(1.0);
      assert the[..] == PearsonThresholds(thresholds[..]);
      r := base.GetClass(corr, the);
    }

    function UndeterminedClass(): real
    {
      1.0
    }
  }
}
