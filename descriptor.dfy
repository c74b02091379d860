/**
 * The range summary of a context used as the key of an agent's context store
 * (src/context/descriptor/NumericContextDescriptor.java). A context has one
 * kind of information, so a descriptor holds one (min, max) pair.
 */
module Descriptors {
  import opened Wrappers
  import opened Numeric
  import opened ContextInfos
  import opened ContextEntries
  import opened Contexts

  datatype Descriptor = Descriptor(info: ContextInfo, min: Double, max: Double)

  /**
   * The constructor: the smallest and largest value of the context under its
   * info; `getAsDouble` fails (NoSuchElementException) on a context without entries.
   */
  function Describe(c: ContextData): (r: Result<Descriptor>)
    ensures r.Err? <==> |c.entries| == 0
    ensures r.Ok? ==> r.value.info == c.info
    ensures r.Ok? ==> r.value.min in ValuesOf(c.entries) && r.value.max in ValuesOf(c.entries)
    ensures r.Ok? && !r.value.min.NaN? ==> forall i :: 0 <= i < |c.entries| ==> Le(r.value.min, c.entries[i].value)
    ensures r.Ok? && !r.value.max.NaN? ==> forall i :: 0 <= i < |c.entries| ==> Le(c.entries[i].value, r.value.max)
  {
    if |c.entries| == 0 then Err("NoSuchElementException")
    else
      var v := ValuesOf(c.entries);
      Ok(Descriptor(c.info, MinOf(v), MaxOf(v)))
  }

  predicate HasNaN(d: Descriptor)
  {
    d.min.NaN? || d.max.NaN?
  }

  /** A context without NaN values has a range with min <= max. */
  lemma DescribedRangeIsOrdered(c: ContextData)
    requires |c.entries| > 0
    requires forall i :: 0 <= i < |c.entries| ==> !c.entries[i].value.NaN?
    ensures Describe(c).Ok? && !HasNaN(Describe(c).value)
    ensures Le(Describe(c).value.min, Describe(c).value.max)
  {
    var v := ValuesOf(c.entries);
    assert !MinOf(v).NaN? && !MaxOf(v).NaN?;
    assert Le(MinOf(v), v[0]) && Le(v[0], MaxOf(v));
  }

  /**
   * includedIn: the other descriptor has no info this one lacks, and its range
   * encloses this one (the primitive comparisons, false on NaN).
   */
  predicate IncludedIn(d: Descriptor, other: Descriptor)
  {
    other.info == d.info && Le(other.min, d.min) && Le(d.max, other.max)
  }

  /** Le is transitive on the non-NaN values. */
  lemma LeTransitive(a: Double, b: Double, c: Double)
    requires Le(a, b) && Le(b, c)
    ensures Le(a, c)
  {
  }

  /** includedIn is reflexive on descriptors without NaN, and a NaN bound makes it fail both ways. */
  lemma IncludedInReflexive(d: Descriptor)
    ensures IncludedIn(d, d) <==> !HasNaN(d)
  {
  }

  lemma IncludedInTransitive(a: Descriptor, b: Descriptor, c: Descriptor)
    requires IncludedIn(a, b) && IncludedIn(b, c)
    ensures IncludedIn(a, c)
  {
    LeTransitive(c.min, b.min, a.min);
    LeTransitive(a.max, b.max, c.max);
  }

  /** A descriptor with a NaN bound is included in nothing and includes nothing. */
  lemma NaNDescriptorIsIsolated(d: Descriptor, other: Descriptor)
    requires HasNaN(d)
    ensures !IncludedIn(d, other) && !IncludedIn(other, d)
  {
  }

  function Square(x: Double): (r: Double)
    ensures IsFinite(x) ==> r == Finite(x.r * x.r) && r.r >= 0.0
    ensures x.NaN? <==> r.NaN?
    ensures !x.NaN? && !IsFinite(x) ==> r.PosInf?
  {
    Mul(x, x)
  }

  /**
   * distance, squared: NaN when the other descriptor has an info this one
   * lacks, otherwise the squared Euclidean distance between the (min, max)
   * points (divided by the one key). Since the square root is increasing,
   * ordering by this value is ordering by the distance.
   */
  function DistanceSquared(d: Descriptor, other: Descriptor): (r: Double)
    ensures other.info != d.info ==> r.NaN?
    ensures other.info == d.info && IsFinite(d.min) && IsFinite(d.max) && IsFinite(other.min) && IsFinite(other.max) ==>
              IsFinite(r)
    ensures IsFinite(r) ==> r.r >= 0.0
  {
    if other.info != d.info then NaN
    else
      var dx := Sub(other.min, d.min);
      var dy := Sub(other.max, d.max);
      Div(Add(Square(dx), Square(dy)), Finite(1.0))
  }

  lemma SquareOfNeg(x: Double)
    ensures Square(Neg(x)) == Square(x)
  {
  }

  /** The distance is symmetric. */
  lemma DistanceSymmetric(a: Descriptor, b: Descriptor)
    ensures DistanceSquared(a, b) == DistanceSquared(b, a)
  {
    SubAntisymmetric(a.min, b.min);
    SubAntisymmetric(a.max, b.max);
    SquareOfNeg(Sub(a.min, b.min));
    SquareOfNeg(Sub(a.max, b.max));
  }

  /** A finite descriptor is at distance 0 from itself. */
  lemma DistanceToSelf(d: Descriptor)
    requires IsFinite(d.min) && IsFinite(d.max)
    ensures DistanceSquared(d, d) == Finite(0.0)
  {
    var dx := Sub(d.min, d.min);
    var dy := Sub(d.max, d.max);
    assert dx == Finite(0.0) && dy == Finite(0.0);
    assert Square(dx) == Finite(0.0) && Square(dy) == Finite(0.0);
    assert Add(Square(dx), Square(dy)) == Finite(0.0);
  }

  /** Equal descriptors (Pair.equals with Double.equals) arise from contexts with equal ranges. */
  lemma EqualRangesGiveEqualKeys(c1: ContextData, c2: ContextData)
    requires |c1.entries| > 0 && |c2.entries| > 0 && c1.info == c2.info
    requires MinOf(ValuesOf(c1.entries)) == MinOf(ValuesOf(c2.entries))
    requires MaxOf(ValuesOf(c1.entries)) == MaxOf(ValuesOf(c2.entries))
    ensures Describe(c1) == Describe(c2)
  {
  }
}
