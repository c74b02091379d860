/**
 * One reading of a context (src/context/ContextEntry.java) and the perception
 * it may be built from (src/agent/base/Perception.java).
 */
module ContextEntries {
  import opened Numeric
  import opened ContextInfos

  /** A value an agent perceived, flagged when it was estimated rather than sensed. */
  datatype Perception = Perception(value: Double, isEstimation: bool)

  /** Perception.empty() */
  function EmptyPerception(): (p: Perception)
    ensures !IsFinite(p.value) && !p.isEstimation
  {
    Perception(NaN, false)
  }

  /**
   * A reading. `instant` is the perception time (the clock is a parameter of
   * every constructor); `isEmpty` is fixed when the entry is built.
   */
  datatype ContextEntry = ContextEntry(info: ContextInfo, value: Double, instant: int, isEmpty: bool, isEstimation: bool)

  /** What every constructor establishes: an entry is empty exactly when its value is not finite. */
  predicate WellFormed(e: ContextEntry)
  {
    e.isEmpty == !IsFinite(e.value)
  }

  /** new ContextEntry(info, instant, Double value) */
  function FromValue(info: ContextInfo, instant: int, value: Double): (e: ContextEntry)
    ensures WellFormed(e) && (e.isEmpty <==> !IsFinite(value))
    ensures e.info == info && e.value == value && e.instant == instant && !e.isEstimation
  {
    ContextEntry(info, value, instant, !IsFinite(value), false)
  }

  /** new ContextEntry(info, instant, Perception p): the estimation flag comes from the perception. */
  function FromPerception(info: ContextInfo, instant: int, p: Perception): (e: ContextEntry)
    ensures WellFormed(e) && (e.isEmpty <==> !IsFinite(p.value))
    ensures e.info == info && e.value == p.value && e.instant == instant && e.isEstimation == p.isEstimation
  {
    ContextEntry(info, p.value, instant, !IsFinite(p.value), p.isEstimation)
  }

  /** The copy constructor: `isEmpty` is recomputed from the copied value. */
  function CopyOf(e: ContextEntry): (r: ContextEntry)
    ensures WellFormed(r)
    ensures r.info == e.info && r.value == e.value && r.instant == e.instant && r.isEstimation == e.isEstimation
    ensures WellFormed(e) ==> r == e
  {
    ContextEntry(e.info, e.value, e.instant, !IsFinite(e.value), e.isEstimation)
  }

  /** ContextEntry.empty(info): a NaN reading that is empty and not an estimation. */
  function Empty(info: ContextInfo, instant: int): (e: ContextEntry)
    ensures WellFormed(e) && e.isEmpty && !e.isEstimation && e.value.NaN? && e.info == info
  {
    FromValue(info, instant, NaN)
  }

  /**
   * ContextEntry.equals: info and value only (Double.equals, under which NaN
   * equals NaN); the instant and the flags are ignored.
   */
  predicate Equals(a: ContextEntry, b: ContextEntry)
  {
    a.info == b.info && a.value == b.value
  }

  /** setIsEstimation, as the entry value it leaves behind: only the flag changes. */
  function SetIsEstimation(e: ContextEntry, isEstimation: bool): (r: ContextEntry)
    ensures r.isEstimation == isEstimation
    ensures r.info == e.info && r.value == e.value && r.instant == e.instant && r.isEmpty == e.isEmpty
  {
    e.(isEstimation := isEstimation)
  }

  /** Two empty entries of one info are equal, whatever their instants. */
  lemma EmptyEntriesAreEqual(info: ContextInfo, t1: int, t2: int)
    ensures Equals(Empty(info, t1), Empty(info, t2))
  {
  }

  /** Equality ignores the perception time and the estimation flag. */
  lemma EqualsIgnoresTimeAndFlag(e: ContextEntry, t: int, b: bool)
    ensures Equals(e, e.(instant := t, isEstimation := b))
    ensures Equals(e, SetIsEstimation(e, b))
  {
  }

  /** Equals is an equivalence. */
  lemma EqualsIsEquivalence(a: ContextEntry, b: ContextEntry, c: ContextEntry)
    ensures Equals(a, a)
    ensures Equals(a, b) ==> Equals(b, a)
    ensures Equals(a, b) && Equals(b, c) ==> Equals(a, c)
  {
  }

  /** setIsEstimation never recomputes `isEmpty`, so well-formed entries stay well formed. */
  lemma SetIsEstimationKeepsWellFormed(e: ContextEntry, b: bool)
    requires WellFormed(e)
    ensures WellFormed(SetIsEstimation(e, b))
    ensures SetIsEstimation(e, b).isEmpty == e.isEmpty
  {
  }
}
