/**
 * A context: the ordered readings of one kind of information gathered by an
 * agent (src/context/Context.java).
 */
module Contexts {
  import opened Numeric
  import opened Seqs
  import opened ContextInfos
  import opened ContextEntries

  /** Agents are identified by their name. */
  type AgentId = string

  /** The value of a context at one moment: what the store, comparators and estimators read. */
  datatype ContextData = ContextData(owner: AgentId, info: ContextInfo, entries: seq<ContextEntry>, finalDataIdx: int)

  /** getEntries() mapped to getValue(), i.e. asDoubleArray(). */
  function ValuesOf(es: seq<ContextEntry>): (r: seq<Double>)
    ensures |r| == |es| && forall i :: 0 <= i < |es| ==> r[i] == es[i].value
  {
    seq(|es|, i requires 0 <= i < |es| => es[i].value)
  }

  /** Number of entries satisfying `p` (a stream `filter(...).count()`). */
  function CountWhere(es: seq<ContextEntry>, p: ContextEntry -> bool): (n: nat)
    ensures n <= |es|
    ensures n == 0 <==> forall i :: 0 <= i < |es| ==> !p(es[i])
    ensures n == |es| <==> forall i :: 0 <= i < |es| ==> p(es[i])
  {
    if |es| == 0 then 0
    else CountWhere(es[..|es| - 1], p) + (if p(es[|es| - 1]) then 1 else 0)
  }

  /** isValid: no entry is empty (so a context without entries is valid). */
  predicate IsValid(c: ContextData)
  {
    CountWhere(c.entries, (e: ContextEntry) => e.isEmpty) == 0
  }

  /** getEstimatedEntriesCount */
  function EstimatedEntriesCount(c: ContextData): (n: nat)
    ensures n <= |c.entries|
    ensures n == 0 <==> forall i :: 0 <= i < |c.entries| ==> !c.entries[i].isEstimation
  {
    CountWhere(c.entries, (e: ContextEntry) => e.isEstimation)
  }

  /** Context.equals: entries equal one by one (ContextEntry.equals), same finalDataIdx and info; the owner is ignored. */
  predicate Same(a: ContextData, b: ContextData)
  {
    |a.entries| == |b.entries| &&
    (forall i :: 0 <= i < |a.entries| ==> ContextEntries.Equals(a.entries[i], b.entries[i])) &&
    a.finalDataIdx == b.finalDataIdx && a.info == b.info
  }

  /** The infos of the empty entries of `s`: what MissingInformationException reports. */
  function MissingInfos(s: seq<ContextEntry>): (r: seq<ContextInfo>)
    ensures |r| == 0 <==> forall i :: 0 <= i < |s| ==> !s[i].isEmpty
    ensures |r| <= |s|
  {
    if |s| == 0 then []
    else MissingInfos(s[..|s| - 1]) + (if s[|s| - 1].isEmpty then [s[|s| - 1].info] else [])
  }

  /** The differences v[k+1] - v[k] that getTrendContext stores. */
  function Deltas(v: seq<Double>): (r: seq<Double>)
    ensures |r| == if |v| == 0 then 0 else |v| - 1
  {
    if |v| <= 1 then [] else seq(|v| - 1, k requires 0 <= k < |v| - 1 => Sub(v[k + 1], v[k]))
  }

  /** getMovingAverage: the sum of the deltas divided by the number of entries. */
  function MovingAverageOf(v: seq<Double>): Double
  {
    Div(SumD(Deltas(v)), Finite(|v| as real))
  }

  class Context {
    const owner: AgentId
    const info: ContextInfo
    var entries: seq<ContextEntry>
    var finalDataIdx: int

    function Data(): (d: ContextData)
      reads this
      ensures d.owner == owner && d.info == info && d.entries == entries && d.finalDataIdx == finalDataIdx
    {
      ContextData(owner, info, entries, finalDataIdx)
    }

    /** new Context(owner, info): no entries, finalDataIdx 0. */
    constructor (owner: AgentId, info: ContextInfo)
      ensures Data() == ContextData(owner, info, [], 0)
    {
      this.owner := owner;
      this.info := info;
      entries := [];
      finalDataIdx := 0;
    }

    /** The copy constructor: same owner, info, entries and finalDataIdx. */
    constructor Copy(c: Context)
      ensures Data() == c.Data()
    {
      owner := c.owner;
      info := c.info;
      var es: seq<ContextEntry> := [];
      var i := 0;
      while i < |c.entries|
        invariant 0 <= i <= |c.entries|
        invariant es == c.entries[..i]
      {
        es := es + [c.entries[i]];
        i := i + 1;
      }
      entries := es;
      finalDataIdx := c.finalDataIdx;
    }

    /** clone(): copies of the entries under a fresh context whose finalDataIdx is 0. */
    method Clone() returns (copy: Context)
      ensures fresh(copy)
      ensures copy.owner == owner && copy.info == info && copy.finalDataIdx == 0
      ensures |copy.entries| == |entries|
      ensures forall i :: 0 <= i < |entries| ==> copy.entries[i] == CopyOf(entries[i])
    {
      copy := new Context(owner, info);
      var i := 0;
      while i < |entries|
        invariant 0 <= i <= |entries|
        invariant copy.owner == owner && copy.info == info && copy.finalDataIdx == 0
        invariant |copy.entries| == i
        invariant forall k :: 0 <= k < i ==> copy.entries[k] == CopyOf(entries[k])
      {
        copy.entries := copy.entries + [CopyOf(entries[i])];
        i := i + 1;
      }
    }

    method SetFinalDataIdx(idx: int)
      modifies this
      ensures Data() == old(Data()).(finalDataIdx := idx)
    {
      finalDataIdx := idx;
    }

    /**
     * addEntries: appends all of `s`, then reports the infos of its empty
     * entries (MissingInformationException when there is one). The entries
     * stay appended either way.
     */
    method AddEntries(s: seq<ContextEntry>) returns (missing: seq<ContextInfo>)
      modifies this
      ensures Data() == old(Data()).(entries := old(entries) + s)
      ensures missing == MissingInfos(s)
    {
      entries := entries + s;
      missing := MissingInfos(s);
    }

    /** addEntry: appends `e`, reporting whether it is empty. */
    method AddEntry(e: ContextEntry) returns (missing: bool)
      modifies this
      ensures Data() == old(Data()).(entries := old(entries) + [e])
      ensures missing == e.isEmpty
    {
      entries := entries + [e];
      missing := e.isEmpty;
    }

    /** forceAddEntries: appends `s`, empty entries included. */
    method ForceAddEntries(s: seq<ContextEntry>)
      modifies this
      ensures Data() == old(Data()).(entries := old(entries) + s)
    {
      entries := entries + s;
    }

    /** forceAddFirst: each entry of `s` in turn goes to the front, so `s` ends up reversed. */
    method ForceAddFirst(s: seq<ContextEntry>)
      modifies this
      ensures Data() == old(Data()).(entries := Reverse(s) + old(entries))
    {
      var i := 0;
      while i < |s|
        invariant 0 <= i <= |s|
        invariant entries == Reverse(s[..i]) + old(entries)
        invariant finalDataIdx == old(finalDataIdx)
      {
        ReverseSnoc(s[..i], s[i]);
        assert s[..i + 1] == s[..i] + [s[i]];
        entries := [s[i]] + entries;
        i := i + 1;
      }
      assert s[..|s|] == s;
    }

    /** getTrendContext: a new context of the same owner and info holding the deltas of the values. */
    method TrendContext(now: int) returns (copy: Context)
      ensures fresh(copy)
      ensures copy.owner == owner && copy.info == info && copy.finalDataIdx == 0
      ensures ValuesOf(copy.entries) == Deltas(ValuesOf(entries))
      ensures forall k :: 0 <= k < |copy.entries| ==> copy.entries[k] == FromValue(info, now, copy.entries[k].value)
    {
      copy := new Context(owner, info);
      var i := 1;
      while i < |entries|
        invariant 1 <= i <= if |entries| == 0 then 1 else |entries|
        invariant copy.owner == owner && copy.info == info && copy.finalDataIdx == 0
        invariant |copy.entries| == i - 1
        invariant forall k :: 0 <= k < i - 1 ==> copy.entries[k] == FromValue(info, now, Sub(entries[k + 1].value, entries[k].value))
      {
        var dt := Sub(entries[i].value, entries[i - 1].value);
        copy.entries := copy.entries + [FromValue(info, now, dt)];
        i := i + 1;
      }
    }

    /** getMovingAverage: the deltas are summed in a loop and divided by size(). */
    method MovingAverage() returns (ma: Double)
      ensures ma == MovingAverageOf(ValuesOf(entries))
    {
      var v := ValuesOf(entries);
      var sum := Finite(0.0);
      var i := 1;
      while i < |entries|
        invariant 1 <= i <= if |entries| == 0 then 1 else |entries|
        invariant |v| > 0 ==> sum == SumD(Deltas(v[..i]))
        invariant |v| == 0 ==> sum == Finite(0.0)
      {
        DeltasSnoc(v[..i + 1]);
        assert v[..i + 1][..i] == v[..i];
        sum := Add(sum, Sub(entries[i].value, entries[i - 1].value));
        i := i + 1;
      }
      if |entries| > 0 {
        assert v[..i] == v;
      }
      ma := Div(sum, Finite(|entries| as real));
    }
  }

  lemma ReverseSnoc<T>(s: seq<T>, x: T)
    ensures Reverse(s + [x]) == [x] + Reverse(s)
  {
    var a, b := Reverse(s + [x]), [x] + Reverse(s);
    assert |a| == |b|;
    forall k | 0 <= k < |a|
      ensures a[k] == b[k]
    {
      if k > 0 {
        assert a[k] == (s + [x])[|s| - k];
      }
    }
  }

  /** Appending a value adds one delta at the end. */
  lemma DeltasSnoc(v: seq<Double>)
    requires |v| >= 2
    ensures Deltas(v) == Deltas(v[..|v| - 1]) + [Sub(v[|v| - 1], v[|v| - 2])]
  {
    var a, b := Deltas(v), Deltas(v[..|v| - 1]) + [Sub(v[|v| - 1], v[|v| - 2])];
    assert |a| == |b|;
    forall k | 0 <= k < |a|
      ensures a[k] == b[k]
    {
    }
  }

  /** A context without entries has moving average 0/0, which is NaN. */
  lemma MovingAverageOfNothing()
    ensures MovingAverageOf([]).NaN?
  {
  }

  /**
   * For finite values the deltas telescope: the moving average is
   * (v[n-1] - v[0]) / n.
   */
  lemma {:induction false} MovingAverageTelescopes(v: seq<Double>)
    requires |v| >= 1 && forall i :: 0 <= i < |v| ==> IsFinite(v[i])
    requires v[0].Finite? && v[|v| - 1].Finite?
    ensures MovingAverageOf(v) == Finite((v[|v| - 1].r - v[0].r) / (|v| as real))
  {
    DeltaSumTelescopes(v);
  }

  lemma {:induction false} DeltaSumTelescopes(v: seq<Double>)
    requires |v| >= 1 && forall i :: 0 <= i < |v| ==> IsFinite(v[i])
    requires v[0].Finite? && v[|v| - 1].Finite?
    ensures SumD(Deltas(v)) == Finite(v[|v| - 1].r - v[0].r)
  {
    if |v| >= 2 {
      DeltasSnoc(v);
      DeltaSumTelescopes(v[..|v| - 1]);
      assert Deltas(v)[..|Deltas(v)| - 1] == Deltas(v[..|v| - 1]);
    }
  }

  /** isValid holds exactly when no entry is empty. */
  lemma ValidIffNoEmptyEntry(c: ContextData)
    ensures IsValid(c) <==> forall i :: 0 <= i < |c.entries| ==> !c.entries[i].isEmpty
    ensures |c.entries| == 0 ==> IsValid(c)
  {
  }

  /** Every info addEntries reports belongs to an empty entry of the appended sequence. */
  lemma {:induction false} MissingInfosAreOfEmptyEntries(s: seq<ContextEntry>, k: nat)
    requires k < |MissingInfos(s)|
    ensures exists i :: 0 <= i < |s| && s[i].isEmpty && s[i].info == MissingInfos(s)[k]
  {
    var init := s[..|s| - 1];
    if k < |MissingInfos(init)| {
      MissingInfosAreOfEmptyEntries(init, k);
      var i :| 0 <= i < |init| && init[i].isEmpty && init[i].info == MissingInfos(init)[k];
      assert s[i] == init[i];
    } else {
      assert s[|s| - 1].isEmpty && s[|s| - 1].info == MissingInfos(s)[k];
    }
  }

  /** The copy constructor yields an equal context; clone does so only when finalDataIdx was 0. */
  lemma CloneEqualsIffIndexZero(c: ContextData, copy: ContextData)
    requires copy.info == c.info && copy.finalDataIdx == 0 && |copy.entries| == |c.entries|
    requires forall i :: 0 <= i < |c.entries| ==> copy.entries[i] == CopyOf(c.entries[i])
    ensures Same(c, copy) <==> c.finalDataIdx == 0
  {
  }

  /** Context.equals is an equivalence that ignores the owner. */
  lemma SameIsEquivalence(a: ContextData, b: ContextData, c: ContextData)
    ensures Same(a, a)
    ensures Same(a, b) ==> Same(b, a)
    ensures Same(a, b) && Same(b, c) ==> Same(a, c)
    ensures Same(a, a.(owner := c.owner))
  {
  }
}
