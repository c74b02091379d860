/**
 * The context store of an ambient context agent
 * (src/agent/AmbientContextAgent.java): the contexts an agent has built,
 * grouped in buckets keyed by their range descriptor; the bounded search for
 * contexts similar to a reference; the insertion of a new context; and the
 * similarity scores an agent hands to a neighbour.
 */
module ContextStores {
  import opened Wrappers
  import opened Numeric
  import opened Seqs
  import opened ContextInfos
  import opened ContextEntries
  import opened Contexts
  import opened Descriptors
  import opened Estimation

  /** MAXIMUM_ESTIMATED_ENTRIES_IN_CONTEXTS */
  const MaximumEstimatedEntriesInContexts: nat := 0

  /** One entry of the map: a descriptor and the contexts stored under it. */
  type Bucket = (Descriptor, seq<ContextData>)

  /** The map, as its entries in iteration order (taken to be insertion order). */
  type Store = seq<Bucket>

  function Keys(s: Store): (r: seq<Descriptor>)
    ensures |r| == |s| && forall i :: 0 <= i < |s| ==> r[i] == s[i].0
  {
    seq(|s|, i requires 0 <= i < |s| => s[i].0)
  }

  /** A map holds each key once. */
  predicate KeysDistinct(s: Store)
  {
    forall i, j :: 0 <= i < j < |s| ==> s[i].0 != s[j].0
  }

  /** Every stored context, bucket after bucket (the `flatMap` over the entries). */
  function Flatten(s: Store): seq<ContextData>
  {
    if |s| == 0 then [] else Flatten(s[..|s| - 1]) + s[|s| - 1].1
  }

  predicate Stored(s: Store, c: ContextData)
  {
    exists k :: 0 <= k < |s| && c in s[k].1
  }

  lemma FlattenSnoc(s: Store, b: Bucket)
    ensures Flatten(s + [b]) == Flatten(s) + b.1
  {
    assert (s + [b])[..|s|] == s;
  }

  /** The contexts of the first buckets come first. */
  lemma {:induction false} FlattenOfPrefix(s: Store, k: nat)
    requires k <= |s|
    ensures Flatten(s[..k]) <= Flatten(s)
  {
    if k < |s| {
      var init := s[..|s| - 1];
      FlattenOfPrefix(init, k);
      assert init[..k] == s[..k];
      assert Flatten(s) == Flatten(init) + s[|s| - 1].1;
    } else {
      assert s[..k] == s;
    }
  }

  lemma {:induction false} InFlattenIffStored(s: Store, c: ContextData)
    ensures c in Flatten(s) <==> Stored(s, c)
  {
    if |s| > 0 {
      var init := s[..|s| - 1];
      InFlattenIffStored(init, c);
      if Stored(s, c) && c !in s[|s| - 1].1 {
        var k :| 0 <= k < |s| && c in s[k].1;
        assert init[k] == s[k];
      }
      if Stored(init, c) {
        var k :| 0 <= k < |init| && c in init[k].1;
        assert s[k] == init[k];
      }
    }
  }

  /** Rewriting one bucket changes the stored contexts by that bucket's contents only. */
  lemma {:induction false} FlattenUpdate(s: Store, k: nat, b: Bucket)
    requires k < |s|
    ensures multiset(Flatten(s[k := b])) == multiset(Flatten(s)) - multiset(s[k].1) + multiset(b.1)
  {
    var n := |s| - 1;
    var t := s[k := b];
    if k == n {
      assert t[..n] == s[..n];
    } else {
      assert t[..n] == s[..n][k := b];
      FlattenUpdate(s[..n], k, b);
      assert s[..n][k] == s[k];
      FlattenHasBucket(s[..n], k);
    }
  }

  /** Reordering the buckets keeps the same stored contexts. */
  lemma StoredUnderPermutation(s: Store, t: Store, c: ContextData)
    requires multiset(s) == multiset(t)
    ensures Stored(s, c) <==> Stored(t, c)
  {
    if Stored(s, c) {
      var k :| 0 <= k < |s| && c in s[k].1;
      assert s[k] in multiset(t);
      var j :| 0 <= j < |t| && t[j] == s[k];
    }
    if Stored(t, c) {
      var k :| 0 <= k < |t| && c in t[k].1;
      assert t[k] in multiset(s);
      var j :| 0 <= j < |s| && s[j] == t[k];
    }
  }

  // ---------------------------------------------------------------------
  // getMostSimilarContexts
  // ---------------------------------------------------------------------

  /**
   * The test each candidate must pass: the reference's size, not equal to
   * it, and no more estimated entries than allowed (the promotion flag is
   * the constant true, whatever the caller passes).
   */
  predicate Accepted(ref: ContextData, c: ContextData)
  {
    |c.entries| == |ref.entries| && !Same(c, ref) && EstimatedEntriesCount(c) <= MaximumEstimatedEntriesInContexts
  }

  function AcceptedIn(ref: ContextData, cs: seq<ContextData>): (r: seq<ContextData>)
    ensures |r| <= |cs|
    ensures forall i :: 0 <= i < |r| ==> Accepted(ref, r[i]) && r[i] in cs
    ensures forall c :: c in cs && Accepted(ref, c) ==> c in r
  {
    if |cs| == 0 then []
    else AcceptedIn(ref, cs[..|cs| - 1]) + (if Accepted(ref, cs[|cs| - 1]) then [cs[|cs| - 1]] else [])
  }

  /** Scanning further only appends to what an earlier prefix accepted. */
  lemma {:induction false} AcceptedPrefix(ref: ContextData, cs: seq<ContextData>, i: nat)
    requires i <= |cs|
    ensures AcceptedIn(ref, cs[..i]) <= AcceptedIn(ref, cs)
  {
    if i < |cs| {
      var init := cs[..|cs| - 1];
      AcceptedPrefix(ref, init, i);
      assert init[..i] == cs[..i];
      assert AcceptedIn(ref, init) <= AcceptedIn(ref, cs);
    } else {
      assert cs[..i] == cs;
    }
  }

  /** `le` of the sort in getMostSimilarContexts: Double.compare of the distances to `d`. */
  function Closer(d: Descriptor): (Bucket, Bucket) -> bool
  {
    (b1: Bucket, b2: Bucket) => CompareLe(DistanceSquared(d, b1.0), DistanceSquared(d, b2.0))
  }

  /** The buckets in ascending distance of their key to `d`; ties keep the map's order. */
  function ByDistance(s: Store, d: Descriptor): (r: Store)
    ensures multiset(r) == multiset(s) && |r| == |s|
  {
    SortBy(s, Closer(d))
  }

  lemma CloserIsTotalPreorder(d: Descriptor)
    ensures TotalPreorder(Closer(d))
  {
    forall a: Bucket, b: Bucket
      ensures Closer(d)(a, b) || Closer(d)(b, a)
    {
      CompareLeTotal(DistanceSquared(d, a.0), DistanceSquared(d, b.0));
    }
    forall a: Bucket, b: Bucket, c: Bucket | Closer(d)(a, b) && Closer(d)(b, c)
      ensures Closer(d)(a, c)
    {
      CompareLeTransitive(DistanceSquared(d, a.0), DistanceSquared(d, b.0), DistanceSquared(d, c.0));
    }
  }

  /** Buckets are visited in ascending descriptor distance to the reference. */
  lemma ByDistanceIsAscending(s: Store, d: Descriptor)
    ensures SortedBy(ByDistance(s, d), Closer(d))
    ensures forall i, j :: 0 <= i < j < |s| ==>
              CompareLe(DistanceSquared(d, ByDistance(s, d)[i].0), DistanceSquared(d, ByDistance(s, d)[j].0))
  {
    CloserIsTotalPreorder(d);
    SortBySorted(s, Closer(d));
  }

  /** The first `num` elements, none when `num` is not positive. */
  function Take<T>(s: seq<T>, num: int): (r: seq<T>)
    ensures |r| == if num <= 0 then 0 else if num < |s| then num else |s|
    ensures r <= s
  {
    if num <= 0 then [] else if num < |s| then s[..num] else s
  }

  /**
   * getMostSimilarContexts(num, ref): the first `num` accepted contexts,
   * bucket after bucket in ascending distance, in stored order within a
   * bucket; building the reference's descriptor fails on an empty reference.
   */
  function MostSimilar(s: Store, ref: ContextData, num: int): (r: Result<seq<ContextData>>)
    ensures r.Err? <==> |ref.entries| == 0
    ensures r.Ok? ==> |r.value| <= if num <= 0 then 0 else num
    ensures r.Ok? ==> forall i :: 0 <= i < |r.value| ==> Accepted(ref, r.value[i]) && Stored(s, r.value[i])
    ensures r.Ok? && |r.value| < num ==> forall c :: Stored(s, c) && Accepted(ref, c) ==> c in r.value
  {
    var d := Describe(ref);
    if d.Err? then Err(d.error)
    else
      var sorted := ByDistance(s, d.value);
      var all := AcceptedIn(ref, Flatten(sorted));
      var r := Take(all, num);
      assert forall i :: 0 <= i < |r| ==> r[i] == all[i];
      forall c | c in Flatten(sorted) || Stored(s, c)
        ensures c in Flatten(sorted) <==> Stored(s, c)
      {
        InFlattenIffStored(sorted, c);
        StoredUnderPermutation(s, sorted, c);
      }
      Ok(r)
  }

  // ---------------------------------------------------------------------
  // addNewContextToMap
  // ---------------------------------------------------------------------

  /** The first key whose range encloses `d` (`filter(includedIn).findFirst()`). */
  function EnclosingKey(s: Store, d: Descriptor): (r: Option<nat>)
    ensures r.Some? ==> r.value < |s| && IncludedIn(d, s[r.value].0)
    ensures r.Some? ==> forall j :: 0 <= j < r.value ==> !IncludedIn(d, s[j].0)
    ensures r.None? ==> forall j :: 0 <= j < |s| ==> !IncludedIn(d, s[j].0)
  {
    FirstWhere(Keys(s), (k: Descriptor) => IncludedIn(d, k), 0)
  }

  /** The map lookup by key equality (Double.equals, under which NaN equals NaN). */
  function KeyIndex(s: Store, d: Descriptor): (r: Option<nat>)
    ensures r.Some? ==> r.value < |s| && s[r.value].0 == d
    ensures r.None? ==> forall j :: 0 <= j < |s| ==> s[j].0 != d
  {
    FirstWhere(Keys(s), (k: Descriptor) => k == d, 0)
  }

  /** The bucket order: ascending number of estimated entries. */
  function FewerEstimated(): (ContextData, ContextData) -> bool
  {
    (a: ContextData, b: ContextData) => EstimatedEntriesCount(a) <= EstimatedEntriesCount(b)
  }

  lemma FewerEstimatedIsTotalPreorder()
    ensures TotalPreorder(FewerEstimated())
  {
  }

  /** A bucket's contexts after `add` then a stable sort by estimated entries. */
  function AddSorted(cs: seq<ContextData>, c: ContextData): (r: seq<ContextData>)
    ensures multiset(r) == multiset(cs) + multiset{c} && |r| == |cs| + 1
    ensures SortedBy(r, FewerEstimated())
  {
    FewerEstimatedIsTotalPreorder();
    SortBySorted(cs + [c], FewerEstimated());
    SortBy(cs + [c], FewerEstimated())
  }

  /**
   * addNewContextToMap as written: an empty context is ignored; otherwise the
   * context joins the first bucket whose key encloses its range, or else
   * `put(descriptor, new list)` installs a bucket holding it alone. A
   * descriptor with a NaN bound encloses nothing, yet equals a stored NaN
   * key, so `put` then REPLACES that key's bucket.
   */
  function AddAsWritten(s: Store, c: ContextData): (r: Store)
  {
    if |c.entries| == 0 then s
    else
      var d := Describe(c).value;
      match EnclosingKey(s, d)
      case Some(k) => s[k := (s[k].0, AddSorted(s[k].1, c))]
      case None =>
        match KeyIndex(s, d)
        case Some(k) => s[k := (s[k].0, [c])]
        case None => s + [(d, [c])]
  }

  /**
   * addNewContextToMap with the evident intent kept: a context whose
   * descriptor equals a stored key that does not enclose it (a NaN bound)
   * joins that key's bucket instead of replacing it.
   */
  function AddNewContext(s: Store, c: ContextData): (r: Store)
    ensures |c.entries| == 0 ==> r == s
    ensures |c.entries| > 0 ==> multiset(Flatten(r)) == multiset(Flatten(s)) + multiset{c}
    ensures Keys(s) <= Keys(r) && |r| <= |s| + 1
  {
    if |c.entries| == 0 then s
    else
      var d := Describe(c).value;
      var home := Home(s, d);
      if home.Some? then
        var k := home.value;
        var b := (s[k].0, AddSorted(s[k].1, c));
        FlattenUpdate(s, k, b);
        FlattenHasBucket(s, k);
        KeysUnderUpdate(s, k, b);
        s[k := b]
      else
        FlattenSnoc(s, (d, [c]));
        KeysUnderSnoc(s, (d, [c]));
        s + [(d, [c])]
  }

  /** The bucket a new context with range `d` joins: the first enclosing key, else an equal key. */
  function Home(s: Store, d: Descriptor): (r: Option<nat>)
    ensures r.Some? ==> r.value < |s|
    ensures r.None? <==> EnclosingKey(s, d).None? && KeyIndex(s, d).None?
  {
    match EnclosingKey(s, d)
    case Some(k) => Some(k)
    case None => KeyIndex(s, d)
  }

  lemma KeysUnderUpdate(s: Store, k: nat, b: Bucket)
    requires k < |s| && b.0 == s[k].0
    ensures Keys(s[k := b]) == Keys(s)
  {
  }

  lemma KeysUnderSnoc(s: Store, b: Bucket)
    ensures Keys(s + [b]) == Keys(s) + [b.0]
  {
  }

  /**
   * Where a new context lands: in a bucket whose key encloses its range or
   * equals its descriptor, which is then sorted by estimated entries; and
   * the keys stay distinct.
   */
  lemma AddNewContextPlacesIt(s: Store, c: ContextData)
    requires |c.entries| > 0
    ensures var r := AddNewContext(s, c);
            var d := Describe(c).value;
            exists k :: 0 <= k < |r| && c in r[k].1 && SortedBy(r[k].1, FewerEstimated()) &&
                        (IncludedIn(d, r[k].0) || r[k].0 == d)
    ensures KeysDistinct(s) ==> KeysDistinct(AddNewContext(s, c))
  {
    var r := AddNewContext(s, c);
    var d := Describe(c).value;
    var e := EnclosingKey(s, d);
    if e.Some? {
      assert c in multiset(r[e.value].1);
    } else if KeyIndex(s, d).Some? {
      assert c in multiset(r[KeyIndex(s, d).value].1);
    } else {
      assert r[|s|] == (d, [c]);
    }
  }

  /** With an enclosing key, the context goes to the first such bucket and nothing else changes. */
  lemma AddNewContextToEnclosingBucket(s: Store, c: ContextData, k: nat)
    requires |c.entries| > 0 && k < |s|
    requires IncludedIn(Describe(c).value, s[k].0)
    requires forall j :: 0 <= j < k ==> !IncludedIn(Describe(c).value, s[j].0)
    ensures AddNewContext(s, c) == s[k := (s[k].0, AddSorted(s[k].1, c))]
  {
  }

  /**
   * The two definitions differ only when the descriptor has a NaN bound:
   * otherwise an equal key would enclose it.
   */
  lemma AddAsWrittenAgreesWithoutNaN(s: Store, c: ContextData)
    requires |c.entries| > 0 && !HasNaN(Describe(c).value)
    ensures AddAsWritten(s, c) == AddNewContext(s, c)
  {
    var d := Describe(c).value;
    if KeyIndex(s, d).Some? {
      IncludedInReflexive(d);
      assert IncludedIn(d, s[KeyIndex(s, d).value].0);
    }
  }

  /** A context the two insertions treat alike: empty, or with a range free of NaN. */
  predicate NaNFree(c: ContextData)
  {
    |c.entries| > 0 ==> !HasNaN(Describe(c).value)
  }

  /**
   * As written, the insertion keeps every key and adds at most one context;
   * it keeps every stored context, and adds the new one unless it is empty,
   * when the context's range is free of NaN.
   */
  lemma AddAsWrittenGrows(s: Store, c: ContextData)
    ensures var r := AddAsWritten(s, c);
            Keys(s) <= Keys(r) && |Flatten(r)| <= |Flatten(s)| + 1 &&
            (NaNFree(c) ==> multiset(Flatten(r)) == multiset(Flatten(s)) + (if |c.entries| > 0 then multiset{c} else multiset{}))
  {
    var r := AddAsWritten(s, c);
    if |c.entries| > 0 {
      var d := Describe(c).value;
      if !HasNaN(d) {
        AddAsWrittenAgreesWithoutNaN(s, c);
        assert |multiset(Flatten(r))| == |multiset(Flatten(s))| + 1;
      } else {
        forall j | 0 <= j < |s|
          ensures !IncludedIn(d, s[j].0)
        {
          NaNDescriptorIsIsolated(d, s[j].0);
        }
        AddAsWrittenNaNGrows(s, c);
      }
    }
  }

  /** The NaN case of AddAsWrittenGrows: no key encloses the context, so its key's bucket is replaced or a bucket appended. */
  lemma AddAsWrittenNaNGrows(s: Store, c: ContextData)
    requires |c.entries| > 0
    requires forall j :: 0 <= j < |s| ==> !IncludedIn(Describe(c).value, s[j].0)
    ensures var r := AddAsWritten(s, c);
            Keys(s) <= Keys(r) && |Flatten(r)| <= |Flatten(s)| + 1
  {
    var r := AddAsWritten(s, c);
    var d := Describe(c).value;
    assert EnclosingKey(s, d).None?;
    if KeyIndex(s, d).Some? {
      var k := KeyIndex(s, d).value;
      var b := (s[k].0, [c]);
      FlattenUpdate(s, k, b);
      FlattenHasBucket(s, k);
      KeysUnderUpdate(s, k, b);
      assert |multiset(Flatten(r))| == |multiset(Flatten(s))| - |multiset(s[k].1)| + 1;
    } else {
      FlattenSnoc(s, (d, [c]));
      KeysUnderSnoc(s, (d, [c]));
    }
  }

  /**
   * As written, a context whose descriptor has a NaN bound and equals a
   * stored key replaces that key's bucket with a bucket holding it alone.
   */
  lemma AddAsWrittenReplacesBucket(s: Store, c: ContextData, k: nat)
    requires |c.entries| > 0 && k < |s| && KeysDistinct(s)
    requires HasNaN(Describe(c).value) && s[k].0 == Describe(c).value
    ensures AddAsWritten(s, c) == s[k := (s[k].0, [c])]
  {
    var d := Describe(c).value;
    forall j | 0 <= j < |s|
      ensures !IncludedIn(d, s[j].0)
    {
      NaNDescriptorIsIsolated(d, s[j].0);
    }
    assert KeyIndex(s, d) == Some(k);
  }

  /** So every context already in that bucket is lost from the store. */
  lemma AddAsWrittenDropsBucket(s: Store, c: ContextData, k: nat)
    requires |c.entries| > 0 && k < |s| && KeysDistinct(s)
    requires HasNaN(Describe(c).value) && s[k].0 == Describe(c).value
    ensures multiset(Flatten(AddAsWritten(s, c))) == multiset(Flatten(s)) - multiset(s[k].1) + multiset{c}
    ensures |Flatten(AddAsWritten(s, c))| == |Flatten(s)| - |s[k].1| + 1
  {
    var b := (s[k].0, [c]);
    FlattenUpdate(s, k, b);
    FlattenHasBucket(s, k);
    AddAsWrittenReplacesBucket(s, c, k);
    var before, after := multiset(Flatten(s)), multiset(Flatten(s[k := b]));
    assert |after| == |before| - |multiset(s[k].1)| + 1;
  }

  lemma {:induction false} FlattenHasBucket(s: Store, k: nat)
    requires k < |s|
    ensures multiset(s[k].1) <= multiset(Flatten(s))
  {
    var n := |s| - 1;
    if k < n {
      FlattenHasBucket(s[..n], k);
      assert s[..n][k] == s[k];
    }
  }

  /** A context of one NaN reading, built as the finders build entries. */
  function NaNContext(owner: AgentId, idx: int): (c: ContextData)
    ensures |c.entries| == 1 && HasNaN(Describe(c).value)
  {
    ContextData(owner, TEMP, [FromValue(TEMP, 0, NaN)], idx)
  }

  /** Storing one context in an empty store makes a bucket holding it alone. */
  lemma FirstContextMakesABucket(c: ContextData)
    requires |c.entries| > 0
    ensures AddAsWritten([], c) == AddNewContext([], c) == [(Describe(c).value, [c])]
    ensures Flatten(AddNewContext([], c)) == [c]
  {
    var s1 := [(Describe(c).value, [c])];
    assert s1[..0] == [];
  }

  /**
   * Two contexts holding a NaN reading, stored one after the other: as
   * written the second replaces the first.
   */
  lemma NaNContextReplacesBucket()
    ensures var c1, c2 := NaNContext("a", 11), NaNContext("a", 12);
            Flatten(AddAsWritten(AddAsWritten([], c1), c2)) == [c2]
  {
    var c1, c2 := NaNContext("a", 11), NaNContext("a", 12);
    FirstContextMakesABucket(c1);
    var s1 := AddAsWritten([], c1);
    assert Describe(c2) == Describe(c1);
    AddAsWrittenReplacesBucket(s1, c2, 0);
    var s2 := AddAsWritten(s1, c2);
    assert s2 == [(Describe(c1).value, [c2])];
    assert s2[..0] == [];
  }

  /** With the intended insertion both NaN contexts stay in the store. */
  lemma NaNContextsAreBothKept()
    ensures var c1, c2 := NaNContext("a", 11), NaNContext("a", 12);
            multiset(Flatten(AddNewContext(AddNewContext([], c1), c2))) == multiset{c1, c2}
  {
    var c1, c2 := NaNContext("a", 11), NaNContext("a", 12);
    FirstContextMakesABucket(c1);
  }

  // ---------------------------------------------------------------------
  // getSimilarityScores
  // ---------------------------------------------------------------------

  /** The filter of getSimilarityScores: an index of the list and the source's size. */
  predicate AtIndexes(source: ContextData, idxs: seq<int>, c: ContextData)
  {
    c.finalDataIdx in idxs && |source.entries| == |c.entries|
  }

  function Matching(cs: seq<ContextData>, source: ContextData, idxs: seq<int>): (r: seq<ContextData>)
    ensures |r| <= |cs|
    ensures forall i :: 0 <= i < |r| ==> AtIndexes(source, idxs, r[i]) && r[i] in cs
    ensures forall c :: c in cs && AtIndexes(source, idxs, c) ==> c in r
  {
    if |cs| == 0 then []
    else Matching(cs[..|cs| - 1], source, idxs) + (if AtIndexes(source, idxs, cs[|cs| - 1]) then [cs[|cs| - 1]] else [])
  }

  /**
   * The context every match is compared from: the first match with the
   * source's finalDataIdx, else the last match.
   */
  function ScoreReference(cs: seq<ContextData>, source: ContextData): (r: ContextData)
    requires |cs| > 0
    ensures r in cs
    ensures (exists k :: 0 <= k < |cs| && cs[k].finalDataIdx == source.finalDataIdx) ==> r.finalDataIdx == source.finalDataIdx
    ensures (forall k :: 0 <= k < |cs| ==> cs[k].finalDataIdx != source.finalDataIdx) ==> r == cs[|cs| - 1]
  {
    match FirstWhere(cs, (c: ContextData) => c.finalDataIdx == source.finalDataIdx, 0)
    case Some(k) => cs[k]
    case None => cs[|cs| - 1]
  }

  /**
   * getSimilarityScores(source, idxs): one (finalDataIdx, score) pair per
   * stored context at one of the indexes with the source's size, in stored
   * order, scored by comparing the reference context with it.
   */
  function SimilarityScores(s: Store, source: ContextData, idxs: seq<int>, cmp: Comparator): (r: seq<WeightPair>)
    ensures |r| == |Matching(Flatten(s), source, idxs)|
    ensures forall i :: 0 <= i < |r| ==> r[i].0 == Matching(Flatten(s), source, idxs)[i].finalDataIdx && r[i].0 in idxs
    ensures |r| == 0 <==> forall c :: Stored(s, c) ==> !AtIndexes(source, idxs, c)
  {
    var cs := Matching(Flatten(s), source, idxs);
    forall c | Stored(s, c)
      ensures c in Flatten(s)
    {
      InFlattenIffStored(s, c);
    }
    if |cs| == 0 then []
    else
      var ref := ScoreReference(cs, source);
      assert Stored(s, cs[0]) by { InFlattenIffStored(s, cs[0]); }
      seq(|cs|, i requires 0 <= i < |cs| => (cs[i].finalDataIdx, cmp(ref, cs[i])))
  }

  /**
   * The scores are what impute reads as weights: every stored context at the
   * indexes with the source's size has a pair carrying its finalDataIdx.
   */
  lemma EveryMatchGetsAWeight(s: Store, source: ContextData, idxs: seq<int>, cmp: Comparator, c: ContextData)
    requires Stored(s, c) && AtIndexes(source, idxs, c)
    ensures FindWeight(SimilarityScores(s, source, idxs, cmp), c.finalDataIdx).Some?
  {
    InFlattenIffStored(s, c);
    var cs := Matching(Flatten(s), source, idxs);
    var k :| 0 <= k < |cs| && cs[k] == c;
    assert SimilarityScores(s, source, idxs, cmp)[k].0 == c.finalDataIdx;
  }

  /** ... and an index that is not in the list gets no pair at all. */
  lemma NoWeightOutsideIndexes(s: Store, source: ContextData, idxs: seq<int>, cmp: Comparator, idx: int)
    requires idx !in idxs
    ensures FindWeight(SimilarityScores(s, source, idxs, cmp), idx).None?
  {
  }
}
