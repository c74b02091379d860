/**
 * Sequence helpers shared by the model: the stable sort that Java's
 * List.sort and Stream.sorted perform, and small list operations.
 */
module Seqs {

  /** `le(a, b)` plays the role of `comparator.compare(a, b) <= 0`. */
  ghost predicate TotalPreorder<T(!new)>(le: (T, T) -> bool)
  {
    (forall a, b :: le(a, b) || le(b, a)) &&
    (forall a, b, c :: le(a, b) && le(b, c) ==> le(a, c))
  }

  predicate SortedBy<T>(s: seq<T>, le: (T, T) -> bool)
  {
    forall i, j :: 0 <= i < j < |s| ==> le(s[i], s[j])
  }

  /**
   * Places `x` after every trailing element that is not greater than it, so
   * that equal elements keep their order.
   */
  function InsertStable<T>(sorted: seq<T>, x: T, le: (T, T) -> bool): (r: seq<T>)
    ensures multiset(r) == multiset(sorted) + multiset{x}
    ensures |r| == |sorted| + 1
  {
    if |sorted| == 0 then [x]
    else if le(sorted[|sorted| - 1], x) then sorted + [x]
    else
      assert sorted == sorted[..|sorted| - 1] + [sorted[|sorted| - 1]];
      InsertStable(sorted[..|sorted| - 1], x, le) + [sorted[|sorted| - 1]]
  }

  /** A stable sort: the order Java's merge sort leaves equal elements in. */
  function SortBy<T>(s: seq<T>, le: (T, T) -> bool): (r: seq<T>)
    ensures multiset(r) == multiset(s)
    ensures |r| == |s|
  {
    if |s| == 0 then []
    else
      assert s == s[..|s| - 1] + [s[|s| - 1]];
      InsertStable(SortBy(s[..|s| - 1], le), s[|s| - 1], le)
  }

  lemma {:induction false} InsertStableSorted<T(!new)>(sorted: seq<T>, x: T, le: (T, T) -> bool)
    requires TotalPreorder(le)
    requires SortedBy(sorted, le)
    ensures SortedBy(InsertStable(sorted, x, le), le)
  {
    if |sorted| > 0 && !le(sorted[|sorted| - 1], x) {
      var init := sorted[..|sorted| - 1];
      var last := sorted[|sorted| - 1];
      InsertStableSorted(init, x, le);
      var r := InsertStable(init, x, le);
      forall i | 0 <= i < |r|
        ensures le(r[i], last)
      {
        assert r[i] in multiset(r);
        assert r[i] in multiset(init) || r[i] == x;
        if r[i] != x {
          var k :| 0 <= k < |init| && init[k] == r[i];
        }
      }
    }
  }

  lemma {:induction false} SortBySorted<T(!new)>(s: seq<T>, le: (T, T) -> bool)
    requires TotalPreorder(le)
    ensures SortedBy(SortBy(s, le), le)
  {
    if |s| > 0 {
      SortBySorted(s[..|s| - 1], le);
      InsertStableSorted(SortBy(s[..|s| - 1], le), s[|s| - 1], le);
    }
  }

  lemma InitLast<T>(s: seq<T>)
    requires |s| > 0
    ensures s[..|s| - 1] + [s[|s| - 1]] == s
  {
  }

  /** A prefix of a sorted sequence is part of it, and no element of the prefix is after one left out. */
  lemma PrefixOfSorted<T>(sorted: seq<T>, n: nat, le: (T, T) -> bool)
    requires SortedBy(sorted, le) && n <= |sorted|
    ensures multiset(sorted[..n]) <= multiset(sorted)
    ensures forall i, j :: 0 <= i < n <= j < |sorted| ==> le(sorted[i], sorted[j])
  {
    assert sorted == sorted[..n] + sorted[n..];
  }

  /** Sorting a sequence that is already in order leaves it as it is. */
  lemma {:induction false} SortBySortedIsIdentity<T>(s: seq<T>, le: (T, T) -> bool)
    requires SortedBy(s, le)
    ensures SortBy(s, le) == s
  {
    if |s| > 0 {
      SortBySortedIsIdentity(s[..|s| - 1], le);
      assert s[..|s| - 1] + [s[|s| - 1]] == s;
    }
  }

  /** List.add(0, x) applied to each element of `xs` in turn. */
  function PrependEach<T>(xs: seq<T>, acc: seq<T>): (r: seq<T>)
    ensures |r| == |xs| + |acc|
    ensures forall k :: 0 <= k < |xs| ==> r[k] == xs[|xs| - 1 - k]
    ensures r[|xs|..] == acc
  {
    if |xs| == 0 then acc else PrependEach(xs[1..], [xs[0]] + acc)
  }

  function Reverse<T>(s: seq<T>): (r: seq<T>)
    ensures |r| == |s|
    ensures forall k :: 0 <= k < |s| ==> r[k] == s[|s| - 1 - k]
  {
    if |s| == 0 then [] else Reverse(s[1..]) + [s[0]]
  }

  function Repeat<T>(x: T, n: nat): (r: seq<T>)
    ensures |r| == n && forall k :: 0 <= k < n ==> r[k] == x
  {
    if n == 0 then [] else Repeat(x, n - 1) + [x]
  }
}
