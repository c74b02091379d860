/**
 * How a contact sensor pairs the ambient agents around it and measures
 * their correlation (src/agent/contactSensor/impl/CouplingStrategyImpl.java).
 * Neighbours are sorted by the distance from their confidence zone to the
 * contact sensor; each pair's correlation comes from windows of the last
 * 64 perceptions of both agents.
 */
module Couplings {
  import opened Wrappers
  import opened Numeric
  import opened Seqs
  import opened ContextEntries
  import opened Contexts

  /** CORRELATION_WINDOW_SIZE */
  const CorrelationWindowSize: nat := 64

  /**
   * What the pairing reads of an ambient agent: its name, its AgentType, whether
   * getLastContext() is present, and its zone's minDistance to the contact sensor.
   */
  datatype Neighbor = Neighbor(name: AgentId, kind: nat, hasLastContext: bool, zoneDistance: real)

  /** One entry of the returned map: the key Pair.of(A1, A2) and its correlation. */
  datatype Coupled = Coupled(first: Neighbor, second: Neighbor, correlation: Double)

  /** The sort of both act methods: ascending minDistance. */
  function Closer(): (Neighbor, Neighbor) -> bool
  {
    (a: Neighbor, b: Neighbor) => a.zoneDistance <= b.zoneDistance
  }

  lemma CloserIsTotalPreorder()
    ensures TotalPreorder(Closer())
  {
  }

  /** The agents the pairs are made of, in order. */
  function Members(cs: seq<Coupled>): (r: seq<Neighbor>)
    ensures |r| == 2 * |cs|
  {
    if |cs| == 0 then [] else [cs[0].first, cs[0].second] + Members(cs[1..])
  }

  /* ---------- act(self, neighbors, idx) ---------- */

  /**
   * The pairing loop of act(self, neighbors, idx) over the sorted list: the
   * head is dropped when it has no last context, otherwise it is paired with
   * the next agent; `corr` gives the correlation evaluateCorrelation settles on.
   */
  function Disjoint(sorted: seq<Neighbor>, corr: (Neighbor, Neighbor) -> Double): (r: seq<Coupled>)
    ensures |r| <= |sorted| / 2
    decreases |sorted|
  {
    if |sorted| == 0 then []
    else if !sorted[0].hasLastContext then Disjoint(sorted[1..], corr)
    else if |sorted| == 1 then []
    else [Coupled(sorted[0], sorted[1], corr(sorted[0], sorted[1]))] + Disjoint(sorted[2..], corr)
  }

  /**
   * No agent is used twice and none comes from outside, every first agent
   * has a last context, and each correlation is the one measured for its pair.
   */
  lemma DisjointPairs(sorted: seq<Neighbor>, corr: (Neighbor, Neighbor) -> Double)
    ensures multiset(Members(Disjoint(sorted, corr))) <= multiset(sorted)
    ensures forall c :: c in Disjoint(sorted, corr) ==> c.first.hasLastContext && c.correlation == corr(c.first, c.second)
  {
    DisjointMembers(sorted, corr);
    DisjointCorrelations(sorted, corr);
  }

  lemma {:induction false} DisjointMembers(sorted: seq<Neighbor>, corr: (Neighbor, Neighbor) -> Double)
    ensures multiset(Members(Disjoint(sorted, corr))) <= multiset(sorted)
    decreases |sorted|
  {
    if |sorted| > 0 {
      if !sorted[0].hasLastContext {
        DisjointMembers(sorted[1..], corr);
        DropHead(sorted, Members(Disjoint(sorted[1..], corr)));
      } else if |sorted| > 1 {
        var tail := sorted[2..];
        var rest := Disjoint(tail, corr);
        DisjointMembers(tail, corr);
        var c := Coupled(sorted[0], sorted[1], corr(sorted[0], sorted[1]));
        assert Disjoint(sorted, corr) == [c] + rest;
        MembersCons(c, rest);
        TakeTwo(sorted, Members(rest));
      }
    }
  }

  lemma MembersCons(c: Coupled, rest: seq<Coupled>)
    ensures Members([c] + rest) == [c.first, c.second] + Members(rest)
  {
    assert ([c] + rest)[1..] == rest;
  }

  lemma DropHead(s: seq<Neighbor>, ms: seq<Neighbor>)
    requires |s| > 0 && multiset(ms) <= multiset(s[1..])
    ensures multiset(ms) <= multiset(s)
  {
    assert s == [s[0]] + s[1..];
  }

  lemma TakeTwo(s: seq<Neighbor>, ms: seq<Neighbor>)
    requires |s| > 1 && multiset(ms) <= multiset(s[2..])
    ensures multiset([s[0], s[1]] + ms) <= multiset(s)
  {
    assert s == [s[0], s[1]] + s[2..];
  }

  lemma {:induction false} DisjointCorrelations(sorted: seq<Neighbor>, corr: (Neighbor, Neighbor) -> Double)
    ensures forall c :: c in Disjoint(sorted, corr) ==> c.first.hasLastContext && c.correlation == corr(c.first, c.second)
    decreases |sorted|
  {
    if |sorted| > 0 {
      if !sorted[0].hasLastContext {
        DisjointCorrelations(sorted[1..], corr);
      } else if |sorted| > 1 {
        DisjointCorrelations(sorted[2..], corr);
      }
    }
  }

  /* ---------- act(self, neighbors, pairsCount, idx) ---------- */

  /** The index of the first agent of the given type, as filter(...).findFirst(). */
  function FirstOfKind(s: seq<Neighbor>, kind: nat): (r: Option<nat>)
    ensures r.Some? ==> r.value < |s| && s[r.value].kind == kind
    ensures r.Some? ==> forall j :: 0 <= j < r.value ==> s[j].kind != kind
    ensures r.None? ==> forall j :: 0 <= j < |s| ==> s[j].kind != kind
  {
    if |s| == 0 then None
    else if s[0].kind == kind then Some(0)
    else
      match FirstOfKind(s[1..], kind)
      case None => None
      case Some(k) => Some(k + 1)
  }

  /**
   * The loop of act(self, neighbors, pairsCount, idx): at most `budget` more
   * pairs, each head with a last context paired with the first later agent
   * of its type, which stays in the list; findFirst().get() throws when there
   * is none.
   */
  function Bounded(sorted: seq<Neighbor>, budget: int, corr: (Neighbor, Neighbor) -> Double): (r: Result<seq<Coupled>>)
    ensures r.Ok? ==> |r.value| <= if budget < 0 then 0 else budget
    decreases |sorted|
  {
    if |sorted| == 0 || budget <= 0 then Ok([])
    else
      var a1 := sorted[0];
      var rest := sorted[1..];
      if !a1.hasLastContext then Bounded(rest, budget, corr)
      else if |rest| == 0 then Ok([])
      else
        match FirstOfKind(rest, a1.kind)
        case None => Err("NoSuchElementException")
        case Some(k) =>
          match Bounded(rest, budget - 1, corr)
          case Err(e) => Err(e)
          case Ok(more) => Ok([Coupled(a1, rest[k], corr(a1, rest[k]))] + more)
  }

  /**
   * Each pair joins two agents of the same type, the second being the first
   * agent of that type after the first; the first agents are distinct
   * entries of the list, while a second agent may serve several pairs.
   */
  lemma {:induction false} BoundedPairs(sorted: seq<Neighbor>, budget: int, corr: (Neighbor, Neighbor) -> Double)
    requires Bounded(sorted, budget, corr).Ok?
    ensures forall c :: c in Bounded(sorted, budget, corr).value ==>
              c.first.hasLastContext && c.second.kind == c.first.kind && c.correlation == corr(c.first, c.second)
    ensures multiset(Firsts(Bounded(sorted, budget, corr).value)) <= multiset(sorted)
    decreases |sorted|
  {
    if |sorted| > 0 && budget > 0 {
      var rest := sorted[1..];
      assert sorted == [sorted[0]] + rest;
      if !sorted[0].hasLastContext {
        BoundedPairs(rest, budget, corr);
      } else if |rest| > 0 {
        BoundedPairs(rest, budget - 1, corr);
        var r := Bounded(sorted, budget, corr).value;
        assert r[1..] == Bounded(rest, budget - 1, corr).value;
        assert Firsts(r) == [sorted[0]] + Firsts(r[1..]);
      }
    }
  }

  /**
   * Example, beside BoundedPairs: an agent may be the second of several
   * pairs, so three agents of one type give two pairs sharing it.
   */
  lemma SecondAgentMayRepeat(a: Neighbor, b: Neighbor, c: Neighbor, corr: (Neighbor, Neighbor) -> Double)
    requires a.hasLastContext && b.hasLastContext && a.kind == b.kind == c.kind
    ensures Bounded([a, b, c], 2, corr) == Ok([Coupled(a, b, corr(a, b)), Coupled(b, c, corr(b, c))])
  {
    assert [a, b, c][1..] == [b, c];
    assert [b, c][1..] == [c];
    assert FirstOfKind([b, c], a.kind) == Some(0);
    assert FirstOfKind([c], b.kind) == Some(0);
    assert Bounded([c], 0, corr) == Ok([]);
    assert [Coupled(b, c, corr(b, c))] + [] == [Coupled(b, c, corr(b, c))];
    assert Bounded([b, c], 1, corr) == Ok([Coupled(b, c, corr(b, c))]);
    assert [Coupled(a, b, corr(a, b))] + [Coupled(b, c, corr(b, c))] == [Coupled(a, b, corr(a, b)), Coupled(b, c, corr(b, c))];
  }

  function Firsts(cs: seq<Coupled>): (r: seq<Neighbor>)
    ensures |r| == |cs|
  {
    if |cs| == 0 then [] else [cs[0].first] + Firsts(cs[1..])
  }

  /** The pairs already in the map followed by those the rest of the loop adds, or the exception it throws. */
  function Prefixed(done: seq<Coupled>, r: Result<seq<Coupled>>): Result<seq<Coupled>>
  {
    match r
    case Err(e) => Err(e)
    case Ok(more) => Ok(done + more)
  }

  lemma PrefixedSnoc(done: seq<Coupled>, c: Coupled, r: Result<seq<Coupled>>)
    ensures Prefixed(done, Prefixed([c], r)) == Prefixed(done + [c], r)
  {
    if r.Ok? {
      assert done + ([c] + r.value) == (done + [c]) + r.value;
    }
  }

  /* ---------- evaluateCorrelation(a, b, idx) ---------- */

  /** max(0, idx - CORRELATION_WINDOW_SIZE): the window is the perceptions after it up to idx. */
  function WindowStart(idx: int): int
  {
    if idx - CorrelationWindowSize > 0 then idx - CorrelationWindowSize else 0
  }

  /** The values at indices (max(0, idx - 64), idx], oldest first. */
  function WindowOf(ps: seq<Perception>, idx: int): (r: seq<Double>)
    requires idx <= 0 || idx < |ps|
    ensures |r| == if idx <= 0 then 0 else idx - WindowStart(idx)
  {
    if idx <= 0 then []
    else seq(idx - WindowStart(idx), k requires 0 <= k < idx - WindowStart(idx) => ps[WindowStart(idx) + 1 + k].value)
  }

  /**
   * The window holds min(idx, 64) values and is full exactly from idx = 64
   * on; index 0 never enters it.
   */
  lemma WindowLength(ps: seq<Perception>, idx: int)
    requires idx <= 0 || idx < |ps|
    ensures |WindowOf(ps, idx)| == if idx <= 0 then 0 else if idx < CorrelationWindowSize then idx else CorrelationWindowSize
    ensures |WindowOf(ps, idx)| >= CorrelationWindowSize <==> idx >= CorrelationWindowSize
    ensures forall k :: 0 <= k < |WindowOf(ps, idx)| ==> WindowOf(ps, idx)[k] == ps[idx - |WindowOf(ps, idx)| + 1 + k].value
  {
  }

  /** The correlation of the two windows when they are full, otherwise best of nothing. */
  function CorrelationOf(wa: seq<Double>, wb: seq<Double>, measure: (seq<Double>, seq<Double>) -> Double,
                         best: seq<Double> -> Double): Double
  {
    if |wa| >= CorrelationWindowSize then best([measure(wa, wb)]) else best([])
  }

  /**
   * evaluateCorrelation(a, b, idx): the two windows, then the measure of
   * them when they are full; reading past either perception list throws
   * IndexOutOfBoundsException.
   */
  method EvaluateCorrelation(pa: seq<Perception>, pb: seq<Perception>, idx: int,
                             measure: (seq<Double>, seq<Double>) -> Double, best: seq<Double> -> Double)
    returns (r: Result<Double>)
    ensures r.Err? <==> idx > 0 && (idx >= |pa| || idx >= |pb|)
    ensures r.Ok? ==> r.value == CorrelationOf(WindowOf(pa, idx), WindowOf(pb, idx), measure, best)
  {
    var ok, windowA, windowB := Windows(pa, pb, idx);
    if !ok {
      return Err("IndexOutOfBoundsException");
    }
    var correlations: seq<Double> := [];
    if |windowA| >= CorrelationWindowSize {
      correlations := [measure(windowA, windowB)];
    }
    r := Ok(best(correlations));
  }

  /** The loop of evaluateCorrelation: both windows filled by inserting at the front from idx down. */
  method Windows(pa: seq<Perception>, pb: seq<Perception>, idx: int) returns (ok: bool, windowA: seq<Double>, windowB: seq<Double>)
    ensures ok <==> idx <= 0 || (idx < |pa| && idx < |pb|)
    ensures ok ==> windowA == WindowOf(pa, idx) && windowB == WindowOf(pb, idx)
  {
    windowA, windowB := [], [];
    var stop := WindowStart(idx);
    var j := idx;
    while j > stop && j >= 0
      invariant idx <= stop ==> j == idx
      invariant idx > stop ==> stop <= j <= idx
      invariant j < idx ==> idx < |pa| && idx < |pb|
      invariant |windowA| == |windowB| == idx - j
      invariant forall k :: 0 <= k < |windowA| ==> windowA[k] == pa[j + 1 + k].value && windowB[k] == pb[j + 1 + k].value
      decreases j
    {
      if j >= |pa| || j >= |pb| {
        return false, windowA, windowB;
      }
      windowA := [pa[j].value] + windowA;
      windowB := [pb[j].value] + windowB;
      j := j - 1;
    }
    ok := true;
    if idx > 0 {
      assert j == stop;
      assert windowA == WindowOf(pa, idx);
      assert windowB == WindowOf(pb, idx);
    }
  }

  /* ---------- the strategy ---------- */

  class CouplingStrategy {
    /** The correlation measure and its `best` of the CorrelationStrategy. */
    const measure: (seq<Double>, seq<Double>) -> Double
    const best: seq<Double> -> Double

    constructor (measure: (seq<Double>, seq<Double>) -> Double, best: seq<Double> -> Double)
      ensures this.measure == measure && this.best == best
    {
      this.measure := measure;
      this.best := best;
    }

    /** act(self, neighbors, idx): disjoint pairs of the distance-sorted neighbours. */
    method ActDisjoint(neighbors: seq<Neighbor>, corr: (Neighbor, Neighbor) -> Double) returns (map_: seq<Coupled>)
      ensures map_ == Disjoint(SortBy(neighbors, Closer()), corr)
    {
      var sorted := SortBy(neighbors, Closer());
      map_ := PairDisjoint(sorted, corr);
    }

    /** The while loop of act(self, neighbors, idx). */
    method PairDisjoint(sorted: seq<Neighbor>, corr: (Neighbor, Neighbor) -> Double) returns (map_: seq<Coupled>)
      ensures map_ == Disjoint(sorted, corr)
    {
      var rest := sorted;
      map_ := [];
      while |rest| > 0
        invariant map_ + Disjoint(rest, corr) == Disjoint(sorted, corr)
        decreases |rest|
      {
        var a1 := rest[0];
        var tail := rest[1..];
        if !a1.hasLastContext {
          rest := tail;
          continue;
        }
        if |tail| > 0 {
          var a2 := tail[0];
          assert Disjoint(rest, corr) == [Coupled(a1, a2, corr(a1, a2))] + Disjoint(tail[1..], corr);
          map_ := map_ + [Coupled(a1, a2, corr(a1, a2))];
          rest := tail[1..];
        } else {
          rest := tail;
        }
      }
    }

    /** act(self, neighbors, pairsCount, idx): at most pairsCount pairs, the partner kept in the list. */
    method ActBounded(neighbors: seq<Neighbor>, pairsCount: int, corr: (Neighbor, Neighbor) -> Double)
      returns (r: Result<seq<Coupled>>)
      ensures r == Bounded(SortBy(neighbors, Closer()), pairsCount, corr)
    {
      var sorted := SortBy(neighbors, Closer());
      r := PairBounded(sorted, pairsCount, corr);
    }

    /** The while loop of act(self, neighbors, pairsCount, idx). */
    method PairBounded(sorted: seq<Neighbor>, pairsCount: int, corr: (Neighbor, Neighbor) -> Double)
      returns (r: Result<seq<Coupled>>)
      ensures r == Bounded(sorted, pairsCount, corr)
    {
      var rest := sorted;
      var map_: seq<Coupled> := [];
      if Bounded(rest, pairsCount, corr).Ok? {
        assert [] + Bounded(rest, pairsCount, corr).value == Bounded(rest, pairsCount, corr).value;
      }
      while |rest| > 0 && |map_| < pairsCount
        invariant Prefixed(map_, Bounded(rest, pairsCount - |map_|, corr)) == Bounded(sorted, pairsCount, corr)
        decreases |rest|
      {
        var a1 := rest[0];
        var tail := rest[1..];
        if !a1.hasLastContext {
          rest := tail;
          continue;
        }
        if |tail| > 0 {
          var k := FirstOfKind(tail, a1.kind);
          if k.None? {
            return Err("NoSuchElementException");
          }
          var a2 := tail[k.value];
          var c := Coupled(a1, a2, corr(a1, a2));
          PrefixedSnoc(map_, c, Bounded(tail, pairsCount - |map_| - 1, corr));
          map_ := map_ + [c];
        }
        rest := tail;
      }
      assert Bounded(rest, pairsCount - |map_|, corr) == Ok([]);
      assert map_ + [] == map_;
      r := Ok(map_);
    }
  }
}
