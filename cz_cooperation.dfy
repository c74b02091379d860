/**
 * Cooperation through the confidence zone
 * (src/neighborhood/ConfidenceZoneCooperativeBehavior.java): the agents
 * inside an agent's zone are paired off, each pair gives a linear estimate
 * of the value at the agent's position (its data field), pairs whose field
 * strays from the most typical one push the zone away from themselves, the
 * others pull it towards them, and the estimate is the weighted mean of the
 * fields. Distances, javafx angles, line distances and the percentile are
 * passed in as functions of positions; the agent's own position is fixed
 * for the behaviour and captured by them.
 */
module ZoneCooperation {
  import opened Wrappers
  import opened Numeric
  import opened Seqs
  import opened Contexts
  import opened Geometry
  import opened Polygons
  import opened ConfidenceZones

  /** CZ_UPDATE_DELTA */
  const CzUpdateDelta: int := 220
  /** The share of the reference spread inside which a data field is typical. */
  const OutlierFactor: real := 0.1

  /** What the behaviour reads of another ambient agent. */
  datatype Candidate = Candidate(name: AgentId, position: Point, lastPerception: Double, active: bool, paused: bool)

  datatype Pair = Pair(first: Candidate, second: Candidate)

  /**
   * The measurements the behaviour takes, all seen from its own agent:
   * dist is Vector2D.distance, lineDistance(a, b) the distance of the agent
   * from the line through a and b, and cosAngle(a, b) the cosine of the angle
   * at b between a and the agent (NaN when the agent stands on b, as javafx
   * angle is then).
   */
  datatype Measures = Measures(dist: (Point, Point) -> real, lineDistance: (Point, Point) -> Double,
                               cosAngle: (Point, Point) -> Double)

  /* ---------- checkRealSensorsInConfidenceZone ---------- */

  predicate Eligible(c: Candidate, self: Point, zone: seq<Point>)
    requires |zone| > 0
  {
    c.position != self && ContainsOf(zone, c.position.x, c.position.y) == Ok(true) && c.active && !c.paused
  }

  /** The agents of the environment, in order, that are elsewhere than the agent, inside its zone, active and not paused. */
  function InZone(all: seq<Candidate>, self: Point, zone: seq<Point>): (r: seq<Candidate>)
    requires |zone| > 0
    ensures |r| <= |all|
    ensures forall c :: c in r <==> c in all && Eligible(c, self, zone)
  {
    if |all| == 0 then []
    else
      var init := InZone(all[..|all| - 1], self, zone);
      var c := all[|all| - 1];
      assert all == all[..|all| - 1] + [c];
      if Eligible(c, self, zone) then init + [c] else init
  }

  /* ---------- evaluateCollinearSensors ---------- */

  /** Nearer the agent first; the squared distance orders as the distance does. */
  function NearerTo(self: Point): (Candidate, Candidate) -> bool
  {
    (a: Candidate, b: Candidate) => SqDist(self, a.position) <= SqDist(self, b.position)
  }

  function Collinearities(from: Candidate, cs: seq<Candidate>, m: Measures): (r: seq<Double>)
    ensures |r| == |cs|
  {
    seq(|cs|, i requires 0 <= i < |cs| => m.lineDistance(from.position, cs[i].position))
  }

  /** getMostAlignedAgent, as evidently meant: the first agent whose line with `from` passes nearest the agent. */
  function MostAligned(from: Candidate, cs: seq<Candidate>, m: Measures): (k: nat)
    requires |cs| > 0
    ensures k < |cs|
    ensures forall j :: 0 <= j < |cs| ==>
              CompareLe(m.lineDistance(from.position, cs[k].position), m.lineDistance(from.position, cs[j].position))
  {
    var ds := Collinearities(from, cs, m);
    var k := MinByIndex(ds, |cs|);
    assert forall j :: 0 <= j < |cs| ==> ds[j] == m.lineDistance(from.position, cs[j].position);
    k
  }

  function RemoveAt<T>(s: seq<T>, k: nat): (r: seq<T>)
    requires k < |s|
    ensures |r| == |s| - 1
    ensures multiset(r) + multiset{s[k]} == multiset(s)
  {
    assert s == s[..k] + [s[k]] + s[k + 1..];
    s[..k] + s[k + 1..]
  }

  /** The pairs built from the distance-sorted agents: the nearest left with its most aligned partner, repeatedly. */
  function Pairs(temp: seq<Candidate>, m: Measures): (r: seq<Pair>)
    ensures |r| == |temp| / 2
    decreases |temp|
  {
    if |temp| < 2 then []
    else
      var rest := temp[1..];
      var k := MostAligned(temp[0], rest, m);
      [Pair(temp[0], rest[k])] + Pairs(RemoveAt(rest, k), m)
  }

  lemma PairsStep(temp: seq<Candidate>, m: Measures)
    requires |temp| >= 2
    ensures var k := MostAligned(temp[0], temp[1..], m);
            Pairs(temp, m) == [Pair(temp[0], temp[1..][k])] + Pairs(RemoveAt(temp[1..], k), m)
  {
  }

  /** The agents the pairs are made of, in order. */
  function Members(ps: seq<Pair>): (r: seq<Candidate>)
    ensures |r| == 2 * |ps|
  {
    if |ps| == 0 then [] else [ps[0].first, ps[0].second] + Members(ps[1..])
  }

  /** No agent is used twice and none comes from outside: the pairs are disjoint and drawn from temp. */
  lemma {:induction false} PairsAreDisjoint(temp: seq<Candidate>, m: Measures)
    ensures multiset(Members(Pairs(temp, m))) <= multiset(temp)
    decreases |temp|
  {
    if |temp| >= 2 {
      var rest := temp[1..];
      var k := MostAligned(temp[0], rest, m);
      var left := RemoveAt(rest, k);
      var ps := Pairs(temp, m);
      assert ps == [Pair(temp[0], rest[k])] + Pairs(left, m);
      PairsAreDisjoint(left, m);
      assert ps[1..] == Pairs(left, m);
      assert Members(ps) == [temp[0], rest[k]] + Members(Pairs(left, m));
      assert temp == [temp[0]] + rest;
      assert multiset(temp) == multiset{temp[0]} + multiset(rest);
      assert multiset(rest) == multiset(left) + multiset{rest[k]};
    }
  }

  /** Each pair takes the nearest agent left and, of those after it, the one most aligned with it. */
  lemma FirstPairIsMostAligned(temp: seq<Candidate>, m: Measures, j: int)
    requires |temp| >= 2 && 1 <= j < |temp|
    ensures Pairs(temp, m)[0].first == temp[0]
    ensures CompareLe(m.lineDistance(temp[0].position, Pairs(temp, m)[0].second.position),
                      m.lineDistance(temp[0].position, temp[j].position))
  {
    assert temp[1..][j - 1] == temp[j];
  }

  /**
   * getMostAlignedAgent as written: its comparator compares a1 with a1, so
   * every agent ties and the sorted stream keeps its order.
   */
  function AsWrittenAlignment(from: Candidate, m: Measures): (Candidate, Candidate) -> bool
  {
    (a1: Candidate, a2: Candidate) =>
      CompareLe(m.lineDistance(from.position, a1.position), m.lineDistance(from.position, a1.position))
  }

  /** Every agent ties with every other under the comparator as written. */
  lemma AsWrittenAllTie(from: Candidate, m: Measures, rest: seq<Candidate>)
    ensures SortedBy(rest, AsWrittenAlignment(from, m))
    ensures SortBy(rest, AsWrittenAlignment(from, m)) == rest
  {
    forall a1: Candidate, a2: Candidate
      ensures AsWrittenAlignment(from, m)(a1, a2)
    {
      var d := m.lineDistance(from.position, a1.position);
      assert CompareLe(d, d);
    }
    SortBySortedIsIdentity(rest, AsWrittenAlignment(from, m));
  }

  /** getMostAlignedAgent as written: the first of the stream sorted by that comparator. */
  function AsWrittenPartner(from: Candidate, rest: seq<Candidate>, m: Measures): (r: Candidate)
    requires |rest| > 0
    ensures r == rest[0]
  {
    AsWrittenAllTie(from, m, rest);
    SortBy(rest, AsWrittenAlignment(from, m))[0]
  }

  /** evaluateCollinearSensors as written. */
  function PairsAsWritten(temp: seq<Candidate>, m: Measures): (r: seq<Pair>)
    ensures |r| == |temp| / 2
    decreases |temp|
  {
    if |temp| < 2 then []
    else [Pair(temp[0], AsWrittenPartner(temp[0], temp[1..], m))] + PairsAsWritten(RemoveAt(temp[1..], 0), m)
  }

  /** Consecutive agents paired off: the first with the second, the third with the fourth, ... */
  function Consecutive(temp: seq<Candidate>): (r: seq<Pair>)
    ensures |r| == |temp| / 2
  {
    if |temp| < 2 then [] else [Pair(temp[0], temp[1])] + Consecutive(temp[2..])
  }

  lemma {:induction false} ConsecutiveAt(temp: seq<Candidate>, i: int)
    requires 0 <= i < |temp| / 2
    ensures Consecutive(temp)[i] == Pair(temp[2 * i], temp[2 * i + 1])
  {
    if i > 0 {
      var tail := temp[2..];
      ConsecutiveAt(tail, i - 1);
      assert tail[2 * (i - 1)] == temp[2 * i];
      assert tail[2 * (i - 1) + 1] == temp[2 * i + 1];
    }
  }

  /** As written, the pairs are simply consecutive agents of the distance order. */
  lemma {:induction false} AsWrittenIsConsecutive(temp: seq<Candidate>, m: Measures)
    ensures PairsAsWritten(temp, m) == Consecutive(temp)
    decreases |temp|
  {
    if |temp| >= 2 {
      AsWrittenStep(temp, m);
      AsWrittenIsConsecutive(temp[2..], m);
    }
  }

  lemma AsWrittenStep(temp: seq<Candidate>, m: Measures)
    requires |temp| >= 2
    ensures PairsAsWritten(temp, m) == [Pair(temp[0], temp[1])] + PairsAsWritten(temp[2..], m)
  {
    assert RemoveAt(temp[1..], 0) == temp[2..];
  }

  lemma AsWrittenPairsAreConsecutive(temp: seq<Candidate>, m: Measures, i: int)
    requires 0 <= i < |temp| / 2
    ensures PairsAsWritten(temp, m)[i] == Pair(temp[2 * i], temp[2 * i + 1])
  {
    AsWrittenIsConsecutive(temp, m);
    ConsecutiveAt(temp, i);
  }

  /** As written, a better aligned partner is passed over: the second agent is taken however poorly aligned. */
  lemma AsWrittenIgnoresAlignment(temp: seq<Candidate>, m: Measures)
    requires |temp| >= 3
    requires Lt(m.lineDistance(temp[0].position, temp[2].position), m.lineDistance(temp[0].position, temp[1].position))
    ensures PairsAsWritten(temp, m)[0] == Pair(temp[0], temp[1])
    ensures !CompareLe(m.lineDistance(temp[0].position, PairsAsWritten(temp, m)[0].second.position),
                       m.lineDistance(temp[0].position, temp[2].position))
  {
    AsWrittenPairsAreConsecutive(temp, m, 0);
  }

  /* ---------- evaluateDataField, evaluatePairsWeights ---------- */

  /** One pair's data field and weight. */
  datatype Field = Field(pair: Pair, value: Double, weight: Double)

  /**
   * The value expected at the agent from the pair's two readings:
   * from + (to - from) · (d_a / d_c) · cos, d_a the agent's distance to
   * `from` and d_c the pair's length.
   */
  function DataField(self: Point, p: Pair, m: Measures): Double
  {
    var da := m.dist(self, p.first.position);
    var dc := m.dist(p.first.position, p.second.position);
    var slope := Mul(Div(Finite(da), Finite(dc)), m.cosAngle(p.first.position, p.second.position));
    Add(p.first.lastPerception, Mul(Sub(p.second.lastPerception, p.first.lastPerception), slope))
  }

  function Fields(self: Point, ps: seq<Pair>, m: Measures): (r: seq<Field>)
    ensures |r| == |ps|
    ensures forall i :: 0 <= i < |ps| ==>
              (r[i].pair == ps[i] && r[i].weight == m.lineDistance(ps[i].first.position, ps[i].second.position))
  {
    seq(|ps|, i requires 0 <= i < |ps| =>
      Field(ps[i], DataField(self, ps[i], m), m.lineDistance(ps[i].first.position, ps[i].second.position)))
  }

  /**
   * A pair that agrees on its reading gives that reading, whatever the
   * geometry, as long as the angle is defined.
   */
  lemma AgreeingPairGivesItsReading(self: Point, p: Pair, m: Measures)
    requires IsFinite(p.first.lastPerception) && p.first.lastPerception == p.second.lastPerception
    requires m.dist(p.first.position, p.second.position) != 0.0
    requires IsFinite(m.cosAngle(p.first.position, p.second.position))
    ensures DataField(self, p, m) == p.first.lastPerception
  {
  }

  /* ---------- getOutliersPairs ---------- */

  /** Nearer the median first, Double.compare on the absolute gap. */
  function NearerMedian(median: Double): (Field, Field) -> bool
  {
    (e1: Field, e2: Field) => CompareLe(Abs(Sub(median, e1.value)), Abs(Sub(median, e2.value)))
  }

  /** A field at or beyond a tenth of `dist` from the reference value. */
  predicate IsOutlier(v: Double, reference: Double, dist: Double)
  {
    Le(v, Sub(reference, Mul(Finite(OutlierFactor), dist))) || Le(Add(reference, Mul(Finite(OutlierFactor), dist)), v)
  }

  function Filter(fs: seq<Field>, reference: Double, dist: Double, outlier: bool): (r: seq<Field>)
    ensures |r| <= |fs|
    ensures forall f :: f in r <==> (f in fs && IsOutlier(f.value, reference, dist) == outlier)
  {
    if |fs| == 0 then []
    else
      var init := Filter(fs[..|fs| - 1], reference, dist, outlier);
      var f := fs[|fs| - 1];
      assert fs == fs[..|fs| - 1] + [f];
      if IsOutlier(f.value, reference, dist) == outlier then init + [f] else init
  }

  /** The reference field (the one nearest the median) and its gap to the third nearest. */
  datatype Spread = Spread(sorted: seq<Field>, reference: Double, dist: Double)

  function SpreadOf(fs: seq<Field>, median: Double): (r: Spread)
    requires |fs| >= 3
    ensures |r.sorted| == |fs| && multiset(r.sorted) == multiset(fs)
    ensures r.reference == r.sorted[0].value && r.dist == Abs(Sub(r.reference, r.sorted[2].value))
  {
    var sorted := SortBy(fs, NearerMedian(median));
    Spread(sorted, sorted[0].value, Abs(Sub(sorted[0].value, sorted[2].value)))
  }

  /** getOutliersPairs: the outlying fields, in order of their distance to the median. */
  function Outliers(fs: seq<Field>, median: Double): (r: seq<Field>)
    requires |fs| >= 3
    ensures forall f :: f in r <==>
              (f in fs && IsOutlier(f.value, SpreadOf(fs, median).reference, SpreadOf(fs, median).dist))
  {
    var s := SpreadOf(fs, median);
    assert forall f :: f in s.sorted <==> f in multiset(fs);
    Filter(s.sorted, s.reference, s.dist, true)
  }

  /** With no spread, every field, the reference included, is an outlier. */
  lemma NoSpreadMakesAllOutliers(v: Double, reference: Double)
    requires IsFinite(v) && IsFinite(reference)
    ensures IsOutlier(v, reference, Finite(0.0))
  {
    var margin := Mul(Finite(OutlierFactor), Finite(0.0));
    assert margin == Finite(0.0);
    assert Sub(reference, margin) == reference;
    if v.r <= reference.r {
      assert Le(v, Sub(reference, margin));
    } else {
      assert Add(reference, margin) == reference;
      assert Le(Add(reference, margin), v);
    }
  }

  /** With a positive spread, the reference field itself is typical. */
  lemma ReferenceIsTypical(reference: Double, dist: Double)
    requires IsFinite(reference) && IsFinite(dist) && dist.r > 0.0
    ensures !IsOutlier(reference, reference, dist)
  {
  }

  /** A NaN field fails both comparisons and counts as typical. */
  lemma NaNIsTypical(reference: Double, dist: Double)
    ensures !IsOutlier(NaN, reference, dist)
  {
  }

  /* ---------- updateConfidenceZone ---------- */

  /** Both agents of each pair, with the same weight and direction. */
  function UpdatesFor(fs: seq<Field>, weight: real, inward: bool): (r: seq<ZoneUpdate>)
    ensures |r| == 2 * |fs|
    ensures forall u :: u in r ==> u.weight == weight && u.inward == inward
  {
    if |fs| == 0 then []
    else [ZoneUpdate(fs[0].pair.first.position, weight, inward),
          ZoneUpdate(fs[0].pair.second.position, weight, inward)] + UpdatesFor(fs[1..], weight, inward)
  }

  /** The data field values, the sample whose median getOutliersPairs takes. */
  function Values(fs: seq<Field>): (r: seq<Double>)
    ensures |r| == |fs| && forall i :: 0 <= i < |fs| ==> r[i] == fs[i].value
  {
    if |fs| == 0 then [] else [fs[0].value] + Values(fs[1..])
  }

  /**
   * The updates updateConfidenceZone makes: the outliers pushed away with
   * CZ_UPDATE_DELTA, then the other pairs pulled in with half of it.
   */
  function ZoneUpdates(fs: seq<Field>, median: Double): (r: seq<ZoneUpdate>)
    requires |fs| >= 3
    ensures var out := Outliers(fs, median);
            var typical := Filter(fs, SpreadOf(fs, median).reference, SpreadOf(fs, median).dist, false);
            |r| == 2 * (|out| + |typical|) &&
            (forall k :: 0 <= k < 2 * |out| ==> r[k].weight == CzUpdateDelta as real && !r[k].inward) &&
            (forall k :: 2 * |out| <= k < |r| ==> r[k].weight == (CzUpdateDelta / 2) as real && r[k].inward)
  {
    var s := SpreadOf(fs, median);
    var out := Outliers(fs, median);
    var typical := Filter(fs, s.reference, s.dist, false);
    var a := UpdatesFor(out, CzUpdateDelta as real, false);
    var b := UpdatesFor(typical, (CzUpdateDelta / 2) as real, true);
    assert forall k :: 0 <= k < |a| ==> a[k] in a;
    assert forall k :: 0 <= k < |b| ==> b[k] in b;
    a + b
  }

  /* ---------- evaluateEstimation ---------- */

  function Products(fs: seq<Field>): (r: seq<Double>)
    ensures |r| == |fs|
  {
    seq(|fs|, i requires 0 <= i < |fs| => Mul(fs[i].value, fs[i].weight))
  }

  function Weights(fs: seq<Field>): (r: seq<Double>)
    ensures |r| == |fs|
  {
    seq(|fs|, i requires 0 <= i < |fs| => fs[i].weight)
  }

  /** The mean of the fields weighted by their lines' distance to the agent; NaN for no fields. */
  function Estimation(fs: seq<Field>): Double
  {
    if |fs| == 0 then NaN else Div(SumD(Products(fs)), SumD(Weights(fs)))
  }

  lemma MulBelow(v: real, m: real, w: real)
    requires v <= m && w >= 0.0
    ensures v * w <= m * w
  {
    if w > 0.0 && v < m {
      MulPositives(m - v, w);
    }
  }

  lemma Distribute(h: real, a: real, b: real)
    ensures h * (a + b) == h * a + h * b
  {
  }

  lemma UpperStep(s: real, t: real, v: real, w: real, hi: real)
    requires s <= hi * t && w >= 0.0 && v <= hi
    ensures s + v * w <= hi * (t + w)
  {
    calc {
      s + v * w;
    <= { MulBelow(v, hi, w); }
      hi * t + hi * w;
      { Distribute(hi, t, w); }
      hi * (t + w);
    }
  }

  lemma LowerStep(s: real, t: real, v: real, w: real, lo: real)
    requires lo * t <= s && w >= 0.0 && lo <= v
    ensures lo * (t + w) <= s + v * w
  {
    calc {
      lo * (t + w);
      { Distribute(lo, t, w); }
      lo * t + lo * w;
    <= { MulBelow(lo, v, w); }
      s + v * w;
    }
  }

  /** p lies between lo and hi times w. */
  predicate ScaledBetween(p: real, w: real, lo: real, hi: real)
  {
    lo * w <= p <= hi * w
  }

  /** Products ps[i] = vs[i] · ws[i] with lo <= vs[i] <= hi and ws[i] >= 0 sum to between lo and hi times the weights. */
  lemma {:induction false} WeightedSumBounds(vs: seq<real>, ws: seq<real>, ps: seq<real>, lo: real, hi: real)
    requires |vs| == |ws| == |ps|
    requires forall i :: 0 <= i < |vs| ==> lo <= vs[i] <= hi && ws[i] >= 0.0 && ps[i] == vs[i] * ws[i]
    ensures ScaledBetween(Sum(ps), Sum(ws), lo, hi)
  {
    if |vs| > 0 {
      var n := |vs| - 1;
      WeightedSumBounds(vs[..n], ws[..n], ps[..n], lo, hi);
      var s, t := Sum(ps[..n]), Sum(ws[..n]);
      assert Sum(ps) == s + ps[n] && Sum(ws) == t + ws[n];
      ScaledStep(s, t, vs[n], ws[n], ps[n], lo, hi);
    }
  }

  lemma ScaledStep(s: real, t: real, v: real, w: real, p: real, lo: real, hi: real)
    requires ScaledBetween(s, t, lo, hi) && w >= 0.0 && lo <= v <= hi && p == v * w
    ensures ScaledBetween(s + p, t + w, lo, hi)
  {
    UpperStep(s, t, v, w, hi);
    LowerStep(s, t, v, w, lo);
  }

  lemma NegativeTimesPositive(u: real, d: real)
    requires d > 0.0
    ensures u < 0.0 ==> u * d < 0.0
  {
    if u < 0.0 {
      MulPositives(-u, d);
    }
  }

  lemma DivBetween(num: real, den: real, lo: real, hi: real)
    requires den > 0.0 && lo * den <= num <= hi * den
    ensures lo <= num / den <= hi
  {
    var q := num / den;
    DivideBack(num, den);
    NegativeTimesPositive(hi - q, den);
    NegativeTimesPositive(q - lo, den);
    assert (hi - q) * den == hi * den - q * den;
    assert (q - lo) * den == q * den - lo * den;
  }

  lemma ProductTerm(f: Field)
    requires IsFinite(f.value) && IsFinite(f.weight)
    ensures Mul(f.value, f.weight) == Finite(f.value.r * f.weight.r)
  {
  }

  lemma PointwiseProducts(vs: seq<real>, ws: seq<real>) returns (ps: seq<real>)
    requires |vs| == |ws|
    ensures |ps| == |vs| && forall i :: 0 <= i < |vs| ==> ps[i] == vs[i] * ws[i]
  {
    ps := seq(|vs|, i requires 0 <= i < |vs| => vs[i] * ws[i]);
  }

  /** The field values, and the products and weights of finite fields as reals. */
  lemma FiniteTerms(fs: seq<Field>) returns (vs: seq<real>, ps: seq<real>, ws: seq<real>)
    requires forall i :: 0 <= i < |fs| ==> IsFinite(fs[i].value) && IsFinite(fs[i].weight)
    ensures |vs| == |ps| == |ws| == |fs|
    ensures forall i :: 0 <= i < |fs| ==> fs[i].value == Finite(vs[i]) && fs[i].weight == Finite(ws[i])
    ensures forall i :: 0 <= i < |fs| ==> ps[i] == vs[i] * ws[i]
    ensures SumD(Products(fs)) == Finite(Sum(ps)) && SumD(Weights(fs)) == Finite(Sum(ws))
  {
    vs := seq(|fs|, i requires 0 <= i < |fs| => fs[i].value.r);
    ws := seq(|fs|, i requires 0 <= i < |fs| => fs[i].weight.r);
    ps := PointwiseProducts(vs, ws);
    ProductsSum(fs, vs, ws, ps);
    WeightsSum(fs, ws);
  }

  lemma ProductsSum(fs: seq<Field>, vs: seq<real>, ws: seq<real>, ps: seq<real>)
    requires |vs| == |ps| == |ws| == |fs|
    requires forall i :: 0 <= i < |fs| ==> fs[i].value == Finite(vs[i]) && fs[i].weight == Finite(ws[i])
    requires forall i :: 0 <= i < |fs| ==> ps[i] == vs[i] * ws[i]
    ensures SumD(Products(fs)) == Finite(Sum(ps))
  {
    var products := Products(fs);
    ProductTerms(fs, vs, ws, ps);
    SumDOfFinite(products);
    assert Reals(products) == ps;
  }

  lemma ProductTerms(fs: seq<Field>, vs: seq<real>, ws: seq<real>, ps: seq<real>)
    requires |vs| == |ps| == |ws| == |fs|
    requires forall i :: 0 <= i < |fs| ==> fs[i].value == Finite(vs[i]) && fs[i].weight == Finite(ws[i])
    requires forall i :: 0 <= i < |fs| ==> ps[i] == vs[i] * ws[i]
    ensures forall i :: 0 <= i < |fs| ==> Products(fs)[i] == Finite(ps[i])
  {
    forall i | 0 <= i < |fs|
      ensures Products(fs)[i] == Finite(ps[i])
    {
      ProductTerm(fs[i]);
    }
  }

  lemma WeightsSum(fs: seq<Field>, ws: seq<real>)
    requires |ws| == |fs|
    requires forall i :: 0 <= i < |fs| ==> fs[i].weight == Finite(ws[i])
    ensures SumD(Weights(fs)) == Finite(Sum(ws))
  {
    SumDOfFinite(Weights(fs));
    assert Reals(Weights(fs)) == ws;
  }

  /**
   * With finite fields between lo and hi and finite non-negative weights of
   * positive total, the estimate is a finite value between lo and hi.
   */
  lemma EstimationIsWeightedMean(fs: seq<Field>, lo: real, hi: real)
    requires forall i :: 0 <= i < |fs| ==> IsFinite(fs[i].value) && lo <= fs[i].value.r <= hi
    requires forall i :: 0 <= i < |fs| ==> IsFinite(fs[i].weight) && fs[i].weight.r >= 0.0
    requires exists i :: 0 <= i < |fs| && IsFinite(fs[i].weight) && fs[i].weight.r > 0.0
    ensures IsFinite(Estimation(fs)) && lo <= Estimation(fs).r <= hi
  {
    var vs, ps, ws := FiniteTerms(fs);
    var k :| 0 <= k < |fs| && IsFinite(fs[k].weight) && fs[k].weight.r > 0.0;
    WeightedMeanBounds(vs, ws, ps, lo, hi, k);
  }

  lemma WeightedMeanBounds(vs: seq<real>, ws: seq<real>, ps: seq<real>, lo: real, hi: real, k: int)
    requires |vs| == |ws| == |ps|
    requires forall i :: 0 <= i < |vs| ==> lo <= vs[i] <= hi && ws[i] >= 0.0 && ps[i] == vs[i] * ws[i]
    requires 0 <= k < |ws| && ws[k] > 0.0
    ensures IsFinite(Div(Finite(Sum(ps)), Finite(Sum(ws)))) && lo <= Div(Finite(Sum(ps)), Finite(Sum(ws))).r <= hi
  {
    WeightedSumBounds(vs, ws, ps, lo, hi);
    PositiveTermPositiveSum(ws, k);
    QuotientOfSums(Sum(ps), Sum(ws), lo, hi);
  }

  lemma QuotientOfSums(p: real, w: real, lo: real, hi: real)
    requires w > 0.0 && ScaledBetween(p, w, lo, hi)
    ensures IsFinite(Div(Finite(p), Finite(w))) && lo <= Div(Finite(p), Finite(w)).r <= hi
  {
    DivBetween(p, w, lo, hi);
  }

  lemma {:induction false} PositiveTermPositiveSum(ws: seq<real>, k: int)
    requires 0 <= k < |ws| && ws[k] > 0.0
    requires forall i :: 0 <= i < |ws| ==> ws[i] >= 0.0
    ensures Sum(ws) > 0.0
  {
    var n := |ws| - 1;
    if k == n {
      SumNonNegative(ws[..n]);
    } else {
      PositiveTermPositiveSum(ws[..n], k);
    }
  }

  /* ---------- act ---------- */

  /** The agents the consecutive pairs are made of: every agent in order, but an odd last one. */
  lemma {:induction false} ConsecutiveMembers(temp: seq<Candidate>)
    ensures Members(Consecutive(temp)) == temp[..2 * (|temp| / 2)]
    decreases |temp|
  {
    if |temp| >= 2 {
      var ps := Consecutive(temp);
      ConsecutiveMembers(temp[2..]);
      assert ps[1..] == Consecutive(temp[2..]);
      assert temp[..2 * (|temp| / 2)] == [temp[0], temp[1]] + temp[2..][..2 * (|temp[2..]| / 2)];
    }
  }

  /**
   * The pairing loop of evaluateCollinearSensors over the sorted agents, as
   * written: getMostAlignedAgent returns the first agent left, so the agents
   * are paired off in their distance order and none is used twice.
   */
  method PairOff(sorted: seq<Candidate>, m: Measures) returns (pairs: seq<Pair>)
    ensures pairs == PairsAsWritten(sorted, m)
    ensures Members(pairs) == sorted[..2 * (|sorted| / 2)]
  {
    var temp := sorted;
    pairs := [];
    while |temp| > 0
      invariant pairs + PairsAsWritten(temp, m) == PairsAsWritten(sorted, m)
      decreases |temp|
    {
      var from := temp[0];
      var rest := temp[1..];
      if |rest| > 0 {
        var to := AsWrittenPartner(from, rest, m);
        PairOffStep(pairs, temp, m);
        pairs := pairs + [Pair(from, to)];
        temp := RemoveAt(rest, 0);
      } else {
        temp := rest;
      }
    }
    AsWrittenIsConsecutive(sorted, m);
    ConsecutiveMembers(sorted);
  }

  lemma PairOffStep(pairs: seq<Pair>, temp: seq<Candidate>, m: Measures)
    requires |temp| >= 2
    ensures pairs + PairsAsWritten(temp, m) ==
            (pairs + [Pair(temp[0], AsWrittenPartner(temp[0], temp[1..], m))]) + PairsAsWritten(RemoveAt(temp[1..], 0), m)
  {
  }

  /** The pairs act forms from the agents inside the zone outline `points`, nearest first. */
  function ActPairs(self: Point, points: seq<Point>, all: seq<Candidate>, m: Measures): seq<Pair>
    requires |points| > 0
  {
    PairsAsWritten(SortBy(InZone(all, self, points), NearerTo(self)), m)
  }

  /** The value act returns: NaN with fewer than 3 pairs, else the weighted mean of the data fields. */
  function ActEstimate(self: Point, points: seq<Point>, all: seq<Candidate>, m: Measures): Double
    requires |points| > 0
  {
    var pairs := ActPairs(self, points, all, m);
    if |pairs| < 3 then NaN else Estimation(Fields(self, pairs, m))
  }

  /** The zone outline act leaves: unchanged with fewer than 3 pairs, else moved by updateConfidenceZone. */
  function ActZone(self: Point, points: seq<Point>, centroid: Point, minRadius: int, all: seq<Candidate>, m: Measures,
                   median: seq<Double> -> Double, locked: bool,
                   angle: (Point, Point, Point) -> Double, normalize: Point -> Point): seq<Point>
    requires |points| > 0
  {
    var pairs := ActPairs(self, points, all, m);
    if |pairs| < 3 then points
    else
      var fs := Fields(self, pairs, m);
      ApplyUpdates(points, centroid, minRadius, ZoneUpdates(fs, median(Values(fs))), locked, angle, normalize)
  }

  class ZoneCooperativeBehavior {
    /** The position of the agent the behaviour belongs to. */
    const self: Point
    /** That agent's confidence zone. */
    const zone: ConfidenceZone

    constructor (self: Point, zone: ConfidenceZone)
      ensures this.self == self && this.zone == zone
    {
      this.self := self;
      this.zone := zone;
    }

    /**
     * evaluateCollinearSensors: sort by distance, then pair off the nearest
     * left with getMostAlignedAgent's choice, which as written is the next agent.
     */
    method EvaluateCollinearSensors(agents: seq<Candidate>, m: Measures) returns (pairs: seq<Pair>)
      ensures pairs == PairsAsWritten(SortBy(agents, NearerTo(self)), m)
      ensures var sorted := SortBy(agents, NearerTo(self));
              Members(pairs) == sorted[..2 * (|sorted| / 2)]
    {
      var temp := SortBy(agents, NearerTo(self));
      pairs := PairOff(temp, m);
    }

    /**
     * updateConfidenceZone: the outlying pairs pushed away, then the others
     * pulled in, one update per agent; `median` is StatUtils.percentile(_, 50)
     * and `locked` LOCK_CONFIDENCE_ZONE.
     */
    method UpdateConfidenceZone(fs: seq<Field>, median: seq<Double> -> Double, locked: bool,
                                angle: (Point, Point, Point) -> Double, normalize: Point -> Point)
      requires |fs| >= 3
      modifies zone.polygon`points
      ensures zone.polygon.points == ApplyUpdates(old(zone.polygon.points), zone.polygon.centroid, zone.polygon.minRadius,
                                                  ZoneUpdates(fs, median(Values(fs))), locked, angle, normalize)
    {
      var us := ZoneUpdates(fs, median(Values(fs)));
      ApplyAll(us, locked, angle, normalize);
    }

    /** The zone updates in order, one confidenceZone.update each. */
    method ApplyAll(us: seq<ZoneUpdate>, locked: bool, angle: (Point, Point, Point) -> Double, normalize: Point -> Point)
      modifies zone.polygon`points
      ensures zone.polygon.points == ApplyUpdates(old(zone.polygon.points), zone.polygon.centroid, zone.polygon.minRadius,
                                                  us, locked, angle, normalize)
    {
      var i := 0;
      while i < |us|
        invariant 0 <= i <= |us|
        invariant zone.polygon.points == ApplyUpdates(old(zone.polygon.points), zone.polygon.centroid, zone.polygon.minRadius,
                                                      us[..i], locked, angle, normalize)
      {
        assert us[..i + 1][..i] == us[..i];
        zone.Update(us[i].position, us[i].weight, us[i].inward, locked, angle, normalize);
        i := i + 1;
      }
      assert us[..i] == us;
    }

    /**
     * act: NaN and the zone untouched with fewer than 3 pairs; otherwise the
     * zone takes the updates of updateConfidenceZone and the weighted mean
     * of the data fields is returned.
     */
    method Act(all: seq<Candidate>, m: Measures, median: seq<Double> -> Double, locked: bool,
               angle: (Point, Point, Point) -> Double, normalize: Point -> Point) returns (r: Double)
      requires |zone.polygon.points| > 0
      modifies zone.polygon`points
      ensures var pairs := PairsAsWritten(SortBy(InZone(all, self, old(zone.polygon.points)), NearerTo(self)), m);
              var fs := Fields(self, pairs, m);
              if |pairs| < 3 then r.NaN? && zone.polygon.points == old(zone.polygon.points)
              else r == Estimation(fs) &&
                   zone.polygon.points == ApplyUpdates(old(zone.polygon.points), zone.polygon.centroid, zone.polygon.minRadius,
                                                       ZoneUpdates(fs, median(Values(fs))), locked, angle, normalize)
      ensures r == ActEstimate(self, old(zone.polygon.points), all, m)
      ensures zone.polygon.points == ActZone(self, old(zone.polygon.points), zone.polygon.centroid, zone.polygon.minRadius,
                                             all, m, median, locked, angle, normalize)
    {
      var ags := InZone(all, self, zone.polygon.points);
      var pairs := EvaluateCollinearSensors(ags, m);
      if |pairs| < 3 {
        return NaN;
      }
      var fs := Fields(self, pairs, m);
      UpdateConfidenceZone(fs, median, locked, angle, normalize);
      r := Estimation(fs);
    }
  }
}
