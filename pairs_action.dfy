/**
 * The zone update a contact sensor agent applies to the correlated pairs of
 * ambient agents around it (src/agent/contactSensor/impl/SensorsPairsActionImpl.java):
 * a pair whose correlation is at most the threshold pulls both zones towards
 * the contact sensor, any other pair pushes both away, always with weight 5.
 */
module PairsActions {
  import opened Numeric
  import opened Geometry
  import opened Polygons
  import opened ConfidenceZones

  /** CZ_UPDATE_RATE */
  const CzUpdateRate: real := 5.0

  /**
   * One key of the correlation map with its value: the two ambient agents,
   * as indexes into the agents' zones, and their correlation.
   */
  datatype Correlated = Correlated(left: nat, right: nat, correlation: Double)

  predicate Involves(c: Correlated, k: nat)
  {
    c.left == k || c.right == k
  }

  /** The update both agents of a pair receive: towards self iff `correlation <= threshold` in Java. */
  function ActionOf(c: Correlated, self: Point, threshold: Double): ZoneUpdate
  {
    ZoneUpdate(self, CzUpdateRate, Le(c.correlation, threshold))
  }

  /** The updates the zone of agent k receives, in the order of the map's keys. */
  function UpdatesOf(k: nat, cs: seq<Correlated>, self: Point, threshold: Double): (r: seq<ZoneUpdate>)
    ensures forall u :: u in r ==> u.position == self && u.weight == CzUpdateRate
    ensures |r| <= 2 * |cs|
  {
    if |cs| == 0 then []
    else
      var c := cs[|cs| - 1];
      var u := ActionOf(c, self, threshold);
      UpdatesOf(k, cs[..|cs| - 1], self, threshold) + (if c.left == k then [u] else []) + (if c.right == k then [u] else [])
  }

  /**
   * Agent k's zone receives exactly the actions of the pairs it belongs to:
   * an update reaches it iff some pair involving k carries it.
   */
  lemma {:induction false} UpdatesOfAgent(k: nat, cs: seq<Correlated>, self: Point, threshold: Double, u: ZoneUpdate)
    ensures u in UpdatesOf(k, cs, self, threshold) <==>
            exists i :: 0 <= i < |cs| && Involves(cs[i], k) && u == ZoneUpdate(self, CzUpdateRate, Le(cs[i].correlation, threshold))
    decreases |cs|
  {
    if |cs| > 0 {
      var n := |cs| - 1;
      var init := cs[..n];
      UpdatesOfAgent(k, init, self, threshold, u);
      assert forall i :: 0 <= i < n ==> init[i] == cs[i];
      var a := ActionOf(cs[n], self, threshold);
      if u in UpdatesOf(k, cs, self, threshold) {
        if u !in UpdatesOf(k, init, self, threshold) {
          assert u == a && Involves(cs[n], k);
        }
      } else {
        forall i | 0 <= i < |cs| && Involves(cs[i], k)
          ensures u != ZoneUpdate(self, CzUpdateRate, Le(cs[i].correlation, threshold))
        {
          if i == n {
            assert a in UpdatesOf(k, cs, self, threshold);
          }
        }
      }
    }
  }

  /** A pair whose correlation is NaN fails the `<=` test, so both its agents are pushed away. */
  lemma NaNCorrelationPushesAway(cs: seq<Correlated>, self: Point, threshold: Double, i: int)
    requires 0 <= i < |cs| && cs[i].correlation.NaN?
    ensures ZoneUpdate(self, CzUpdateRate, false) in UpdatesOf(cs[i].left, cs, self, threshold)
    ensures ZoneUpdate(self, CzUpdateRate, false) in UpdatesOf(cs[i].right, cs, self, threshold)
  {
    UpdatesOfAgent(cs[i].left, cs, self, threshold, ZoneUpdate(self, CzUpdateRate, false));
    UpdatesOfAgent(cs[i].right, cs, self, threshold, ZoneUpdate(self, CzUpdateRate, false));
  }

  /** An agent in no pair receives no update, so its zone is left as it was. */
  lemma {:induction false} UnpairedAgentUnchanged(k: nat, cs: seq<Correlated>, self: Point, threshold: Double,
                                                  ps: seq<Point>, centroid: Point, minRadius: int, locked: bool,
                                                  angle: (Point, Point, Point) -> Double, normalize: Point -> Point)
    requires forall i :: 0 <= i < |cs| ==> !Involves(cs[i], k)
    ensures UpdatesOf(k, cs, self, threshold) == []
    ensures ApplyUpdates(ps, centroid, minRadius, UpdatesOf(k, cs, self, threshold), locked, angle, normalize) == ps
    decreases |cs|
  {
    if |cs| > 0 {
      UnpairedAgentUnchanged(k, cs[..|cs| - 1], self, threshold, ps, centroid, minRadius, locked, angle, normalize);
    }
  }

  /** Agent k's vertices after the two updates of pair c. */
  function AfterPair(p: seq<Point>, k: nat, c: Correlated, self: Point, threshold: Double, centroid: Point, minRadius: int,
                     locked: bool, angle: (Point, Point, Point) -> Double, normalize: Point -> Point): seq<Point>
  {
    var toInclude := Le(c.correlation, threshold);
    var p1 := if c.left == k then Updated(p, centroid, minRadius, self, CzUpdateRate, toInclude, locked, angle, normalize) else p;
    if c.right == k then Updated(p1, centroid, minRadius, self, CzUpdateRate, toInclude, locked, angle, normalize) else p1
  }

  /** One pair of the loop, seen from agent k's zone: p0 before it, p1 after the left update, p2 after the right one. */
  lemma PairStep(k: nat, cs: seq<Correlated>, i: int, self: Point, threshold: Double, start: seq<Point>, centroid: Point,
                 minRadius: int, locked: bool, angle: (Point, Point, Point) -> Double, normalize: Point -> Point)
    requires 0 <= i < |cs|
    ensures var p0 := ApplyUpdates(start, centroid, minRadius, UpdatesOf(k, cs[..i], self, threshold), locked, angle, normalize);
            AfterPair(p0, k, cs[i], self, threshold, centroid, minRadius, locked, angle, normalize) ==
            ApplyUpdates(start, centroid, minRadius, UpdatesOf(k, cs[..i + 1], self, threshold), locked, angle, normalize)
  {
    assert cs[..i + 1][..i] == cs[..i];
    var u := ActionOf(cs[i], self, threshold);
    var us := UpdatesOf(k, cs[..i], self, threshold);
    var p0 := ApplyUpdates(start, centroid, minRadius, us, locked, angle, normalize);
    var p1 := if cs[i].left == k then Updated(p0, centroid, minRadius, self, CzUpdateRate, u.inward, locked, angle, normalize)
              else p0;
    var vs;
    if cs[i].left == k {
      vs := us + [u];
      ApplyUpdatesSnoc(start, centroid, minRadius, us, u, locked, angle, normalize);
    } else {
      vs := us;
    }
    assert p1 == ApplyUpdates(start, centroid, minRadius, vs, locked, angle, normalize);
    if cs[i].right == k {
      assert UpdatesOf(k, cs[..i + 1], self, threshold) == vs + [u];
      ApplyUpdatesSnoc(start, centroid, minRadius, vs, u, locked, angle, normalize);
    } else {
      assert UpdatesOf(k, cs[..i + 1], self, threshold) == vs;
    }
  }

  /** Every zone's vertices are its start vertices with its own updates from the pairs cs applied. */
  ghost predicate ZonesAfter(zones: seq<ConfidenceZone>, start: seq<seq<Point>>, cs: seq<Correlated>, self: Point, threshold: Double,
                             locked: bool, angle: (Point, Point, Point) -> Double, normalize: Point -> Point)
    reads set j | 0 <= j < |zones| :: zones[j].polygon
  {
    |start| == |zones| &&
    forall k :: 0 <= k < |zones| ==>
      zones[k].polygon.points == ApplyUpdates(start[k], zones[k].polygon.centroid, zones[k].polygon.minRadius,
                                              UpdatesOf(k, cs, self, threshold), locked, angle, normalize)
  }

  /**
   * act(self, threshold, correlations): both zones of every pair updated in
   * turn. The zones of distinct agents are distinct objects.
   */
  method Act(zones: seq<ConfidenceZone>, self: Point, threshold: Double, cs: seq<Correlated>, locked: bool,
             angle: (Point, Point, Point) -> Double, normalize: Point -> Point)
    requires forall i :: 0 <= i < |cs| ==> cs[i].left < |zones| && cs[i].right < |zones|
    requires forall i, j :: 0 <= i < j < |zones| ==> zones[i].polygon != zones[j].polygon
    modifies set k | 0 <= k < |zones| :: zones[k].polygon
    ensures forall k :: 0 <= k < |zones| ==> zones[k].polygon.centroid == old(zones[k].polygon.centroid)
    ensures forall k :: 0 <= k < |zones| ==>
              zones[k].polygon.points == ApplyUpdates(old(zones[k].polygon.points), zones[k].polygon.centroid,
                                                      zones[k].polygon.minRadius, UpdatesOf(k, cs, self, threshold),
                                                      locked, angle, normalize)
  {
    ghost var start := seq(|zones|, k requires 0 <= k < |zones| reads set j | 0 <= j < |zones| :: zones[j].polygon =>
                             zones[k].polygon.points);
    var i := 0;
    while i < |cs|
      invariant 0 <= i <= |cs|
      invariant forall k :: 0 <= k < |zones| ==> zones[k].polygon.centroid == old(zones[k].polygon.centroid)
      invariant ZonesAfter(zones, start, cs[..i], self, threshold, locked, angle, normalize)
    {
      ApplyPair(zones, cs, i, self, threshold, start, locked, angle, normalize);
      i := i + 1;
    }
    assert cs[..i] == cs;
  }

  /** The loop body: both zones of pair cs[i] updated, left first. */
  method ApplyPair(zones: seq<ConfidenceZone>, cs: seq<Correlated>, i: int, self: Point, threshold: Double,
                   ghost start: seq<seq<Point>>, locked: bool, angle: (Point, Point, Point) -> Double, normalize: Point -> Point)
    requires 0 <= i < |cs| && cs[i].left < |zones| && cs[i].right < |zones|
    requires forall i, j :: 0 <= i < j < |zones| ==> zones[i].polygon != zones[j].polygon
    requires ZonesAfter(zones, start, cs[..i], self, threshold, locked, angle, normalize)
    modifies zones[cs[i].left].polygon`points, zones[cs[i].right].polygon`points
    ensures ZonesAfter(zones, start, cs[..i + 1], self, threshold, locked, angle, normalize)
  {
    var c := cs[i];
    var toInclude := Le(c.correlation, threshold);
    Apply(zones, c.left, self, toInclude, locked, angle, normalize);
    Apply(zones, c.right, self, toInclude, locked, angle, normalize);
    forall k | 0 <= k < |zones|
      ensures zones[k].polygon.points == ApplyUpdates(start[k], zones[k].polygon.centroid, zones[k].polygon.minRadius,
                                                      UpdatesOf(k, cs[..i + 1], self, threshold), locked, angle, normalize)
    {
      PairStep(k, cs, i, self, threshold, start[k], zones[k].polygon.centroid, zones[k].polygon.minRadius,
               locked, angle, normalize);
    }
  }

  /** One confidenceZone.update of the loop, on zone k, leaving the other zones alone. */
  method Apply(zones: seq<ConfidenceZone>, k: nat, self: Point, toInclude: bool, locked: bool,
               angle: (Point, Point, Point) -> Double, normalize: Point -> Point)
    requires k < |zones|
    requires forall i, j :: 0 <= i < j < |zones| ==> zones[i].polygon != zones[j].polygon
    modifies zones[k].polygon`points
    ensures forall j :: 0 <= j < |zones| ==>
              zones[j].polygon.points ==
              if j == k then Updated(old(zones[k].polygon.points), zones[k].polygon.centroid, zones[k].polygon.minRadius,
                                     self, CzUpdateRate, toInclude, locked, angle, normalize)
              else old(zones[j].polygon.points)
  {
    zones[k].Update(self, CzUpdateRate, toInclude, locked, angle, normalize);
  }
}
