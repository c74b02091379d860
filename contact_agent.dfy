/**
 * The contact sensor agent (src/agent/ContactSensorAgent.java): each tick it
 * pairs the ambient agents, records the finite correlations of each pair,
 * every 64 ticks condenses each pair's history into a window median, and
 * every UPDATE_RATE ticks evaluates the state of the contact sensor.
 */
module ContactSensors {
  import opened Wrappers
  import opened Numeric
  import opened Seqs
  import opened Contexts
  import opened Couplings

  /** The initial UPDATE_RATE. */
  const InitialUpdateRate: int := 2000
  /** Integer.MAX_VALUE, the start of setUpdateRate's minimum. */
  const IntMax: int := 0x7fff_ffff

  /** The key Pair.of(A1, A2) of the correlation maps; agents are told apart by name. */
  datatype PairKey = PairKey(left: AgentId, right: AgentId)

  function KeyOf(c: Coupled): PairKey
  {
    PairKey(c.first.name, c.second.name)
  }

  /** The coupling strategy returns a map: no key twice. */
  predicate DistinctKeys(cs: seq<Coupled>)
  {
    forall i, j :: 0 <= i < j < |cs| ==> KeyOf(cs[i]) != KeyOf(cs[j])
  }

  function KeysOf(cs: seq<Coupled>): set<PairKey>
  {
    set c | c in cs :: KeyOf(c)
  }

  /** A pair's history before this tick; a pair seen for the first time starts empty. */
  function HistoryOf(h: map<PairKey, seq<real>>, k: PairKey): seq<real>
  {
    if k in h then h[k] else []
  }

  /* ---------- evaluatePunctualCorrelation ---------- */

  /** The punctual histories after one tick's correlations: each pair gains its value when finite. */
  function Recorded(h: map<PairKey, seq<real>>, cs: seq<Coupled>): (r: map<PairKey, seq<real>>)
  {
    if |cs| == 0 then h
    else
      var c := cs[|cs| - 1];
      var init := cs[..|cs| - 1];
      var h1 := Recorded(h, init);
      h1[KeyOf(c) := HistoryOf(h1, KeyOf(c)) + (if IsFinite(c.correlation) then [c.correlation.r] else [])]
  }

  /**
   * A pair of this tick gains exactly its correlation when that is finite
   * and nothing otherwise; a pair absent from this tick keeps its history.
   */
  lemma {:induction false} RecordedSpec(h: map<PairKey, seq<real>>, cs: seq<Coupled>, k: PairKey)
    requires DistinctKeys(cs)
    ensures forall i :: 0 <= i < |cs| && KeyOf(cs[i]) == k ==>
              HistoryOf(Recorded(h, cs), k) == HistoryOf(h, k) + (if IsFinite(cs[i].correlation) then [cs[i].correlation.r] else [])
    ensures k !in KeysOf(cs) ==> HistoryOf(Recorded(h, cs), k) == HistoryOf(h, k)
    decreases |cs|
  {
    if |cs| > 0 {
      var n := |cs| - 1;
      var init := cs[..n];
      assert cs == init + [cs[n]];
      assert DistinctKeys(init);
      RecordedSpec(h, init, k);
      if KeyOf(cs[n]) == k {
        assert k !in KeysOf(init);
      }
    }
  }

  /** The pairs with a history are those that had one and those of this tick. */
  lemma {:induction false} RecordedKeys(h: map<PairKey, seq<real>>, cs: seq<Coupled>, k: PairKey)
    ensures k in Recorded(h, cs) <==> k in h || k in KeysOf(cs)
    decreases |cs|
  {
    if |cs| > 0 {
      var n := |cs| - 1;
      assert cs == cs[..n] + [cs[n]];
      RecordedKeys(h, cs[..n], k);
    }
  }

  /** One more pair of the loop. */
  lemma RecordedStep(h: map<PairKey, seq<real>>, cs: seq<Coupled>, j: int)
    requires 0 <= j < |cs|
    ensures var h1 := Recorded(h, cs[..j]);
            Recorded(h, cs[..j + 1]) ==
            h1[KeyOf(cs[j]) := HistoryOf(h1, KeyOf(cs[j])) + (if IsFinite(cs[j].correlation) then [cs[j].correlation.r] else [])]
  {
    assert cs[..j + 1][..j] == cs[..j];
  }

  /** The loop of evaluatePunctualCorrelation over the map's pairs. */
  method RecordAll(h: map<PairKey, seq<real>>, cs: seq<Coupled>) returns (r: map<PairKey, seq<real>>)
    ensures r == Recorded(h, cs)
  {
    r := h;
    var j := 0;
    while j < |cs|
      invariant 0 <= j <= |cs|
      invariant r == Recorded(h, cs[..j])
    {
      var k := KeyOf(cs[j]);
      RecordedStep(h, cs, j);
      var hist := HistoryOf(r, k);
      if IsFinite(cs[j].correlation) {
        hist := hist + [cs[j].correlation.r];
      } else {
        assert hist + [] == hist;
      }
      r := r[k := hist];
      j := j + 1;
    }
    assert cs[..j] == cs;
  }

  /* ---------- calculateCorrelationBetweenPairs ---------- */

  /**
   * What the loop `j = limit; j > max(0, j - 64); j--` collects: its
   * condition is j > 0, so the values from the newest down to index 1.
   */
  function WindowOfHistory(hist: seq<real>): (r: seq<real>)
    ensures |r| == if |hist| == 0 then 0 else |hist| - 1
    ensures forall k :: 0 <= k < |r| ==> r[k] == hist[|hist| - 1 - k]
  {
    if |hist| <= 1 then [] else Reverse(hist[1..])
  }

  /** The windowed histories after one call: each pair gains |window| copies of its window's median. */
  function Windowed(w: map<PairKey, seq<real>>, p: map<PairKey, seq<real>>, cs: seq<Coupled>,
                    median: seq<real> -> real): (r: map<PairKey, seq<real>>)
    requires KeysOf(cs) <= p.Keys
    ensures r.Keys == w.Keys + KeysOf(cs)
  {
    if |cs| == 0 then w
    else
      var c := cs[|cs| - 1];
      var init := cs[..|cs| - 1];
      assert cs == init + [c];
      var w1 := Windowed(w, p, init, median);
      var window := WindowOfHistory(p[KeyOf(c)]);
      w1[KeyOf(c) := HistoryOf(w1, KeyOf(c)) + Repeat(median(window), |window|)]
  }

  /**
   * Every pair of the tick gains size - 1 copies of one value, the median of
   * its punctual history without index 0; other pairs keep theirs.
   */
  lemma {:induction false} WindowedSpec(w: map<PairKey, seq<real>>, p: map<PairKey, seq<real>>, cs: seq<Coupled>,
                                        median: seq<real> -> real, k: PairKey)
    requires KeysOf(cs) <= p.Keys && DistinctKeys(cs)
    ensures k in KeysOf(cs) ==>
              Windowed(w, p, cs, median)[k] ==
              HistoryOf(w, k) + Repeat(median(WindowOfHistory(p[k])), if |p[k]| == 0 then 0 else |p[k]| - 1)
    ensures k !in KeysOf(cs) ==> HistoryOf(Windowed(w, p, cs, median), k) == HistoryOf(w, k)
    decreases |cs|
  {
    if |cs| > 0 {
      var n := |cs| - 1;
      var init := cs[..n];
      KeysOfInit(cs, p);
      WindowedSpec(w, p, init, median, k);
    }
  }

  /** The keys of all pairs but the last, which is none of theirs. */
  lemma KeysOfInit(cs: seq<Coupled>, p: map<PairKey, seq<real>>)
    requires |cs| > 0 && KeysOf(cs) <= p.Keys && DistinctKeys(cs)
    ensures var init := cs[..|cs| - 1];
            KeysOf(init) <= p.Keys && DistinctKeys(init) &&
            KeysOf(cs) == KeysOf(init) + {KeyOf(cs[|cs| - 1])} && KeyOf(cs[|cs| - 1]) !in KeysOf(init)
  {
    var init := cs[..|cs| - 1];
    assert cs == init + [cs[|cs| - 1]];
    forall c | c in init
      ensures KeyOf(c) != KeyOf(cs[|cs| - 1])
    {
      var i :| 0 <= i < |init| && init[i] == c;
      assert cs[i] == c;
    }
  }

  /** One more pair of the loop. */
  lemma WindowedStep(w: map<PairKey, seq<real>>, p: map<PairKey, seq<real>>, cs: seq<Coupled>,
                     median: seq<real> -> real, j: int)
    requires 0 <= j < |cs| && KeysOf(cs) <= p.Keys
    ensures KeysOf(cs[..j]) <= p.Keys && KeysOf(cs[..j + 1]) <= p.Keys && KeyOf(cs[j]) in p
    ensures var w1 := Windowed(w, p, cs[..j], median);
            var window := WindowOfHistory(p[KeyOf(cs[j])]);
            Windowed(w, p, cs[..j + 1], median) == w1[KeyOf(cs[j]) := HistoryOf(w1, KeyOf(cs[j])) + Repeat(median(window), |window|)]
  {
    assert cs[..j + 1][..j] == cs[..j];
    assert cs[j] in cs;
    forall c | c in cs[..j + 1] ensures c in cs { }
  }

  /* ---------- setUpdateRate ---------- */

  /** min(samplesL - 1, samplesR - 1) of a pair. */
  function RateOf(k: PairKey, samples: AgentId -> int): int
  {
    var sl := samples(k.left) - 1;
    var sr := samples(k.right) - 1;
    if sl < sr then sl else sr
  }

  /** r is the least of `start` and the rates of the pairs in `keys`. */
  predicate IsLeastRate(r: int, start: int, keys: set<PairKey>, samples: AgentId -> int)
  {
    r <= start && (forall k :: k in keys ==> r <= RateOf(k, samples)) &&
    (r == start || exists k :: k in keys && r == RateOf(k, samples))
  }

  /** The loop of setUpdateRate over the pairs seen so far. */
  method LeastRate(keys: set<PairKey>, samples: AgentId -> int) returns (r: int)
    ensures IsLeastRate(r, IntMax, keys, samples)
  {
    r := IntMax;
    var todo := keys;
    while todo != {}
      invariant todo <= keys
      invariant IsLeastRate(r, IntMax, keys - todo, samples)
      decreases |todo|
    {
      var k :| k in todo;
      var ur := RateOf(k, samples);
      if ur < r {
        r := ur;
      }
      todo := todo - {k};
    }
  }

  /** The least of two rates, as Math.min. */
  lemma LeastRateOfMin(r: int, old_: int, keys: set<PairKey>, samples: AgentId -> int)
    requires IsLeastRate(r, IntMax, keys, samples) && old_ <= IntMax
    ensures IsLeastRate(if old_ < r then old_ else r, old_, keys, samples)
  {
  }

  /* ---------- getObservedCorrelationsCount ---------- */

  /** r is the least history length, or 0 with no histories. */
  predicate IsObservedCount(r: nat, h: map<PairKey, seq<real>>)
  {
    (h == map[] ==> r == 0) &&
    (h != map[] ==> (forall k :: k in h ==> r <= |h[k]|) && exists k :: k in h && r == |h[k]|)
  }

  /** The number of rows the state evaluation can read in every pair's windowed history. */
  method ObservedCorrelationsCount(h: map<PairKey, seq<real>>) returns (r: nat)
    ensures IsObservedCount(r, h)
  {
    if h == map[] {
      return 0;
    }
    var first :| first in h;
    r := |h[first]|;
    var todo := h.Keys - {first};
    while todo != {}
      invariant todo <= h.Keys && first !in todo
      invariant forall k :: k in h.Keys - todo ==> r <= |h[k]|
      invariant exists k :: k in h && r == |h[k]|
      decreases |todo|
    {
      var k :| k in todo;
      if |h[k]| < r {
        r := |h[k]|;
      }
      todo := todo - {k};
    }
  }

  /** Every pair's history has at least the observed count of rows, so reading row i below it never fails. */
  lemma ObservedRowsExist(r: nat, h: map<PairKey, seq<real>>, k: PairKey, i: int)
    requires IsObservedCount(r, h) && k in h && 0 <= i < r
    ensures i < |h[k]|
  {
  }

  /* ---------- computeCriticality ---------- */

  /** 1 / sensorsCount in double arithmetic: infinite without pairs. */
  function Criticality(sensorsCount: nat): (r: Double)
    ensures sensorsCount == 0 ==> r == PosInf
    ensures sensorsCount > 0 ==> r.Finite? && 0.0 < r.r <= 1.0 && r.r * (sensorsCount as real) == 1.0
  {
    Div(Finite(1.0), Finite(sensorsCount as real))
  }

  /** More pairs make the contact sensor less critical. */
  lemma CriticalityDecreases(a: nat, b: nat)
    requires 0 < a <= b
    ensures Criticality(b).r <= Criticality(a).r
  {
    var ca, cb := Criticality(a).r, Criticality(b).r;
    assert ca == 1.0 / (a as real) && cb == 1.0 / (b as real);
    assert cb * (b as real) == ca * (a as real);
  }

  /* ---------- the agent ---------- */

  /** What one call of decideAndAct did. */
  datatype Step = Idle | Ticked(windowing: bool, stateEvaluation: bool)

  class ContactSensorAgent {
    /** The tick counter i. */
    var i: int
    var sensorsCount: nat
    /** punctualCorrelationHistory: the finite correlations of each pair. */
    var punctual: map<PairKey, seq<real>>
    /** correlationHistory: the window medians of each pair. */
    var windowed: map<PairKey, seq<real>>
    /** UPDATE_RATE. */
    var updateRate: int
    var updateRateSet: bool

    ghost predicate Valid()
      reads this
    {
      0 <= i && updateRate <= InitialUpdateRate && windowed.Keys <= punctual.Keys
    }

    constructor ()
      ensures Valid() && i == 0 && sensorsCount == 0 && punctual == map[] && windowed == map[]
      ensures updateRate == InitialUpdateRate && !updateRateSet
    {
      i := 0;
      sensorsCount := 0;
      punctual := map[];
      windowed := map[];
      updateRate := InitialUpdateRate;
      updateRateSet := false;
    }

    /**
     * decideAndAct with `neighborCount` neighbours and `cs` the map the
     * coupling strategy returned this tick. `i % UPDATE_RATE` throws when
     * setUpdateRate has brought UPDATE_RATE down to zero.
     */
    method DecideAndAct(neighborCount: nat, cs: seq<Coupled>, samples: AgentId -> int, median: seq<real> -> real)
      returns (r: Result<Step>)
      requires Valid() && DistinctKeys(cs)
      modifies this
      ensures Valid()
      ensures neighborCount <= 1 ==> r == Ok(Idle) && unchanged(this)
      ensures neighborCount > 1 ==>
                punctual == Recorded(old(punctual), cs) && sensorsCount == |cs| && KeysOf(cs) <= punctual.Keys &&
                updateRate <= old(updateRate) && updateRateSet &&
                (old(updateRateSet) ==> updateRate == old(updateRate)) &&
                (!old(updateRateSet) ==> IsLeastRate(updateRate, old(updateRate), punctual.Keys, samples)) &&
                windowed == (if old(i) > 0 && old(i) % CorrelationWindowSize == 0
                             then Windowed(old(windowed), punctual, cs, median) else old(windowed))
      ensures neighborCount > 1 ==>
                (r.Err? <==> old(i) > 0 && updateRate == 0) &&
                (r.Ok? ==> i == old(i) + 1 &&
                           r.value == Ticked(old(i) > 0 && old(i) % CorrelationWindowSize == 0,
                                             old(i) > 0 && old(i) % updateRate == 0)) &&
                (r.Err? ==> i == old(i))
    {
      if neighborCount <= 1 {
        return Ok(Idle);
      }
      EvaluatePunctualCorrelation(cs);
      if !updateRateSet {
        SetUpdateRate(samples);
        updateRateSet := true;
      }
      var windowing := i > 0 && i % CorrelationWindowSize == 0;
      if windowing {
        CalculateCorrelationBetweenPairs(cs, median);
      }
      if i > 0 && updateRate == 0 {
        return Err("ArithmeticException");
      }
      var evaluation := i > 0 && i % updateRate == 0;
      i := i + 1;
      r := Ok(Ticked(windowing, evaluation));
    }

    /** evaluatePunctualCorrelation: every pair gets a history, and its correlation when finite. */
    method EvaluatePunctualCorrelation(cs: seq<Coupled>)
      requires Valid()
      modifies this`punctual, this`sensorsCount
      ensures Valid()
      ensures punctual == Recorded(old(punctual), cs) && sensorsCount == |cs|
      ensures KeysOf(cs) <= punctual.Keys
    {
      sensorsCount := |cs|;
      punctual := RecordAll(punctual, cs);
      forall k | k in old(punctual) || k in KeysOf(cs)
        ensures k in punctual
      {
        RecordedKeys(old(punctual), cs, k);
      }
    }

    /** setUpdateRate: UPDATE_RATE becomes the least of itself and the rates of all pairs seen. */
    method SetUpdateRate(samples: AgentId -> int)
      requires Valid()
      modifies this`updateRate
      ensures Valid()
      ensures IsLeastRate(updateRate, old(updateRate), punctual.Keys, samples)
    {
      var rate := LeastRate(punctual.Keys, samples);
      LeastRateOfMin(rate, updateRate, punctual.Keys, samples);
      updateRate := if updateRate < rate then updateRate else rate;
    }

    /** calculateCorrelationBetweenPairs over the pairs of this tick. */
    method CalculateCorrelationBetweenPairs(cs: seq<Coupled>, median: seq<real> -> real)
      requires Valid() && KeysOf(cs) <= punctual.Keys
      modifies this`windowed
      ensures Valid()
      ensures windowed == Windowed(old(windowed), punctual, cs, median)
    {
      var j := 0;
      ghost var start := windowed;
      while j < |cs|
        invariant 0 <= j <= |cs|
        invariant KeysOf(cs[..j]) <= punctual.Keys
        invariant windowed == Windowed(start, punctual, cs[..j], median)
        invariant windowed.Keys <= punctual.Keys
      {
        WindowedStep(start, punctual, cs, median, j);
        var k := KeyOf(cs[j]);
        var hist := punctual[k];
        var window := CollectWindow(hist);
        var m := median(window);
        var h := if k in windowed then windowed[k] else [];
        h := AppendCopies(h, |hist| - 1, m);
        windowed := windowed[k := h];
        j := j + 1;
      }
      assert cs[..j] == cs;
    }

    /** The first loop of calculateCorrelationBetweenPairs. */
    method CollectWindow(hist: seq<real>) returns (window: seq<real>)
      ensures window == WindowOfHistory(hist)
    {
      window := [];
      var j := |hist| - 1;
      while j > Max0(j - CorrelationWindowSize)
        invariant |hist| > 0 ==> 0 <= j < |hist|
        invariant |hist| == 0 ==> j == -1
        invariant |window| == |hist| - 1 - j
        invariant forall k :: 0 <= k < |window| ==> window[k] == hist[|hist| - 1 - k]
        decreases j
      {
        window := window + [hist[j]];
        j := j - 1;
      }
      if |hist| <= 1 {
        assert window == [];
      } else {
        assert j == 0;
        assert window == WindowOfHistory(hist);
      }
    }

    /** The second loop: one copy of the median per index from limit down to 1. */
    method AppendCopies(h: seq<real>, limit: int, m: real) returns (r: seq<real>)
      ensures r == h + Repeat(m, if limit > 0 then limit else 0)
    {
      r := h;
      var j := limit;
      while j > Max0(j - CorrelationWindowSize)
        invariant j <= limit && (limit >= 0 ==> 0 <= j) && (limit <= 0 ==> j == limit)
        invariant r == h + Repeat(m, limit - j)
        decreases j
      {
        assert Repeat(m, limit - j + 1) == Repeat(m, limit - j) + [m];
        r := r + [m];
        j := j - 1;
      }
      if limit <= 0 {
        assert r == h + Repeat(m, 0);
      } else {
        assert j == 0;
      }
    }

    /** getObservedCorrelationsCount */
    method GetObservedCorrelationsCount() returns (r: nat)
      ensures IsObservedCount(r, windowed)
    {
      r := ObservedCorrelationsCount(windowed);
    }

    /** computeCriticality */
    function ComputeCriticality(): Double
      reads this
    {
      Criticality(sensorsCount)
    }
  }

  /** Math.max(0, x) */
  function Max0(x: int): int
  {
    if x > 0 then x else 0
  }
}
