/**
 * The estimation engine of an ambient context agent
 * (src/agent/AmbientContextAgent.java): the fallback chain that estimates a
 * missing reading, the trust adjustment that follows a cooperative
 * estimation, and one decideAndAct tick that records the perception, fills a
 * gap and stores the new context.
 */
module AmbientAgents {
  import opened Wrappers
  import opened Numeric
  import opened Seqs
  import opened ContextInfos
  import opened ContextEntries
  import opened Contexts
  import opened Estimation
  import opened Descriptors
  import opened ContextStores
  import opened Agents
  import VirtualSensors
  import Geometry
  import ZoneCooperation

  /** MIN_NUMBER_SAMPLE_OBSERVED */
  const MinNumberSampleObserved: int := 10
  /** CONTEXT_TO_USE_FOR_ESTIMATION */
  const ContextToUseForEstimation: int := 10
  /** estimateWithNeighbors keeps `subList(0, min(size, 5))`. */
  const NeighborsForFallback: int := 5

  /** AgentState, the values this agent takes. */
  datatype AgentState = USE_REAL_SENSOR | ESTIMATE_WITH_CONFIDENCEZONE | ESTIMATE_WITH_CONTEXTS

  /**
   * What this agent reads of another ambient context agent of the
   * environment. `distance` is the distance from this agent's position (NaN
   * when either has none).
   */
  datatype Peer = Peer(name: AgentId, isReal: bool, isActive: bool, isPaused: bool, distance: Double,
                       lastContext: Option<ContextData>, store: Store)

  // ---------------------------------------------------------------------
  // getNeighborsWithWhichCooperate
  // ---------------------------------------------------------------------

  /** Real-sensor agents that are active, not paused and not this agent. */
  predicate IsPartner(self: AgentId, p: Peer)
  {
    p.isReal && p.isActive && !p.isPaused && p.name != self
  }

  function Partners(self: AgentId, env: seq<Peer>): (r: seq<Peer>)
    ensures |r| <= |env|
    ensures forall i :: 0 <= i < |r| ==> IsPartner(self, r[i]) && r[i] in env
    ensures forall p :: p in env && IsPartner(self, p) ==> p in r
  {
    if |env| == 0 then []
    else Partners(self, env[..|env| - 1]) + (if IsPartner(self, env[|env| - 1]) then [env[|env| - 1]] else [])
  }

  // ---------------------------------------------------------------------
  // estimateWithNeighbors
  // ---------------------------------------------------------------------

  /**
   * The comparator estimateWithNeighbors sorts with, as written: it compares
   * the second agent's distance with itself, so every pair compares equal.
   */
  function AsWrittenOrder(): (Peer, Peer) -> bool
  {
    (a: Peer, b: Peer) => CompareLe(b.distance, b.distance)
  }

  /** The evident intent: ascending distance from this agent. */
  function Nearer(): (Peer, Peer) -> bool
  {
    (a: Peer, b: Peer) => CompareLe(a.distance, b.distance)
  }

  /** The neighbours estimateWithNeighbors uses, as written: the first five partners in environment order. */
  function UsedNeighborsAsWritten(self: AgentId, env: seq<Peer>): (r: seq<Peer>)
    ensures r == Take(Partners(self, env), NeighborsForFallback)
  {
    var ps := Partners(self, env);
    assert SortedBy(ps, AsWrittenOrder());
    SortBySortedIsIdentity(ps, AsWrittenOrder());
    Take(SortBy(ps, AsWrittenOrder()), NeighborsForFallback)
  }

  /** The neighbours used with the intended sort: the five nearest partners. */
  function UsedNeighbors(self: AgentId, env: seq<Peer>): (r: seq<Peer>)
  {
    Take(SortBy(Partners(self, env), Nearer()), NeighborsForFallback)
  }

  lemma NearerIsTotalPreorder()
    ensures TotalPreorder(Nearer())
  {
    forall a: Peer, b: Peer
      ensures Nearer()(a, b) || Nearer()(b, a)
    {
      CompareLeTotal(a.distance, b.distance);
    }
    forall a: Peer, b: Peer, c: Peer | Nearer()(a, b) && Nearer()(b, c)
      ensures Nearer()(a, c)
    {
      CompareLeTransitive(a.distance, b.distance, c.distance);
    }
  }

  /**
   * With the intended sort, the neighbours used are partners, at most five,
   * and none is farther than a partner left out.
   */
  lemma UsedNeighborsAreNearest(self: AgentId, env: seq<Peer>)
    ensures var ps := Partners(self, env);
            var used := UsedNeighbors(self, env);
            |used| == (if |ps| < NeighborsForFallback then |ps| else NeighborsForFallback) &&
            multiset(used) <= multiset(ps) &&
            forall i, j :: 0 <= i < |used| <= j < |ps| ==>
              CompareLe(used[i].distance, SortBy(ps, Nearer())[j].distance)
  {
    var ps := Partners(self, env);
    var sorted := SortBy(ps, Nearer());
    NearerIsTotalPreorder();
    SortBySorted(ps, Nearer());
    var used := UsedNeighbors(self, env);
    assert used == sorted[..|used|];
    PrefixOfSorted(sorted, |used|, Nearer());
    forall i, j | 0 <= i < |used| <= j < |ps|
      ensures CompareLe(used[i].distance, sorted[j].distance)
    {
      assert Nearer()(sorted[i], sorted[j]);
    }
  }

  lemma {:induction false} AllPartners(self: AgentId, env: seq<Peer>)
    requires forall i :: 0 <= i < |env| ==> IsPartner(self, env[i])
    ensures Partners(self, env) == env
  {
    if |env| > 0 {
      var init := env[..|env| - 1];
      assert Partners(self, env) == Partners(self, init) + [env[|env| - 1]];
      AllPartners(self, init);
      InitLast(env);
    }
  }

  /**
   * As written, the distance plays no part: when the first of six or more
   * partners is farther than the sixth, the first is used and the sixth,
   * nearer, is left out.
   */
  lemma AsWrittenUsesAFartherNeighbor(self: AgentId, env: seq<Peer>)
    requires |env| >= 6 && forall i :: 0 <= i < |env| ==> IsPartner(self, env[i])
    requires forall k :: 0 <= k < 5 ==> env[k] != env[5]
    requires Lt(env[5].distance, env[0].distance)
    ensures env[0] in UsedNeighborsAsWritten(self, env)
    ensures env[5] !in UsedNeighborsAsWritten(self, env)
  {
    AllPartners(self, env);
    var used := UsedNeighborsAsWritten(self, env);
    assert used == env[..5];
    assert env[0] == used[0];
  }

  /** The midpoint of a context's last two readings. */
  function Midpoint(c: ContextData): Double
    requires |c.entries| >= 2
  {
    Div(Add(c.entries[|c.entries| - 1].value, c.entries[|c.entries| - 2].value), Finite(2.0))
  }

  /** The last contexts of the agents that have one, in order. */
  function LastContexts(ps: seq<Peer>): (r: seq<ContextData>)
    ensures |r| <= |ps|
    ensures forall c :: c in r <==> exists i :: 0 <= i < |ps| && ps[i].lastContext == Some(c)
  {
    if |ps| == 0 then []
    else
      var init := LastContexts(ps[..|ps| - 1]);
      var p := ps[|ps| - 1];
      assert forall i :: 0 <= i < |ps| - 1 ==> ps[..|ps| - 1][i] == ps[i];
      if p.lastContext.Some? then init + [p.lastContext.value] else init
  }

  /**
   * Mean().evaluate: NaN for no values. The two-pass mean corrects the
   * quotient of the sum by the mean deviation from it, which is NaN as soon
   * as one value is infinite or NaN; otherwise it is the sum over the count.
   */
  function Mean(vs: seq<Double>): (r: Double)
    ensures r.NaN? <==> |vs| == 0 || exists i :: 0 <= i < |vs| && !IsFinite(vs[i])
    ensures IsFinite(r) <==> |vs| > 0 && forall i :: 0 <= i < |vs| ==> IsFinite(vs[i])
  {
    if |vs| == 0 || exists i :: 0 <= i < |vs| && !IsFinite(vs[i]) then NaN
    else Div(SumD(vs), Finite(|vs| as real))
  }

  /** The mean of finite values lies between their least and their greatest. */
  lemma MeanBetween(vs: seq<Double>, lo: real, hi: real)
    requires |vs| > 0 && forall i :: 0 <= i < |vs| ==> IsFinite(vs[i]) && lo <= vs[i].r <= hi
    ensures IsFinite(Mean(vs)) && lo <= Mean(vs).r <= hi
  {
    SumDBetween(vs, lo, hi);
    QuotientBetween(SumD(vs).r, |vs| as real, lo, hi);
  }

  lemma {:induction false} SumDBetween(vs: seq<Double>, lo: real, hi: real)
    requires forall i :: 0 <= i < |vs| ==> IsFinite(vs[i]) && lo <= vs[i].r <= hi
    ensures IsFinite(SumD(vs)) && |vs| as real * lo <= SumD(vs).r <= |vs| as real * hi
  {
    if |vs| > 0 {
      var init, x := vs[..|vs| - 1], vs[|vs| - 1];
      SumDBetween(init, lo, hi);
      var m := |init| as real;
      assert |vs| as real * lo == m * lo + lo && |vs| as real * hi == m * hi + hi;
      assert SumD(vs) == Finite(SumD(init).r + x.r);
    }
  }

  lemma QuotientBetween(s: real, n: real, lo: real, hi: real)
    requires n > 0.0 && n * lo <= s <= n * hi
    ensures lo <= s / n <= hi
  {
    var q := s / n;
    assert q * n == s;
    assert (q - lo) * n >= 0.0;
    assert (hi - q) * n >= 0.0;
  }

  /**
   * estimateWithNeighbors over the neighbours it uses: a context of fewer
   * than two readings fails (ArrayIndexOutOfBoundsException); otherwise the
   * mean of the midpoints of each last context's two final readings, as a
   * plain reading that is not flagged as an estimation.
   */
  predicate HasShortContext(cs: seq<ContextData>)
  {
    exists i :: 0 <= i < |cs| && |cs[i].entries| < 2
  }

  function NeighborsEstimate(used: seq<Peer>, info: ContextInfo, now: int): (r: Result<ContextEntry>)
    ensures r.Err? <==> HasShortContext(LastContexts(used))
    ensures r.Ok? ==> r.value.info == info && !r.value.isEstimation && WellFormed(r.value)
    ensures r.Ok? && |LastContexts(used)| == 0 ==> r.value.value.NaN? && r.value.isEmpty
  {
    var cs := LastContexts(used);
    if HasShortContext(cs) then Err("ArrayIndexOutOfBoundsException")
    else Ok(FromValue(info, now, Mean(seq(|cs|, i requires 0 <= i < |cs| => Midpoint(cs[i])))))
  }

  /** When every midpoint lies in [lo, hi], so does the estimate. */
  lemma NeighborsEstimateBetween(used: seq<Peer>, info: ContextInfo, now: int, lo: real, hi: real)
    requires var cs := LastContexts(used);
             |cs| > 0 &&
             forall i :: 0 <= i < |cs| ==> |cs[i].entries| >= 2 && IsFinite(Midpoint(cs[i])) && lo <= Midpoint(cs[i]).r <= hi
    ensures NeighborsEstimate(used, info, now).Ok?
    ensures var e := NeighborsEstimate(used, info, now).value;
            !e.isEmpty && lo <= e.value.r <= hi
  {
    var cs := LastContexts(used);
    MeanBetween(seq(|cs|, i requires 0 <= i < |cs| => Midpoint(cs[i])), lo, hi);
  }

  // ---------------------------------------------------------------------
  // getBestEstimation and modifyNeighborsConfidence
  // ---------------------------------------------------------------------

  /** The statistics of one histogram bin of the estimations. */
  datatype Bin = Bin(mean: Double, min: Double, max: Double)

  /** How far a bin's mean is from this agent's own estimate. */
  function Gap(b: Bin, mine: Double): Double
  {
    Abs(Sub(b.mean, mine))
  }

  /**
   * Stream.min over the first `n` bins with a finite mean: a left fold that
   * keeps the earlier bin on ties.
   */
  function NearestBin(bins: seq<Bin>, mine: Double, n: nat): (r: Option<nat>)
    requires n <= |bins|
    ensures r.None? <==> forall j :: 0 <= j < n ==> !IsFinite(bins[j].mean)
    ensures r.Some? ==> r.value < n && IsFinite(bins[r.value].mean)
    ensures r.Some? ==> forall j :: 0 <= j < n && IsFinite(bins[j].mean) ==> CompareLe(Gap(bins[r.value], mine), Gap(bins[j], mine))
    ensures r.Some? ==> forall j :: 0 <= j < r.value && IsFinite(bins[j].mean) ==> !CompareLe(Gap(bins[j], mine), Gap(bins[r.value], mine))
  {
    if n == 0 then None
    else
      var a := NearestBin(bins, mine, n - 1);
      var last := bins[n - 1];
      if !IsFinite(last.mean) then a
      else if a.None? then Some(n - 1)
      else if CompareLe(Gap(bins[a.value], mine), Gap(last, mine)) then a
      else
        var g := Gap(last, mine);
        CompareLeTotal(Gap(bins[a.value], mine), g);
        forall j | 0 <= j < n - 1 && IsFinite(bins[j].mean)
          ensures CompareLe(g, Gap(bins[j], mine)) && !CompareLe(Gap(bins[j], mine), g)
        {
          CompareLeTransitive(g, Gap(bins[a.value], mine), Gap(bins[j], mine));
          if CompareLe(Gap(bins[j], mine), g) {
            CompareLeTransitive(Gap(bins[a.value], mine), Gap(bins[j], mine), g);
          }
        }
        Some(n - 1)
  }

  /** getBestEstimation's choice of bin; NoSuchElementException when no bin has a finite mean. */
  function PickBin(bins: seq<Bin>, mine: Double): (r: Result<nat>)
    ensures r.Err? <==> forall j :: 0 <= j < |bins| ==> !IsFinite(bins[j].mean)
    ensures r.Ok? ==> r.value < |bins| && IsFinite(bins[r.value].mean)
    ensures r.Ok? ==> forall j :: 0 <= j < |bins| && IsFinite(bins[j].mean) ==> CompareLe(Gap(bins[r.value], mine), Gap(bins[j], mine))
    ensures r.Ok? ==> forall j :: 0 <= j < r.value && IsFinite(bins[j].mean) ==> !CompareLe(Gap(bins[j], mine), Gap(bins[r.value], mine))
  {
    match NearestBin(bins, mine, |bins|)
    case None => Err("NoSuchElementException")
    case Some(k) => Ok(k)
  }

  /** The delta modifyNeighborsConfidence applies for one estimation. */
  function DeltaFor(v: Double, lo: Double, hi: Double): real
  {
    if Le(lo, v) && Le(v, hi) then ConfidenceDelta else -ConfidenceDelta
  }

  /**
   * The neighbour map after modifyNeighborsConfidence: modifyConfidence for
   * every estimating agent, with +CONFIDENCE_DELTA inside the bin [lo, hi]
   * and -CONFIDENCE_DELTA outside it.
   */
  function UpdatedConfidences(nb: map<AgentId, real>, est: map<AgentId, Double>, lo: Double, hi: Double): (r: map<AgentId, real>)
    ensures r.Keys == nb.Keys + est.Keys
    ensures forall a :: a in nb && a !in est ==> r[a] == nb[a]
    ensures forall a :: a in est && a !in nb ==> r[a] == 1.0
  {
    map a | a in nb.Keys + est.Keys ::
      if a !in est then nb[a]
      else if a in nb then ConfidenceAfter(nb[a], DeltaFor(est[a], lo, hi))
      else 1.0
  }

  /**
   * Inside the bin a known agent whose confidence is in [0, 1] stays in
   * [0, 1] and does not lose confidence; outside it, as written, the agent
   * GAINS CONFIDENCE_DELTA, with no cap.
   */
  lemma BinDecidesTrust(nb: map<AgentId, real>, est: map<AgentId, Double>, lo: Double, hi: Double, a: AgentId)
    requires a in nb && a in est && MinConfidence <= nb[a]
    ensures Le(lo, est[a]) && Le(est[a], hi) && nb[a] <= MaxConfidence ==>
              nb[a] <= UpdatedConfidences(nb, est, lo, hi)[a] <= MaxConfidence
    ensures !(Le(lo, est[a]) && Le(est[a], hi)) ==>
              UpdatedConfidences(nb, est, lo, hi)[a] == nb[a] + ConfidenceDelta
  {
    if !(Le(lo, est[a]) && Le(est[a], hi)) {
      NegativeDeltaRaisesConfidence(nb[a], -ConfidenceDelta);
    }
  }

  /** A NaN estimation is outside every bin. */
  lemma NaNEstimationIsOutOfBin(v: Double, lo: Double, hi: Double)
    requires v.NaN?
    ensures DeltaFor(v, lo, hi) == -ConfidenceDelta
  {
  }

  // ---------------------------------------------------------------------
  // estimateByContextualDataCooperation, estimateByCooperation,
  // evaluateEstimation
  // ---------------------------------------------------------------------

  /** What the agent's surroundings supply to an estimation. */
  datatype Surroundings = Surroundings(
    /** the other ambient context agents of the environment */
    env: seq<Peer>,
    /** the context comparison strategy */
    cmp: Comparator,
    /** the histogram bins of a set of estimations (EmpiricalDistribution with 5 bins) */
    binsOf: map<AgentId, Double> -> seq<Bin>,
    /** MASConfig.USE_COOPERATION_FOR_ESTIMATION */
    useCooperation: bool,
    /** whether an estimation strategy is installed */
    hasStrategy: bool,
    /**
     * the confidence-zone estimate: None when the agent has no confidence
     * zone, else the result of EstimateByConfidenceZone (an error without a
     * cooperative behaviour, else what the behaviour's act returns)
     */
    czEstimate: Option<Result<Double>>,
    /** Instant.now() */
    now: int)

  /** A trust adjustment to apply: every estimation, and the chosen bin's bounds. */
  datatype TrustUpdate = TrustUpdate(estimations: map<AgentId, Double>, lo: Double, hi: Double)

  /** An estimation, the trust adjustment it calls for, and the state the agent records. */
  datatype Estimate = Estimate(entry: ContextEntry, trust: Option<TrustUpdate>, state: AgentState)

  /** The indexes of some contexts (`map(getFinalDataIdx)`). */
  function FinalIdxs(cs: seq<ContextData>): (r: seq<int>)
    ensures |r| == |cs| && forall i :: 0 <= i < |cs| ==> r[i] == cs[i].finalDataIdx
  {
    seq(|cs|, i requires 0 <= i < |cs| => cs[i].finalDataIdx)
  }

  /** The contexts whose finalDataIdx is one of `idxs`, in order. */
  function AtIdxs(cs: seq<ContextData>, idxs: seq<int>): (r: seq<ContextData>)
    ensures forall c :: c in r <==> c in cs && c.finalDataIdx in idxs
  {
    if |cs| == 0 then []
    else
      var init := AtIdxs(cs[..|cs| - 1], idxs);
      var c := cs[|cs| - 1];
      assert forall x :: x in cs <==> x in cs[..|cs| - 1] || x == c;
      if c.finalDataIdx in idxs then init + [c] else init
  }

  /** The last reading of the last context (getLastPerceivedValue). */
  function LastValue(last: ContextData): Double
    requires |last.entries| > 0
  {
    last.entries[|last.entries| - 1].value
  }

  /**
   * estimateByCooperation: for each partner, this agent's contexts at the
   * indexes are imputed with the similarity scores the partner computes for
   * them, and the estimate is the last perceived value plus that step; a later
   * partner of the same name overwrites an earlier one.
   */
  function PartnerEstimations(ps: seq<Peer>, last: ContextData, mine: seq<ContextData>, idxs: seq<int>, cmp: Comparator): (r: map<AgentId, Double>)
    requires |last.entries| >= 2
  {
    if |ps| == 0 then map[]
    else
      var p := ps[|ps| - 1];
      PartnerEstimations(ps[..|ps| - 1], last, mine, idxs, cmp)[p.name := PartnerEstimate(p, last, mine, idxs, cmp)]
  }

  /** Every partner has an estimation, and a partner's is the one of the last partner of that name. */
  lemma PartnerEstimationsByName(ps: seq<Peer>, last: ContextData, mine: seq<ContextData>, idxs: seq<int>, cmp: Comparator)
    requires |last.entries| >= 2
    ensures forall a :: a in PartnerEstimations(ps, last, mine, idxs, cmp) ==> exists i :: 0 <= i < |ps| && ps[i].name == a
    ensures forall i :: 0 <= i < |ps| ==> ps[i].name in PartnerEstimations(ps, last, mine, idxs, cmp)
    ensures forall i :: 0 <= i < |ps| && (forall k :: i < k < |ps| ==> ps[k].name != ps[i].name) ==>
              PartnerEstimations(ps, last, mine, idxs, cmp)[ps[i].name] == PartnerEstimate(ps[i], last, mine, idxs, cmp)
  {
    OnlyPartnersEstimated(ps, last, mine, idxs, cmp);
    forall i | 0 <= i < |ps|
      ensures ps[i].name in PartnerEstimations(ps, last, mine, idxs, cmp)
    {
      PartnerHasEstimation(ps, last, mine, idxs, cmp, i);
    }
    forall i | 0 <= i < |ps| && (forall k :: i < k < |ps| ==> ps[k].name != ps[i].name)
      ensures PartnerEstimations(ps, last, mine, idxs, cmp)[ps[i].name] == PartnerEstimate(ps[i], last, mine, idxs, cmp)
    {
      LastPartnerWins(ps, last, mine, idxs, cmp, i);
    }
  }

  lemma {:induction false} OnlyPartnersEstimated(ps: seq<Peer>, last: ContextData, mine: seq<ContextData>, idxs: seq<int>, cmp: Comparator)
    requires |last.entries| >= 2
    ensures forall a :: a in PartnerEstimations(ps, last, mine, idxs, cmp) ==> exists i :: 0 <= i < |ps| && ps[i].name == a
  {
    if |ps| > 0 {
      var init := ps[..|ps| - 1];
      OnlyPartnersEstimated(init, last, mine, idxs, cmp);
      forall a | a in PartnerEstimations(init, last, mine, idxs, cmp)
        ensures exists i :: 0 <= i < |ps| && ps[i].name == a
      {
        var i :| 0 <= i < |init| && init[i].name == a;
        assert ps[i] == init[i];
      }
    }
  }

  lemma {:induction false} PartnerHasEstimation(ps: seq<Peer>, last: ContextData, mine: seq<ContextData>, idxs: seq<int>, cmp: Comparator, i: nat)
    requires |last.entries| >= 2 && i < |ps|
    ensures ps[i].name in PartnerEstimations(ps, last, mine, idxs, cmp)
  {
    var init := ps[..|ps| - 1];
    var p := ps[|ps| - 1];
    var m := PartnerEstimations(init, last, mine, idxs, cmp);
    var e := PartnerEstimate(p, last, mine, idxs, cmp);
    assert PartnerEstimations(ps, last, mine, idxs, cmp) == m[p.name := e];
    if i < |ps| - 1 {
      assert init[i] == ps[i];
      PartnerHasEstimation(init, last, mine, idxs, cmp, i);
      assert ps[i].name in m;
    }
  }

  lemma {:induction false} LastPartnerWins(ps: seq<Peer>, last: ContextData, mine: seq<ContextData>, idxs: seq<int>, cmp: Comparator, i: nat)
    requires |last.entries| >= 2 && i < |ps|
    requires forall k :: i < k < |ps| ==> ps[k].name != ps[i].name
    ensures ps[i].name in PartnerEstimations(ps, last, mine, idxs, cmp)
    ensures PartnerEstimations(ps, last, mine, idxs, cmp)[ps[i].name] == PartnerEstimate(ps[i], last, mine, idxs, cmp)
  {
    if i < |ps| - 1 {
      var init := ps[..|ps| - 1];
      assert init[i] == ps[i];
      forall k | i < k < |init|
        ensures init[k].name != init[i].name
      {
        assert init[k] == ps[k];
      }
      LastPartnerWins(init, last, mine, idxs, cmp, i);
    }
  }

  /** One partner's estimate: the last value plus the step imputed with the partner's similarity scores. */
  function PartnerEstimate(p: Peer, last: ContextData, mine: seq<ContextData>, idxs: seq<int>, cmp: Comparator): Double
    requires |last.entries| >= 2
  {
    Add(LastValue(last), ImputeSpec(last, mine, Some(SimilarityScores(p.store, last, idxs, cmp)), cmp).value)
  }

  /** This agent's own step: impute over its `ContextToUseForEstimation` most similar contexts. */
  function OwnStep(store: Store, last: ContextData, cmp: Comparator): (r: Result<Double>)
    ensures r.Err? <==> |last.entries| < 2
  {
    match MostSimilar(store, last, ContextToUseForEstimation)
    case Err(e) => Err(e)
    case Ok(mine) => ImputeSpec(last, mine, None, cmp)
  }

  /** Every estimation evaluateEstimation bins: the partners', and this agent's own under its name. */
  function AllEstimations(self: AgentId, store: Store, last: ContextData, sur: Surroundings): (r: map<AgentId, Double>)
    requires |last.entries| >= 2
    ensures self in r && r[self] == Add(LastValue(last), OwnStep(store, last, sur.cmp).value)
    ensures forall p :: p in Partners(self, sur.env) ==> p.name in r
  {
    var mine := MostSimilar(store, last, ContextToUseForEstimation).value;
    var idxs := FinalIdxs(mine);
    var ps := Partners(self, sur.env);
    var theirs := PartnerEstimations(ps, last, AtIdxs(Flatten(store), idxs), idxs, sur.cmp);
    PartnerEstimationsByName(ps, last, AtIdxs(Flatten(store), idxs), idxs, sur.cmp);
    theirs[self := Add(LastValue(last), OwnStep(store, last, sur.cmp).value)]
  }

  /**
   * estimateByContextualDataCooperation: without cooperation, the last
   * perceived value plus this agent's own step; with it, the mean of the bin
   * of all estimations nearest to this agent's own, with a trust adjustment
   * by that bin. The entry is flagged as an estimation either way.
   */
  function ContextualEstimate(self: AgentId, store: Store, last: ContextData, sur: Surroundings, info: ContextInfo): (r: Result<Estimate>)
    ensures |last.entries| < 2 ==> r.Err?
    ensures r.Ok? ==> r.value.entry.isEstimation && r.value.entry.info == info && WellFormed(r.value.entry) &&
                      r.value.state == ESTIMATE_WITH_CONTEXTS
    ensures !sur.useCooperation ==> (r.Ok? <==> |last.entries| >= 2) && (r.Ok? ==> r.value.trust.None?)
    ensures r.Ok? && sur.useCooperation ==> r.value.trust.Some? && self in r.value.trust.value.estimations &&
                                            !r.value.entry.isEmpty
  {
    match OwnStep(store, last, sur.cmp)
    case Err(e) => Err(e)
    case Ok(step) =>
      if !sur.useCooperation then
        Ok(Estimate(SetIsEstimation(FromValue(info, sur.now, Add(step, LastValue(last))), true), None, ESTIMATE_WITH_CONTEXTS))
      else
        var all := AllEstimations(self, store, last, sur);
        var bins := sur.binsOf(all);
        match PickBin(bins, Add(LastValue(last), step))
        case Err(e) => Err(e)
        case Ok(k) =>
          Ok(Estimate(SetIsEstimation(FromValue(info, sur.now, bins[k].mean), true),
                      Some(TrustUpdate(all, bins[k].min, bins[k].max)), ESTIMATE_WITH_CONTEXTS))
  }

  /**
   * With cooperation, the estimate is the mean of a bin with a finite mean
   * that no other such bin is strictly nearer to this agent's own estimate,
   * and the trust adjustment uses that bin's bounds over every estimation.
   */
  lemma CooperativeEstimateIsNearestBin(self: AgentId, store: Store, last: ContextData, sur: Surroundings, info: ContextInfo)
    requires sur.useCooperation && ContextualEstimate(self, store, last, sur, info).Ok?
    ensures |last.entries| >= 2
    ensures var est := ContextualEstimate(self, store, last, sur, info).value;
            var all := AllEstimations(self, store, last, sur);
            var bins := sur.binsOf(all);
            var mine := all[self];
            exists k :: 0 <= k < |bins| && IsFinite(bins[k].mean) && est.entry.value == bins[k].mean &&
              est.trust == Some(TrustUpdate(all, bins[k].min, bins[k].max)) &&
              forall j :: 0 <= j < |bins| && IsFinite(bins[j].mean) ==> CompareLe(Gap(bins[k], mine), Gap(bins[j], mine))
  {
    var step := OwnStep(store, last, sur.cmp).value;
    var all := AllEstimations(self, store, last, sur);
    var k := PickBin(sur.binsOf(all), Add(LastValue(last), step)).value;
    assert all[self] == Add(LastValue(last), step);
  }

  /** The neighbour map once a trust adjustment is applied. */
  function Trusted(nb: map<AgentId, real>, t: Option<TrustUpdate>): (r: map<AgentId, real>)
    ensures t.None? ==> r == nb
    ensures t.Some? ==> r == UpdatedConfidences(nb, t.value.estimations, t.value.lo, t.value.hi)
  {
    if t.None? then nb else UpdatedConfidences(nb, t.value.estimations, t.value.lo, t.value.hi)
  }

  /**
   * The cooperative adjustment reaches this agent itself: it enters its own
   * neighbour map, at 1 when it was not there.
   */
  lemma CooperationTrustsItself(self: AgentId, store: Store, last: ContextData, sur: Surroundings, info: ContextInfo, nb: map<AgentId, real>)
    requires sur.useCooperation && ContextualEstimate(self, store, last, sur, info).Ok?
    ensures var t := ContextualEstimate(self, store, last, sur, info).value.trust;
            self in Trusted(nb, t) && (self !in nb ==> Trusted(nb, t)[self] == 1.0)
  {
  }

  // ---------------------------------------------------------------------
  // estimateMissingData
  // ---------------------------------------------------------------------

  /** The confidence zone gives a usable estimate: a finite value from its behaviour. */
  predicate ZoneEstimates(sur: Surroundings)
  {
    sur.czEstimate.Some? && sur.czEstimate.value.Ok? && IsFinite(sur.czEstimate.value.value)
  }

  /**
   * estimateMissingData falls back on the neighbours: the zone neither
   * failed nor gave a usable estimate, and there is no last context. The
   * state is then ESTIMATE_WITH_CONTEXTS before estimateWithNeighbors runs.
   */
  predicate NeighborsFallback(sur: Surroundings, lastContext: Option<ContextData>)
  {
    !(sur.czEstimate.Some? && sur.czEstimate.value.Err?) && !ZoneEstimates(sur) && lastContext.None?
  }

  /**
   * estimateMissingData: IllegalStateException when the agent has a
   * confidence zone but no cooperative behaviour; a finite confidence-zone
   * estimate, flagged as an estimation; else, with no last context, the
   * neighbours' midpoints (not flagged) over the first five partners, as
   * the sort is written; else IllegalStateException without a strategy;
   * else the contextual estimate.
   */
  function EstimateMissing(self: AgentId, store: Store, lastContext: Option<ContextData>, sur: Surroundings, info: ContextInfo): (r: Result<Estimate>)
    ensures sur.czEstimate.Some? && sur.czEstimate.value.Err? ==> r.Err?
    ensures ZoneEstimates(sur) ==>
              r == Ok(Estimate(SetIsEstimation(FromValue(info, sur.now, sur.czEstimate.value.value), true), None, ESTIMATE_WITH_CONFIDENCEZONE))
    ensures r.Ok? && r.value.state == ESTIMATE_WITH_CONFIDENCEZONE ==> !r.value.entry.isEmpty && r.value.entry.isEstimation
    ensures r.Ok? ==> r.value.entry.info == info && WellFormed(r.value.entry)
    ensures r.Ok? && r.value.trust.Some? ==> lastContext.Some? && sur.useCooperation
  {
    if sur.czEstimate.Some? && sur.czEstimate.value.Err? then
      Err(NoZoneBehavior)
    else if ZoneEstimates(sur) then
      Ok(Estimate(SetIsEstimation(FromValue(info, sur.now, sur.czEstimate.value.value), true), None, ESTIMATE_WITH_CONFIDENCEZONE))
    else if lastContext.None? then
      match NeighborsEstimate(UsedNeighborsAsWritten(self, sur.env), info, sur.now)
      case Err(e) => Err(e)
      case Ok(e) => Ok(Estimate(e, None, ESTIMATE_WITH_CONTEXTS))
    else if !sur.hasStrategy then Err("IllegalStateException: no imputation strategy provided.")
    else ContextualEstimate(self, store, lastContext.value, sur, info)
  }

  /** Without a usable confidence-zone estimate the order of the fallbacks decides. */
  lemma EstimateMissingFallbacks(self: AgentId, store: Store, lastContext: Option<ContextData>, sur: Surroundings, info: ContextInfo)
    requires sur.czEstimate.None? || (sur.czEstimate.value.Ok? && !IsFinite(sur.czEstimate.value.value))
    ensures var r := EstimateMissing(self, store, lastContext, sur, info);
            (lastContext.None? ==> r.Ok? == NeighborsEstimate(UsedNeighborsAsWritten(self, sur.env), info, sur.now).Ok? &&
                                   (r.Ok? ==> !r.value.entry.isEstimation && r.value.trust.None?)) &&
            (lastContext.Some? && !sur.hasStrategy ==> r.Err?) &&
            (lastContext.Some? && sur.hasStrategy ==> r == ContextualEstimate(self, store, lastContext.value, sur, info))
  {
  }

  // ---------------------------------------------------------------------
  // processPerception and processWithUnsufficientSamplesCount
  // ---------------------------------------------------------------------

  /** setPerception's effect on the perception list (Agent.setPerception). */
  function SetAt(ps: seq<Perception>, idx: int, p: Perception): (r: Result<seq<Perception>>)
  {
    if idx >= |ps| then Ok(ps + [p])
    else if idx < 0 then Err("IndexOutOfBoundsException")
    else Ok(ps[idx := p])
  }

  function AsPerception(e: ContextEntry): Perception
  {
    Perception(e.value, e.isEstimation)
  }

  /** perceivedValue: setPerception(idx, ...) for each buffered entry in turn. */
  function Perceived(ps: seq<Perception>, idx: int, buffer: seq<ContextEntry>): (r: Result<seq<Perception>>)
    ensures r.Err? <==> idx < 0 && |buffer| > 0
    ensures r.Ok? ==> |ps| <= |r.value| <= |ps| + |buffer|
    ensures r.Ok? ==> r.value[..|ps|] == ps || (0 <= idx < |ps| && r.value[..|ps|] == ps[idx := r.value[idx]])
  {
    if |buffer| == 0 then Ok(ps)
    else
      match Perceived(ps, idx, buffer[..|buffer| - 1])
      case Err(e) => Err(e)
      case Ok(q) => SetAt(q, idx, AsPerception(buffer[|buffer| - 1]))
  }

  /** With an index inside the list, every buffered entry lands there and the last one stays. */
  lemma {:induction false} PerceivedOverwrites(ps: seq<Perception>, idx: int, buffer: seq<ContextEntry>)
    requires 0 <= idx < |ps| && |buffer| > 0
    ensures Perceived(ps, idx, buffer) == Ok(ps[idx := AsPerception(buffer[|buffer| - 1])])
  {
    if |buffer| > 1 {
      var init := buffer[..|buffer| - 1];
      PerceivedOverwrites(ps, idx, init);
      assert init[|init| - 1] == buffer[|buffer| - 2];
      var q := ps[idx := AsPerception(buffer[|buffer| - 2])];
      assert Perceived(ps, idx, buffer) == SetAt(q, idx, AsPerception(buffer[|buffer| - 1]));
      assert q[idx := AsPerception(buffer[|buffer| - 1])] == ps[idx := AsPerception(buffer[|buffer| - 1])];
    } else {
      assert buffer[..0] == [];
    }
  }

  /** The usual tick: one buffered reading at the next index is appended. */
  lemma PerceivedAppends(ps: seq<Perception>, e: ContextEntry)
    ensures Perceived(ps, |ps|, [e]) == Ok(ps + [AsPerception(e)])
  {
    assert [e][..0] == [];
  }

  predicate HasEmpty(buffer: seq<ContextEntry>)
  {
    exists i :: 0 <= i < |buffer| && buffer[i].isEmpty
  }

  /** `removeIf(isEmpty)` */
  function NonEmpty(buffer: seq<ContextEntry>): (r: seq<ContextEntry>)
    ensures forall e :: e in r <==> e in buffer && !e.isEmpty
  {
    if |buffer| == 0 then []
    else
      var init := NonEmpty(buffer[..|buffer| - 1]);
      var e := buffer[|buffer| - 1];
      assert forall x :: x in buffer <==> x in buffer[..|buffer| - 1] || x == e;
      if e.isEmpty then init else init + [e]
  }

  /**
   * A context finder's getContext for the tick's sensor: it reads the
   * agent's store and the perceptions, and may fail.
   */
  type Finder = (Store, seq<Perception>) -> Result<ContextData>

  /** The state a tick reads and writes. */
  datatype View = View(store: Store, lastContext: Option<ContextData>, buffer: seq<ContextEntry>,
                       state: AgentState, perceptions: seq<Perception>, neighbors: map<AgentId, real>)

  /**
   * Record the buffer, build the context with the finder over the
   * perceptions, store it, and make it the last context when it is not
   * empty.
   */
  function Conclude(v: View, idx: int, finder: Finder): (r: Result<View>)
  {
    match Perceived(v.perceptions, idx, v.buffer)
    case Err(e) => Err(e)
    case Ok(ps) =>
      match finder(v.store, ps)
      case Err(e) => Err(e)
      case Ok(c) =>
        Ok(v.(perceptions := ps, buffer := [], store := AddAsWritten(v.store, c),
              lastContext := if |c.entries| > 0 then Some(c) else v.lastContext))
  }

  /** perceivedValue alone: the buffer recorded into the perceptions, or nothing when that fails. */
  function Recorded(v: View, idx: int): View
  {
    match Perceived(v.perceptions, idx, v.buffer)
    case Err(_) => v
    case Ok(ps) => v.(perceptions := ps, buffer := [])
  }

  /**
   * What a failed processPerception leaves behind: the recorded perceptions
   * and, past the minimum, the estimate's state, trust and buffered entry,
   * all of which happen before the context finder is called. When the
   * estimate itself fails, only the neighbours' fallback has already set
   * the state.
   */
  function FailedView(self: AgentId, v: View, idx: int, sur: Surroundings, info: ContextInfo): View
  {
    if idx <= MinNumberSampleObserved || !HasEmpty(v.buffer) then Recorded(v, idx)
    else
      match EstimateMissing(self, v.store, v.lastContext, sur, info)
      case Err(_) => if NeighborsFallback(sur, v.lastContext) then v.(state := ESTIMATE_WITH_CONTEXTS) else v
      case Ok(est) => if est.entry.isEmpty then v else Recorded(EstimatedView(v, est), idx)
  }

  /**
   * One processPerception at sample `idx`. Below MIN_NUMBER_SAMPLE_OBSERVED
   * only the perception is recorded; at it, the first context is built (an
   * empty one is neither stored nor kept); above it, an empty buffered
   * reading is first replaced by an estimate, and an estimate that is itself
   * empty ends the tick after its state and trust changes.
   */
  function ProcessSpec(self: AgentId, v: View, idx: int, sur: Surroundings, finder: Finder, info: ContextInfo): (r: Result<View>)
  {
    if idx < MinNumberSampleObserved then
      match Perceived(v.perceptions, idx, v.buffer)
      case Err(e) => Err(e)
      case Ok(ps) => Ok(v.(perceptions := ps, buffer := []))
    else if idx == MinNumberSampleObserved || !HasEmpty(v.buffer) then Conclude(v, idx, finder)
    else
      match EstimateMissing(self, v.store, v.lastContext, sur, info)
      case Err(e) => Err(e)
      case Ok(est) =>
        var v1 := v.(state := est.state, neighbors := Trusted(v.neighbors, est.trust));
        if est.entry.isEmpty then Ok(v1)
        else Conclude(v1.(buffer := NonEmpty(v.buffer) + [est.entry]), idx, finder)
  }

  /** The failure of estimateByConfidenceZone when the agent has no cooperative behaviour. */
  const NoZoneBehavior: string := "IllegalStateException: no cooperative behavior for confidence zone provided"

  /**
   * estimateByConfidenceZone up to its finiteness test: without a
   * cooperative behaviour an IllegalStateException; otherwise the value of
   * the behaviour's act, which also moves the zone. A tick reads this result
   * as `Surroundings.czEstimate` when the agent has a confidence zone.
   */
  method EstimateByConfidenceZone(behavior: Option<ZoneCooperation.ZoneCooperativeBehavior>,
                                  all: seq<ZoneCooperation.Candidate>, m: ZoneCooperation.Measures,
                                  median: seq<Double> -> Double, locked: bool,
                                  angle: (Geometry.Point, Geometry.Point, Geometry.Point) -> Double,
                                  normalize: Geometry.Point -> Geometry.Point)
    returns (r: Result<Double>)
    requires behavior.Some? ==> |behavior.value.zone.polygon.points| > 0
    modifies if behavior.Some? then {behavior.value.zone.polygon} else {}
    ensures behavior.None? ==> r == Err(NoZoneBehavior)
    ensures behavior.Some? ==>
              var b := behavior.value;
              r == Ok(ZoneCooperation.ActEstimate(b.self, old(b.zone.polygon.points), all, m)) &&
              b.zone.polygon.points == ZoneCooperation.ActZone(b.self, old(b.zone.polygon.points), b.zone.polygon.centroid,
                                                               b.zone.polygon.minRadius, all, m, median, locked, angle, normalize)
  {
    if behavior.None? {
      return Err(NoZoneBehavior);
    }
    var v := behavior.value.Act(all, m, median, locked, angle, normalize);
    r := Ok(v);
  }

  /**
   * The estimate a tick above the minimum puts into an empty buffered
   * reading, when there is one and it is not itself empty: the value an
   * agent with a virtual sensor also writes into that sensor.
   */
  function WrittenEstimate(self: AgentId, v: View, idx: int, sur: Surroundings, info: ContextInfo): Option<Estimate>
  {
    if idx <= MinNumberSampleObserved || !HasEmpty(v.buffer) then None
    else
      match EstimateMissing(self, v.store, v.lastContext, sur, info)
      case Err(_) => None
      case Ok(est) => if est.entry.isEmpty then None else Some(est)
  }

  /** The view once an estimate has replaced the empty readings of the buffer. */
  function EstimatedView(v: View, est: Estimate): View
  {
    v.(state := est.state, neighbors := Trusted(v.neighbors, est.trust), buffer := NonEmpty(v.buffer) + [est.entry])
  }

  /** Below the minimum a tick records the buffer and touches nothing else. */
  lemma BelowMinimumOnlyRecords(self: AgentId, v: View, idx: int, sur: Surroundings, finder: Finder, info: ContextInfo)
    requires 0 <= idx < MinNumberSampleObserved
    ensures var r := ProcessSpec(self, v, idx, sur, finder, info);
            r.Ok? && r.value.store == v.store && r.value.lastContext == v.lastContext &&
            r.value.neighbors == v.neighbors && r.value.state == v.state && r.value.buffer == [] &&
            r.value.perceptions == Perceived(v.perceptions, idx, v.buffer).value
  {
  }

  /**
   * At the minimum the first context is built: kept as last context when it
   * is not empty, and added to the store when its range is also free of NaN.
   */
  lemma FirstContextAtMinimum(self: AgentId, v: View, sur: Surroundings, finder: Finder, info: ContextInfo)
    ensures var r := ProcessSpec(self, v, MinNumberSampleObserved, sur, finder, info);
            var ps := Perceived(v.perceptions, MinNumberSampleObserved, v.buffer);
            ps.Ok? && (r.Ok? <==> finder(v.store, ps.value).Ok?) &&
            (r.Err? ==> r.error == finder(v.store, ps.value).error) &&
            (r.Ok? ==>
               var c := finder(v.store, ps.value).value;
               r.value.perceptions == ps.value && r.value.buffer == [] &&
               (|c.entries| > 0 ==> r.value.lastContext == Some(c)) &&
               (|c.entries| > 0 && NaNFree(c) ==> multiset(Flatten(r.value.store)) == multiset(Flatten(v.store)) + multiset{c}) &&
               (|c.entries| == 0 ==> r.value.lastContext == v.lastContext && r.value.store == v.store))
  {
    var ps := Perceived(v.perceptions, MinNumberSampleObserved, v.buffer).value;
    if finder(v.store, ps).Ok? {
      AddAsWrittenGrows(v.store, finder(v.store, ps).value);
    }
  }

  /** Above the minimum, an empty estimate ends the tick: nothing is recorded or stored. */
  lemma EmptyEstimateStoresNothing(self: AgentId, v: View, idx: int, sur: Surroundings, finder: Finder, info: ContextInfo)
    requires idx > MinNumberSampleObserved && HasEmpty(v.buffer)
    requires EstimateMissing(self, v.store, v.lastContext, sur, info).Ok?
    requires EstimateMissing(self, v.store, v.lastContext, sur, info).value.entry.isEmpty
    ensures var r := ProcessSpec(self, v, idx, sur, finder, info);
            r.Ok? && r.value.store == v.store && r.value.lastContext == v.lastContext &&
            r.value.buffer == v.buffer && r.value.perceptions == v.perceptions
  {
  }

  /**
   * Above the minimum, a usable estimate takes the place of every empty
   * buffered reading, so no empty reading reaches the perceptions.
   */
  lemma EstimateFillsTheGap(self: AgentId, v: View, idx: int, sur: Surroundings, finder: Finder, info: ContextInfo)
    requires idx > MinNumberSampleObserved && HasEmpty(v.buffer)
    requires EstimateMissing(self, v.store, v.lastContext, sur, info).Ok?
    requires !EstimateMissing(self, v.store, v.lastContext, sur, info).value.entry.isEmpty
    ensures var est := EstimateMissing(self, v.store, v.lastContext, sur, info).value;
            var buffer := NonEmpty(v.buffer) + [est.entry];
            !HasEmpty(buffer) &&
            ProcessSpec(self, v, idx, sur, finder, info) ==
              Conclude(v.(state := est.state, neighbors := Trusted(v.neighbors, est.trust), buffer := buffer), idx, finder)
  {
    var est := EstimateMissing(self, v.store, v.lastContext, sur, info).value;
    var buffer := NonEmpty(v.buffer) + [est.entry];
    forall i | 0 <= i < |buffer|
      ensures !buffer[i].isEmpty
    {
      if i < |buffer| - 1 {
        assert buffer[i] in NonEmpty(v.buffer);
      }
    }
  }

  /** The finder found a context whose range is free of NaN. */
  predicate FoundNaNFree(found: Result<ContextData>)
  {
    found.Ok? && NaNFree(found.value)
  }

  /** The last context is never an empty one. */
  predicate LastContextUsable(v: View)
  {
    v.lastContext.Some? ==> |v.lastContext.value.entries| > 0
  }

  /**
   * A tick keeps every key, adds at most one context and keeps the last
   * context usable; it loses no stored context when the context it builds
   * has a range free of NaN (as written, one with a NaN bound can replace a
   * bucket).
   */
  lemma TickOnlyGrowsTheStore(self: AgentId, v: View, idx: int, sur: Surroundings, finder: Finder, info: ContextInfo)
    requires LastContextUsable(v)
    requires ProcessSpec(self, v, idx, sur, finder, info).Ok?
    ensures var w := ProcessSpec(self, v, idx, sur, finder, info).value;
            LastContextUsable(w) && Keys(v.store) <= Keys(w.store) &&
            (FoundNaNFree(finder(v.store, w.perceptions)) ==> multiset(Flatten(v.store)) <= multiset(Flatten(w.store))) &&
            |Flatten(w.store)| <= |Flatten(v.store)| + 1
  {
    if idx < MinNumberSampleObserved {
    } else if idx == MinNumberSampleObserved || !HasEmpty(v.buffer) {
      ConcludeGrows(v, idx, finder);
    } else {
      var est := EstimateMissing(self, v.store, v.lastContext, sur, info).value;
      var v1 := v.(state := est.state, neighbors := Trusted(v.neighbors, est.trust));
      if !est.entry.isEmpty {
        ConcludeGrows(v1.(buffer := NonEmpty(v.buffer) + [est.entry]), idx, finder);
      }
    }
  }

  lemma ConcludeGrows(v: View, idx: int, finder: Finder)
    requires LastContextUsable(v) && Conclude(v, idx, finder).Ok?
    ensures var w := Conclude(v, idx, finder).value;
            LastContextUsable(w) && Keys(v.store) <= Keys(w.store) &&
            (FoundNaNFree(finder(v.store, w.perceptions)) ==> multiset(Flatten(v.store)) <= multiset(Flatten(w.store))) &&
            |Flatten(w.store)| <= |Flatten(v.store)| + 1
  {
    var ps := Perceived(v.perceptions, idx, v.buffer).value;
    AddAsWrittenGrows(v.store, finder(v.store, ps).value);
  }

  // ---------------------------------------------------------------------
  // The agent
  // ---------------------------------------------------------------------

  class AmbientContextAgent {
    /** The Agent this agent extends: name, neighbour confidences, perceptions, reasoning progress. */
    const base: Agent
    /** supportedInfo */
    const info: ContextInfo
    /** contextMap */
    var store: Store
    var lastContext: Option<ContextData>
    /** observedInfoBuffer */
    var buffer: seq<ContextEntry>
    var state: AgentState

    constructor (base: Agent, info: ContextInfo)
      ensures this.base == base && this.info == info
      ensures store == [] && lastContext.None? && buffer == [] && state == USE_REAL_SENSOR
    {
      this.base := base;
      this.info := info;
      store := [];
      lastContext := None;
      buffer := [];
      state := USE_REAL_SENSOR;
    }

    function ViewOf(): View
      reads this, base
    {
      View(store, lastContext, buffer, state, base.perceptions, base.neighbors)
    }

    /**
     * perceive: without a sensor nothing happens; otherwise the buffer is
     * cleared and receives the reading, or the cycle is aborted when the
     * sensor fails.
     */
    method Perceive(hasSensor: bool, reading: Result<ContextEntry>)
      modifies this`buffer, base`progress
      ensures !hasSensor ==> buffer == old(buffer) && base.progress == old(base.progress)
      ensures hasSensor && reading.Ok? ==> buffer == [reading.value] && base.progress == old(base.progress)
      ensures hasSensor && reading.Err? ==> buffer == [] && base.progress == ABORT
    {
      if !hasSensor {
        return;
      }
      buffer := [];
      if reading.Ok? {
        buffer := buffer + [reading.value];
      } else {
        base.AbortReasoning();
      }
    }

    /** getMostSimilarContexts: the bucket scan with its early return. */
    method GetMostSimilarContexts(num: int, ref: ContextData) returns (r: Result<seq<ContextData>>)
      ensures r == MostSimilar(store, ref, num)
    {
      r := ScanMostSimilar(store, num, ref);
    }

    /**
     * addNewContextToMap: the store becomes the insertion as written, which
     * keeps every key and, for a context whose range is free of NaN, grows
     * by exactly that context.
     */
    method AddNewContextToMap(c: ContextData)
      modifies this`store
      ensures store == AddAsWritten(old(store), c)
      ensures Keys(old(store)) <= Keys(store)
      ensures NaNFree(c) ==>
                multiset(Flatten(store)) == multiset(Flatten(old(store))) + (if |c.entries| > 0 then multiset{c} else multiset{})
    {
      AddAsWrittenGrows(store, c);
      store := AddAsWritten(store, c);
    }

    /** modifyNeighborsConfidence: modifyConfidence for each estimating agent. */
    method ModifyNeighborsConfidence(est: map<AgentId, Double>, lo: Double, hi: Double)
      modifies base`neighbors
      ensures base.neighbors == UpdatedConfidences(old(base.neighbors), est, lo, hi)
    {
      var nb0 := base.neighbors;
      var todo := est.Keys;
      while todo != {}
        invariant todo <= est.Keys
        invariant base.neighbors == UpdatedConfidences(nb0, Restrict(est, est.Keys - todo), lo, hi)
        decreases todo
      {
        var a :| a in todo;
        var before := Restrict(est, est.Keys - todo);
        var _ := base.ModifyConfidence(a, DeltaFor(est[a], lo, hi));
        todo := todo - {a};
        assert Restrict(est, est.Keys - todo) == before[a := est[a]];
        UpdatedConfidencesStep(nb0, before, a, est[a], lo, hi);
      }
      assert Restrict(est, est.Keys - todo) == est;
    }

    /** perceivedValue: each buffered reading becomes a perception at `idx`, then the buffer is cleared. */
    method PerceivedValue(idx: int) returns (r: Result<()>)
      modifies this`buffer, base`perceptions
      ensures var p := Perceived(old(base.perceptions), idx, old(buffer));
              (r.Err? <==> p.Err?) &&
              (p.Ok? ==> base.perceptions == p.value && buffer == []) &&
              (p.Err? ==> base.perceptions == old(base.perceptions) && buffer == old(buffer))
    {
      var i := 0;
      while i < |buffer|
        invariant 0 <= i <= |buffer| && buffer == old(buffer)
        invariant Perceived(old(base.perceptions), idx, buffer[..i]) == Ok(base.perceptions)
        invariant idx < 0 ==> i == 0
      {
        var s := base.SetPerception(idx, AsPerception(buffer[i]));
        if s.Err? {
          assert buffer[..1][..0] == [];
          return Err(s.error);
        }
        assert buffer[..i + 1][..i] == buffer[..i];
        i := i + 1;
      }
      assert buffer[..i] == buffer;
      buffer := [];
      r := Ok(());
    }

    /** The end of a tick past the minimum: record, build the context, store it. */
    method ConcludeTick(idx: int, finder: Finder) returns (r: Result<()>)
      modifies this`buffer, this`store, this`lastContext, base`perceptions
      ensures var p := Conclude(old(ViewOf()), idx, finder);
              (r.Err? <==> p.Err?) && (p.Ok? ==> ViewOf() == p.value) &&
              (p.Err? ==> ViewOf() == Recorded(old(ViewOf()), idx))
    {
      ghost var v0 := ViewOf();
      r := PerceivedValue(idx);
      if r.Err? {
        assert ViewOf() == v0;
        return;
      }
      ghost var v1 := ViewOf();
      assert v1 == v0.(perceptions := base.perceptions, buffer := []);
      var found := finder(store, base.perceptions);
      if found.Err? {
        assert ViewOf() == v1 == Recorded(v0, idx);
        return Err(found.error);
      }
      var c := found.value;
      AddNewContextToMap(c);
      if |c.entries| > 0 {
        lastContext := Some(c);
      }
      assert ViewOf() == v1.(store := AddAsWritten(v1.store, c), lastContext := if |c.entries| > 0 then Some(c) else v1.lastContext);
    }

    /**
     * processWithUnsufficientSamplesCount: below the minimum only the
     * perception is recorded; at it, the first non-empty context is kept and
     * stored.
     */
    method ProcessWithUnsufficientSamplesCount(idx: int, finder: Finder) returns (r: Result<()>)
      requires idx <= MinNumberSampleObserved
      modifies this`buffer, this`store, this`lastContext, base`perceptions
      ensures idx < MinNumberSampleObserved ==>
                var p := Perceived(old(base.perceptions), idx, old(buffer));
                (r.Err? <==> p.Err?) &&
                (p.Ok? ==> ViewOf() == old(ViewOf()).(perceptions := p.value, buffer := [])) &&
                (p.Err? ==> ViewOf() == old(ViewOf()))
      ensures idx == MinNumberSampleObserved ==>
                var p := Conclude(old(ViewOf()), idx, finder);
                (r.Err? <==> p.Err?) && (p.Ok? ==> ViewOf() == p.value) &&
                (p.Err? ==> ViewOf() == Recorded(old(ViewOf()), idx))
    {
      ghost var v0 := ViewOf();
      r := PerceivedValue(idx);
      if r.Err? {
        assert ViewOf() == v0;
        return;
      }
      ghost var v1 := ViewOf();
      assert v1 == v0.(perceptions := base.perceptions, buffer := []);
      if idx == MinNumberSampleObserved {
        var found := finder(store, base.perceptions);
        if found.Err? {
          return Err(found.error);
        }
        var c := found.value;
        if |c.entries| == 0 {
          assert AddAsWritten(v1.store, c) == v1.store;
          return;
        }
        lastContext := Some(c);
        AddNewContextToMap(c);
        lastContext := Some(c);
        assert ViewOf() == v1.(store := AddAsWritten(v1.store, c), lastContext := Some(c));
      }
    }

    /**
     * processPerception at sample `idx`: the tick ProcessSpec describes. The
     * context finder is `finder`, given the store and the perceptions; a
     * failing finder fails the tick after what it recorded and estimated.
     */
    method ProcessPerception(idx: int, sur: Surroundings, finder: Finder,
                             vds: Option<VirtualSensors.VirtualDataSensor>) returns (r: Result<()>)
      modifies this, base, if vds.Some? then {vds.value} else {}
      ensures var p := ProcessSpec(base.name, old(ViewOf()), idx, sur, finder, info);
              var w := WrittenEstimate(base.name, old(ViewOf()), idx, sur, info);
              var failed := vds.Some? && w.Some? && VirtualSensors.WithEstimation(old(vds.value.data), w.value.entry.value, idx).Err?;
              (!failed ==> (r.Err? <==> p.Err?) && (p.Ok? ==> ViewOf() == p.value) &&
                           (p.Err? ==> ViewOf() == FailedView(base.name, old(ViewOf()), idx, sur, info))) &&
              (failed ==> r.Err? && ViewOf() == EstimatedView(old(ViewOf()), w.value))
      ensures vds.Some? ==> vds.value.observedSampleId == old(vds.value.observedSampleId)
      ensures vds.Some? ==>
                var w := WrittenEstimate(base.name, old(ViewOf()), idx, sur, info);
                vds.value.data ==
                  if w.Some? && VirtualSensors.WithEstimation(old(vds.value.data), w.value.entry.value, idx).Ok?
                  then VirtualSensors.WithEstimation(old(vds.value.data), w.value.entry.value, idx).value
                  else old(vds.value.data)
    {
      if idx <= MinNumberSampleObserved {
        ghost var v := ViewOf();
        r := ProcessWithUnsufficientSamplesCount(idx, finder);
        assert idx < MinNumberSampleObserved && r.Err? ==> ViewOf() == v == Recorded(v, idx);
        return;
      }
      ghost var v0 := ViewOf();
      var toEstimate := HasEmpty(buffer);
      if toEstimate {
        var est := EstimateMissing(base.name, store, lastContext, sur, info);
        if est.Err? {
          if NeighborsFallback(sur, lastContext) {
            state := ESTIMATE_WITH_CONTEXTS;
          }
          assert ViewOf() == FailedView(base.name, v0, idx, sur, info);
          return Err(est.error);
        }
        state := est.value.state;
        if est.value.trust.Some? {
          var t := est.value.trust.value;
          ModifyNeighborsConfidence(t.estimations, t.lo, t.hi);
        }
        assert ViewOf() == v0.(state := est.value.state, neighbors := Trusted(v0.neighbors, est.value.trust));
        if est.value.entry.isEmpty {
          assert WrittenEstimate(base.name, v0, idx, sur, info).None?;
          return Ok(());
        }
        buffer := NonEmpty(buffer) + [est.value.entry];
        assert WrittenEstimate(base.name, v0, idx, sur, info) == Some(est.value);
        assert ViewOf() == EstimatedView(v0, est.value);
        if vds.Some? {
          var written := vds.value.SetEstimation(est.value.entry.value, idx);
          if written.Err? {
            return Err(written.error);
          }
        }
      } else {
        assert WrittenEstimate(base.name, v0, idx, sur, info).None?;
      }
      r := ConcludeTick(idx, finder);
    }
  }

  function Restrict(est: map<AgentId, Double>, keys: set<AgentId>): (r: map<AgentId, Double>)
    ensures r.Keys == est.Keys * keys
  {
    map a | a in est.Keys * keys :: est[a]
  }

  /** One more estimation applied is one more modifyConfidence. */
  lemma UpdatedConfidencesStep(nb: map<AgentId, real>, est: map<AgentId, Double>, a: AgentId, v: Double, lo: Double, hi: Double)
    requires a !in est
    ensures UpdatedConfidences(nb, est[a := v], lo, hi) ==
            UpdatedConfidences(nb, est, lo, hi)[a := if a in nb then ConfidenceAfter(nb[a], DeltaFor(v, lo, hi)) else 1.0]
  {
  }

  /** The outer loop of getMostSimilarContexts, over the buckets sorted by distance. */
  method ScanMostSimilar(store: Store, num: int, ref: ContextData) returns (r: Result<seq<ContextData>>)
    ensures r == MostSimilar(store, ref, num)
  {
    var d := Describe(ref);
    if d.Err? {
      return Err(d.error);
    }
    var sorted := ByDistance(store, d.value);
    var out: seq<ContextData> := [];
    var i := 0;
    while i < |sorted|
      invariant 0 <= i <= |sorted|
      invariant out == AcceptedIn(ref, Flatten(sorted[..i]))
      invariant |out| <= num || |out| == 0
    {
      var j, full;
      out, j, full := ScanBucket(ref, Flatten(sorted[..i]), sorted[i].1, num, out);
      if full {
        ScanStopsEarly(ref, sorted, i, j, num);
        return Ok(out);
      }
      FlattenOfPrefix(sorted, i + 1);
      assert sorted[..i + 1][..i] == sorted[..i];
      i := i + 1;
    }
    assert sorted[..i] == sorted;
    r := Ok(out);
  }

  /**
   * The inner loop of getMostSimilarContexts, over one bucket in stored
   * order: it stops with `full` as soon as `num` contexts are accepted.
   */
  method ScanBucket(ref: ContextData, seen: seq<ContextData>, bucket: seq<ContextData>, num: int, out0: seq<ContextData>)
    returns (out: seq<ContextData>, j: nat, full: bool)
    requires out0 == AcceptedIn(ref, seen) && (|out0| <= num || |out0| == 0)
    ensures j <= |bucket| && out == AcceptedIn(ref, seen + bucket[..j])
    ensures |out| <= num || |out| == 0
    ensures full ==> |out| >= num
    ensures !full ==> j == |bucket| && out == AcceptedIn(ref, seen + bucket)
  {
    out, j, full := out0, 0, false;
    assert seen + bucket[..0] == seen;
    while j < |bucket|
      invariant 0 <= j <= |bucket|
      invariant out == AcceptedIn(ref, seen + bucket[..j])
      invariant |out| <= num || |out| == 0
    {
      if |out| >= num {
        full := true;
        return;
      }
      var c := bucket[j];
      ScanStep(ref, seen, bucket, j);
      if |c.entries| == |ref.entries| && !Same(c, ref) {
        if EstimatedEntriesCount(c) > MaximumEstimatedEntriesInContexts {
          j := j + 1;
          continue;
        }
        out := out + [c];
      }
      j := j + 1;
    }
    assert bucket[..j] == bucket;
  }

  /** Once `num` contexts are accepted, the scan has the first `num` of the full scan. */
  lemma ScanStopsEarly(ref: ContextData, s: Store, i: nat, j: nat, num: int)
    requires i < |s| && j <= |s[i].1|
    requires var out := AcceptedIn(ref, Flatten(s[..i]) + s[i].1[..j]);
             |out| >= num && (|out| <= num || |out| == 0)
    ensures AcceptedIn(ref, Flatten(s[..i]) + s[i].1[..j]) == Take(AcceptedIn(ref, Flatten(s)), num)
  {
    ScannedPrefix(ref, s, i, j);
  }

  /** The scan's early return: what was accepted so far is where the full scan begins. */
  lemma ScannedPrefix(ref: ContextData, s: Store, i: nat, j: nat)
    requires i < |s| && j <= |s[i].1|
    ensures AcceptedIn(ref, Flatten(s[..i]) + s[i].1[..j]) <= AcceptedIn(ref, Flatten(s))
  {
    var p := Flatten(s[..i]) + s[i].1[..j];
    FlattenOfPrefix(s, i + 1);
    assert s[..i + 1][..i] == s[..i];
    assert p <= Flatten(s[..i + 1]);
    assert p == Flatten(s)[..|p|];
    AcceptedPrefix(ref, Flatten(s), |p|);
  }

  /** One more context of the bucket scanned: it is appended exactly when it is accepted. */
  lemma ScanStep(ref: ContextData, seen: seq<ContextData>, bucket: seq<ContextData>, j: nat)
    requires j < |bucket|
    ensures AcceptedIn(ref, seen + bucket[..j + 1]) ==
            AcceptedIn(ref, seen + bucket[..j]) + (if Accepted(ref, bucket[j]) then [bucket[j]] else [])
  {
    AcceptedSnoc(ref, seen + bucket[..j], bucket[j]);
    assert seen + bucket[..j + 1] == seen + bucket[..j] + [bucket[j]];
  }

  lemma AcceptedSnoc(ref: ContextData, cs: seq<ContextData>, c: ContextData)
    ensures AcceptedIn(ref, cs + [c]) == AcceptedIn(ref, cs) + (if Accepted(ref, c) then [c] else [])
  {
    assert (cs + [c])[..|cs|] == cs;
  }
}
