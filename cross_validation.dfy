/**
 * The cross-validation agent (src/agent/crossValidation/CrossValidationAgent.java):
 * an ambient agent that first trains on its whole data line, then replays
 * it estimating the samples of its fold (the test set), then replays it
 * again cooperating only with its best neighbours.
 */
module CrossValidation {
  import opened Wrappers
  import opened Numeric
  import opened Seqs
  import opened Contexts
  import opened Agents
  import opened AmbientAgents
  import opened FileSensors

  /** MIN_NUMBER_SAMPLE_OBSERVED of the ambient agent. */
  const MinSamplesObserved: int := 10

  datatype Mode = Training | Testing | TestingWithBestAgents

  /** BEST_AGENT_NEIGHBORS_STRATEGY */
  datatype NeighborhoodStrategy = MostConfidentAgents | NearestAgents

  /* ---------- getTestSetIDX ---------- */

  /** The fold an agent tests: indexes start..end of a line of n samples, and the size of every fold. */
  datatype Fold = Fold(start: int, end: int, size: nat)

  /** (int) Math.ceil(n / numFolds) */
  function FoldSize(n: nat, numFolds: int): (size: nat)
    requires numFolds > 0
    ensures size * numFolds >= n
    ensures size == 0 || (size - 1) * numFolds < n
  {
    var q := (n + numFolds - 1) / numFolds;
    assert q * numFolds + (n + numFolds - 1) % numFolds == n + numFolds - 1;
    q
  }

  /**
   * Fold foldId: from foldId * size to the end of that block or of the line;
   * a start below MIN_NUMBER_SAMPLE_OBSERVED is moved 11 samples on so the
   * agent has built contexts before it estimates.
   */
  function FoldOf(n: nat, numFolds: int, foldId: int): (f: Fold)
    requires numFolds > 0
    ensures f.size == FoldSize(n, numFolds)
    ensures f.end < n
    ensures f.end == (if foldId * f.size + f.size < n then foldId * f.size + f.size else n) - 1
    ensures foldId * f.size >= MinSamplesObserved ==> f.start == foldId * f.size
    ensures foldId * f.size < MinSamplesObserved ==> f.start == foldId * f.size + MinSamplesObserved + 1
  {
    var size := FoldSize(n, numFolds);
    var s0 := foldId * size;
    var e := (if s0 + size < n then s0 + size else n) - 1;
    Fold(if s0 < MinSamplesObserved then s0 + MinSamplesObserved + 1 else s0, e, size)
  }

  lemma MulMonotone(a: int, b: int, c: nat)
    requires a <= b
    ensures a * c <= b * c
  {
  }

  /** The test folds of two agents with different fold ids never overlap. */
  lemma FoldsAreDisjoint(n: nat, numFolds: int, f: int, g: int)
    requires numFolds > 0 && 0 <= f < g
    ensures FoldOf(n, numFolds, f).end < FoldOf(n, numFolds, g).start
  {
    var size := FoldSize(n, numFolds);
    MulMonotone(f + 1, g, size);
    assert f * size + size == (f + 1) * size;
  }

  /** The test folds lie inside the line, and the first fold leaves out the first 11 samples. */
  lemma FoldInLine(n: nat, numFolds: int, foldId: int)
    requires numFolds > 0 && foldId >= 0
    ensures var f := FoldOf(n, numFolds, foldId); 0 <= f.start && f.end < n
    ensures foldId == 0 ==> FoldOf(n, numFolds, foldId).start == MinSamplesObserved + 1
  {
    var size := FoldSize(n, numFolds);
    MulMonotone(0, foldId, size);
  }

  /**
   * The mask filled by getTestSetIDX: all false, then true from start to
   * end; a negative start fails at the first write.
   */
  method TestSetMask(n: nat, start: int, end: int) returns (r: Result<seq<bool>>)
    requires end < n
    ensures r.Err? <==> start < 0 && start <= end
    ensures r.Ok? ==> |r.value| == n && forall i :: 0 <= i < n ==> (r.value[i] <==> start <= i <= end)
    ensures r.Ok? ==> r.value == FoldMask(n, start, end)
  {
    var mask := new bool[n](_ => false);
    var i := start;
    while i <= end
      invariant start <= i && (start <= end ==> i <= end + 1) && (start > end ==> i == start)
      invariant i > start ==> start >= 0
      invariant forall k :: 0 <= k < n ==> (mask[k] <==> start <= k < i)
      decreases end - i
    {
      if i < 0 {
        return Err("ArrayIndexOutOfBoundsException");
      }
      mask[i] := true;
      i := i + 1;
    }
    r := Ok(mask[..]);
  }

  /** The test mask of samples start..end in a line of n samples. */
  function FoldMask(n: nat, start: int, end: int): (m: seq<bool>)
    ensures |m| == n
    ensures forall i :: 0 <= i < n ==> (m[i] <==> start <= i <= end)
  {
    seq(n, i => start <= i <= end)
  }

  /* ---------- getMostConfidentAgentsToWhichCooperate / getNearestAgentsToWhichCooperate ---------- */

  /** What neighbour selection reads of an agent in the environment. */
  datatype Candidate = Candidate(name: AgentId, isAmbient: bool, isReal: bool, active: bool, paused: bool,
                                 distance: Double, confidence: Double)

  /** Real, active, unpaused ambient agents other than `self`. */
  predicate Eligible(self: AgentId, c: Candidate)
  {
    c.isAmbient && c.isReal && c.active && !c.paused && c.name != self
  }

  function EligibleOf(self: AgentId, cs: seq<Candidate>): (r: seq<Candidate>)
    ensures forall c :: c in r <==> c in cs && Eligible(self, c)
    ensures |r| <= |cs|
  {
    if |cs| == 0 then []
    else (if Eligible(self, cs[0]) then [cs[0]] else []) + EligibleOf(self, cs[1..])
  }

  /** (int) (n * (PERCENTAGE / 100.)): a negative share selects nobody. */
  function CooperationCount(n: nat, pct: int): (r: nat)
    ensures pct <= 100 ==> r <= n
    ensures 0 <= pct ==> r * 100 <= n * pct < (r + 1) * 100
  {
    if pct <= 0 then 0
    else
      assert pct <= 100 ==> n * pct <= n * 100 by {
        if pct <= 100 {
          MulMonotone(pct, 100, n);
        }
      }
      n * pct / 100
  }

  /** IntStream.range(0, count).mapToObj(neighbors::get): the first `count`, failing past the end. */
  function FirstOf(sorted: seq<Candidate>, count: nat): (r: Result<seq<Candidate>>)
    ensures r.Err? <==> count > |sorted|
    ensures r.Ok? ==> r.value == sorted[..count]
  {
    if count > |sorted| then Err("IndexOutOfBoundsException") else Ok(sorted[..count])
  }

  function ByDistance(): (Candidate, Candidate) -> bool
  {
    (a: Candidate, b: Candidate) => CompareLe(a.distance, b.distance)
  }

  function ByConfidence(): (Candidate, Candidate) -> bool
  {
    (a: Candidate, b: Candidate) => CompareLe(a.confidence, b.confidence)
  }

  function ByConfidenceDescending(): (Candidate, Candidate) -> bool
  {
    (a: Candidate, b: Candidate) => CompareLe(b.confidence, a.confidence)
  }

  /** getNearestAgentsToWhichCooperate */
  function Nearest(self: AgentId, cs: seq<Candidate>, pct: int): Result<seq<Candidate>>
  {
    var e := EligibleOf(self, cs);
    FirstOf(SortBy(e, ByDistance()), CooperationCount(|e|, pct))
  }

  /** getMostConfidentAgentsToWhichCooperate as written: Double.compare(c1, c2) sorts ascending. */
  function MostConfidentAsWritten(self: AgentId, cs: seq<Candidate>, pct: int): Result<seq<Candidate>>
  {
    var e := EligibleOf(self, cs);
    FirstOf(SortBy(e, ByConfidence()), CooperationCount(|e|, pct))
  }

  /** getMostConfidentAgentsToWhichCooperate as its name intends: the most confident first. */
  function MostConfident(self: AgentId, cs: seq<Candidate>, pct: int): Result<seq<Candidate>>
  {
    var e := EligibleOf(self, cs);
    FirstOf(SortBy(e, ByConfidenceDescending()), CooperationCount(|e|, pct))
  }

  /** In a sorted list, an element among the first `count` precedes every element after them. */
  lemma ChosenBeforeRest(t: seq<Candidate>, le: (Candidate, Candidate) -> bool, count: nat, x: Candidate, y: Candidate)
    requires SortedBy(t, le) && count <= |t|
    requires x in t[..count] && y in t && y !in t[..count]
    ensures le(x, y)
  {
    var i :| 0 <= i < count && t[..count][i] == x;
    var j :| 0 <= j < |t| && t[j] == y;
    assert forall k :: 0 <= k < count ==> t[..count][k] == t[k];
    assert t[i] == x && j >= count;
  }

  lemma DistanceOrder()
    ensures TotalPreorder(ByDistance())
  {
    forall a, b, c | ByDistance()(a, b) && ByDistance()(b, c)
      ensures ByDistance()(a, c)
    {
      CompareLeTransitive(a.distance, b.distance, c.distance);
    }
  }

  lemma ConfidenceOrders()
    ensures TotalPreorder(ByConfidence()) && TotalPreorder(ByConfidenceDescending())
  {
    forall a, b, c | ByConfidence()(a, b) && ByConfidence()(b, c)
      ensures ByConfidence()(a, c)
    {
      CompareLeTransitive(a.confidence, b.confidence, c.confidence);
    }
    forall a, b, c | ByConfidenceDescending()(a, b) && ByConfidenceDescending()(b, c)
      ensures ByConfidenceDescending()(a, c)
    {
      CompareLeTransitive(c.confidence, b.confidence, a.confidence);
    }
  }

  /**
   * The nearest-agents selection: PERCENTAGE % of the eligible agents, each
   * no farther than any eligible agent left out (Double.compare order).
   */
  lemma NearestAreNearest(self: AgentId, cs: seq<Candidate>, pct: int, x: Candidate, y: Candidate)
    requires 0 <= pct <= 100
    ensures Nearest(self, cs, pct).Ok?
    ensures var r := Nearest(self, cs, pct).value;
            |r| == CooperationCount(|EligibleOf(self, cs)|, pct) && multiset(r) <= multiset(EligibleOf(self, cs)) &&
            (x in r && y in EligibleOf(self, cs) && y !in r ==> CompareLe(x.distance, y.distance))
  {
    var e := EligibleOf(self, cs);
    var t := SortBy(e, ByDistance());
    var count := CooperationCount(|e|, pct);
    assert t == t[..count] + t[count..];
    DistanceOrder();
    SortBySorted(e, ByDistance());
    if x in t[..count] && y in e && y !in t[..count] {
      assert y in multiset(t);
      ChosenBeforeRest(t, ByDistance(), count, x, y);
    }
  }

  /** The most-confident selection: every chosen agent is trusted at least as much as every one left out. */
  lemma MostConfidentAreMostTrusted(self: AgentId, cs: seq<Candidate>, pct: int, x: Candidate, y: Candidate)
    requires 0 <= pct <= 100
    ensures MostConfident(self, cs, pct).Ok?
    ensures var r := MostConfident(self, cs, pct).value;
            |r| == CooperationCount(|EligibleOf(self, cs)|, pct) && multiset(r) <= multiset(EligibleOf(self, cs)) &&
            (x in r && y in EligibleOf(self, cs) && y !in r ==> CompareLe(y.confidence, x.confidence))
  {
    var e := EligibleOf(self, cs);
    var t := SortBy(e, ByConfidenceDescending());
    var count := CooperationCount(|e|, pct);
    assert t == t[..count] + t[count..];
    ConfidenceOrders();
    SortBySorted(e, ByConfidenceDescending());
    if x in t[..count] && y in e && y !in t[..count] {
      assert y in multiset(t);
      ChosenBeforeRest(t, ByConfidenceDescending(), count, x, y);
    }
  }

  /**
   * As written, the ascending sort hands over the least trusted agents: of
   * two eligible agents trusted 0.2 and 0.9, half the neighbourhood is the
   * one trusted 0.2.
   */
  lemma AsWrittenPicksLeastConfident(self: AgentId, a: Candidate, b: Candidate)
    requires Eligible(self, a) && Eligible(self, b)
    requires a.confidence == Finite(0.2) && b.confidence == Finite(0.9)
    ensures MostConfidentAsWritten(self, [a, b], 50) == Ok([a])
    ensures MostConfident(self, [a, b], 50) == Ok([b])
  {
    EligibleBoth(self, a, b);
    AsWrittenTakesFirst(self, a, b);
    CorrectedTakesSecond(self, a, b);
  }

  lemma EligibleBoth(self: AgentId, a: Candidate, b: Candidate)
    requires Eligible(self, a) && Eligible(self, b)
    ensures EligibleOf(self, [a, b]) == [a, b]
  {
    assert [a, b][1..] == [b];
    assert EligibleOf(self, [b]) == [b] by { assert [b][1..] == []; }
  }

  lemma AsWrittenTakesFirst(self: AgentId, a: Candidate, b: Candidate)
    requires EligibleOf(self, [a, b]) == [a, b]
    requires a.confidence == Finite(0.2) && b.confidence == Finite(0.9)
    ensures MostConfidentAsWritten(self, [a, b], 50) == Ok([a])
  {
    assert CooperationCount(2, 50) == 1;
    assert [a, b][..1] == [a];
    assert SortBy([a], ByConfidence()) == [a];
    assert SortBy([a, b], ByConfidence()) == [a, b];
  }

  lemma CorrectedTakesSecond(self: AgentId, a: Candidate, b: Candidate)
    requires EligibleOf(self, [a, b]) == [a, b]
    requires a.confidence == Finite(0.2) && b.confidence == Finite(0.9)
    ensures MostConfident(self, [a, b], 50) == Ok([b])
  {
    assert CooperationCount(2, 50) == 1;
    assert SortBy([a], ByConfidenceDescending()) == [a];
    assert InsertStable([a], b, ByConfidenceDescending()) == [b, a];
    assert SortBy([a, b], ByConfidenceDescending()) == [b, a];
    assert [b, a][..1] == [b];
  }

  /* ---------- the agent ---------- */

  /** What handleSensorFailure did: nothing, the listener told of termination, a mode switch, or the end of the test. */
  datatype Outcome = Ignored | Terminated | Switched(to: Mode) | Finished

  /** The mode an end of file leads to from each mode; the last one has none. */
  function AfterEof(m: Mode): Option<Mode>
  {
    match m
    case Training => Some(Testing)
    case Testing => Some(TestingWithBestAgents)
    case TestingWithBestAgents => None
  }

  class CrossValidationAgent {
    /** The ambient agent this agent extends. */
    const ambient: AmbientContextAgent
    const sensor: FileDataSensor
    /** This agent's array of ESTIMATION_MAP. */
    const estimation: array<Double>
    const trainOnly: bool
    var mode: Mode
    var notifiedFinished: bool
    var foldStart: int
    var foldEnd: int
    var foldSize: int
    var foldId: int
    var testSetIdx: Option<seq<bool>>

    constructor (ambient: AmbientContextAgent, sensor: FileDataSensor, trainOnly: bool)
      ensures this.ambient == ambient && this.sensor == sensor && this.trainOnly == trainOnly
      ensures mode == Training && !notifiedFinished && testSetIdx.None?
      ensures foldStart == 0 && foldEnd == 0 && foldSize == 0 && foldId == 0
      ensures fresh(estimation) && estimation.Length == (if trainOnly then 0 else |sensor.data|)
      ensures forall i :: 0 <= i < estimation.Length ==> estimation[i] == Finite(0.0)
    {
      this.ambient := ambient;
      this.sensor := sensor;
      this.trainOnly := trainOnly;
      mode := Training;
      notifiedFinished := false;
      foldStart, foldEnd, foldSize, foldId := 0, 0, 0, 0;
      testSetIdx := None;
      estimation := new Double[if trainOnly then 0 else |sensor.data|](_ => Finite(0.0));
    }

    /** getTestSetIDX: the fold bounds are kept by the agent, the mask returned. */
    method GetTestSetIdx(numFolds: int, foldID: int, n: nat, trainOnly: bool) returns (r: Result<seq<bool>>)
      requires trainOnly || foldID == -1 || foldID >= numFolds || numFolds > 0
      modifies this`foldStart, this`foldEnd, this`foldSize, this`foldId
      ensures trainOnly || foldID == -1 ==>
                r == Ok(Repeat(false, n)) && unchanged(this`foldStart, this`foldEnd, this`foldSize, this`foldId)
      ensures !trainOnly && foldID != -1 && foldID >= numFolds ==>
                r == Err("IllegalArgumentException") && unchanged(this`foldStart, this`foldEnd, this`foldSize, this`foldId)
      ensures !trainOnly && foldID != -1 && foldID < numFolds ==>
                var f := FoldOf(n, numFolds, foldID);
                foldStart == f.start && foldEnd == f.end && foldSize == f.size && foldId == foldID &&
                (r.Err? <==> f.start < 0 && f.start <= f.end) &&
                (r.Ok? ==> r.value == FoldMask(n, f.start, f.end))
    {
      if trainOnly || foldID == -1 {
        var mask := TestSetMask(n, 0, -1);
        assert mask.value == Repeat(false, n);
        return mask;
      }
      if foldID >= numFolds {
        return Err("IllegalArgumentException");
      }
      var f := FoldOf(n, numFolds, foldID);
      foldStart, foldEnd, foldSize, foldId := f.start, f.end, f.size, foldID;
      r := TestSetMask(n, f.start, f.end);
    }

    /**
     * handleSensorFailure: a train-only agent only reports its end, once;
     * otherwise each end of file rewinds the sensor onto the test mask and
     * moves to the next mode, and any other failure copies the fold's
     * estimates into ESTIMATION_MAP and stops the agent.
     */
    method HandleSensorFailure(isEof: bool, vals: seq<Double>) returns (r: Result<Outcome>)
      modifies this`notifiedFinished, this`mode, sensor, ambient`buffer, estimation, ambient.base`isActive
      ensures trainOnly ==> r == Ok(if old(notifiedFinished) then Ignored else Terminated) && notifiedFinished
      ensures trainOnly ==> unchanged(sensor, ambient, estimation) && mode == old(mode) && ambient.base.isActive == old(ambient.base.isActive)
      ensures !trainOnly && isEof && AfterEof(old(mode)).Some? ==>
                r == Ok(Switched(AfterEof(old(mode)).value)) && mode == AfterEof(old(mode)).value &&
                sensor.dataIdx == 0 && sensor.testSet == testSetIdx && ambient.buffer == [] &&
                sensor.data == old(sensor.data) && sensor.active == old(sensor.active) &&
                unchanged(estimation) && ambient.base.isActive == old(ambient.base.isActive)
      ensures !trainOnly && !(isEof && AfterEof(old(mode)).Some?) ==>
                var src := if foldId == 0 then 0 else foldStart;
                (r.Ok? <==> src > foldEnd || (0 <= src && foldEnd < |vals| && foldEnd < estimation.Length)) &&
                (r.Ok? ==> r.value == Finished && !ambient.base.isActive) &&
                (forall i :: 0 <= i < estimation.Length ==>
                   estimation[i] == if 0 <= src <= i <= foldEnd && i < |vals| then vals[i] else old(estimation[i])) &&
                mode == old(mode) && unchanged(sensor) && ambient.buffer == old(ambient.buffer)
      ensures notifiedFinished == (old(notifiedFinished) || trainOnly)
    {
      if trainOnly {
        if !notifiedFinished {
          notifiedFinished := true;
          return Ok(Terminated);
        }
        return Ok(Ignored);
      }
      if isEof && AfterEof(mode).Some? {
        sensor.ResetDataIdx();
        sensor.SetTestSet(testSetIdx);
        ambient.buffer := [];
        mode := AfterEof(mode).value;
        return Ok(Switched(mode));
      }
      var src := foldStart;
      var dest := foldEnd;
      if foldId == 0 {
        src := 0;
      }
      var copied := CopyFold(src, dest, vals);
      if !copied {
        return Err("ArrayIndexOutOfBoundsException");
      }
      ambient.base.StopAgent();
      r := Ok(Finished);
    }

    /** The copy of vals[src..dest] into the agent's estimation array. */
    method CopyFold(src: int, dest: int, vals: seq<Double>) returns (ok: bool)
      modifies estimation
      ensures ok <==> src > dest || (0 <= src && dest < |vals| && dest < estimation.Length)
      ensures forall i :: 0 <= i < estimation.Length ==>
                estimation[i] == if 0 <= src <= i <= dest && i < |vals| then vals[i] else old(estimation[i])
    {
      var i := src;
      while i <= dest
        invariant src <= i && (src <= dest ==> i <= dest + 1) && (src > dest ==> i == src)
        invariant i > src ==> 0 <= src && i - 1 < |vals| && i - 1 < estimation.Length
        invariant forall k :: 0 <= k < estimation.Length ==>
                    estimation[k] == if 0 <= src <= k < i && k < |vals| then vals[k] else old(estimation[k])
        decreases dest - i
      {
        if i < 0 || i >= |vals| || i >= estimation.Length {
          return false;
        }
        estimation[i] := vals[i];
        i := i + 1;
      }
      assert src <= dest ==> i == dest + 1;
      return true;
    }

    /** modifyNeighborsConfidence: no confidence changes while testing with the best agents. */
    method ModifyNeighborsConfidence(est: map<AgentId, Double>, lo: Double, hi: Double)
      modifies ambient.base`neighbors
      ensures mode == TestingWithBestAgents ==> ambient.base.neighbors == old(ambient.base.neighbors)
      ensures mode != TestingWithBestAgents ==>
                ambient.base.neighbors == UpdatedConfidences(old(ambient.base.neighbors), est, lo, hi)
    {
      if mode == TestingWithBestAgents {
        return;
      }
      ambient.ModifyNeighborsConfidence(est, lo, hi);
    }

    /**
     * getNeighborsWithWhichCooperate: the ambient agent's own choice
     * (`inherited`) until the last mode, then the best agents by the
     * configured strategy.
     */
    method GetNeighborsWithWhichCooperate(strategy: NeighborhoodStrategy, cs: seq<Candidate>, pct: int,
                                          inherited: seq<Candidate>) returns (r: Result<seq<Candidate>>)
      ensures mode != TestingWithBestAgents ==> r == Ok(inherited)
      ensures mode == TestingWithBestAgents && strategy == MostConfidentAgents ==> r == MostConfidentAsWritten(ambient.base.name, cs, pct)
      ensures mode == TestingWithBestAgents && strategy == NearestAgents ==> r == Nearest(ambient.base.name, cs, pct)
    {
      if mode != TestingWithBestAgents {
        return Ok(inherited);
      }
      match strategy
      case MostConfidentAgents => r := MostConfidentAsWritten(ambient.base.name, cs, pct);
      case NearestAgents => r := Nearest(ambient.base.name, cs, pct);
    }
  }

  /**
   * getNew: a training agent; unless train-only, its test mask is computed
   * now and handed to the sensor at the first end of file.
   */
  method GetNew(ambient: AmbientContextAgent, sensor: FileDataSensor, numFolds: int, foldID: int, trainOnly: bool)
    returns (r: Result<CrossValidationAgent>)
    requires trainOnly || foldID == -1 || foldID >= numFolds || numFolds > 0
    ensures r.Ok? ==> fresh(r.value) && r.value.mode == Training && r.value.ambient == ambient && r.value.sensor == sensor
    ensures r.Ok? && trainOnly ==> r.value.testSetIdx.None?
    ensures r.Ok? && !trainOnly && foldID == -1 ==> r.value.testSetIdx == Some(Repeat(false, |sensor.data|))
    ensures r.Ok? && !trainOnly && foldID != -1 && foldID < numFolds ==>
              var f := FoldOf(|sensor.data|, numFolds, foldID);
              r.value.testSetIdx == Some(FoldMask(|sensor.data|, f.start, f.end)) &&
              r.value.foldStart == f.start && r.value.foldEnd == f.end && r.value.foldSize == f.size && r.value.foldId == foldID
    ensures r.Err? <==> !trainOnly && foldID != -1 &&
                        (foldID >= numFolds || (var f := FoldOf(|sensor.data|, numFolds, foldID); f.start < 0 && f.start <= f.end))
  {
    var ag := new CrossValidationAgent(ambient, sensor, trainOnly);
    if !trainOnly {
      var mask := ag.GetTestSetIdx(numFolds, foldID, |sensor.data|, trainOnly);
      if mask.Err? {
        return Err(mask.error);
      }
      ag.testSetIdx := Some(mask.value);
    }
    r := Ok(ag);
  }
}
