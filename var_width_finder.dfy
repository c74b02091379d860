/**
 * The variable-width context finder
 * (src/context/dynamicContext/VarWidthContextFinder.java): starting from the
 * last two perceptions, it grows a trial context one older sample at a time,
 * imputes the next value with each trial, and keeps the trial whose imputed
 * next value lands closest to the known one.
 */
module VarWidthFinders {
  import opened Wrappers
  import opened Numeric
  import opened Seqs
  import opened ContextInfos
  import opened ContextEntries
  import opened Contexts
  import opened DataSensors
  import opened Estimation

  const MaxContextSize: int := 14

  /** getMostSimilarContexts(10, trial, ...) of the agent (modelled in AmbientAgents; a parameter here). */
  type Lookup = ContextData -> seq<ContextData>

  /** What the finder reads from the agent and its sensor. */
  datatype Inputs = Inputs(owner: AgentId, info: ContextInfo, data: seq<Double>, idx: int, samplesCount: int,
                           perceptions: seq<Perception>, realSensor: bool, now: int)

  /** The offsets of the next sample and of the two seed perceptions. */
  datatype Probe = Probe(offsetNext: int, offset2: int, offset3: int)

  /**
   * The probe of lines 49-60: the offsets are (-1, 0, 1) when both the sample
   * after the cursor and the first sample can be read, else (0, 1, 2).
   */
  function ProbeOffsets(data: seq<Double>, idx: int): (p: Probe)
    ensures p.offsetNext == -1 <==> 0 <= idx + 1 < |data|
    ensures p.offsetNext == -1 || p.offsetNext == 0
    ensures p.offset2 == p.offsetNext + 1 && p.offset3 == p.offset2 + 1
  {
    if ReadAt(data, idx, -1).Ok? && ReadAt(data, idx, idx).Ok? then Probe(-1, 0, 1) else Probe(0, 1, 2)
  }

  /** The two seed entries, oldest first: the perceptions at idx - offset3 and idx - offset2. */
  function SeedEntries(inp: Inputs, p: Probe): (r: Result<seq<ContextEntry>>)
    requires p.offset3 == p.offset2 + 1
    ensures r.Ok? <==> 0 <= inp.idx - p.offset3 && inp.idx - p.offset2 < |inp.perceptions|
    ensures r.Ok? ==> |r.value| == 2
    ensures r.Ok? ==> r.value[0] == FromPerception(inp.info, inp.now, inp.perceptions[inp.idx - p.offset3])
    ensures r.Ok? ==> r.value[1] == FromPerception(inp.info, inp.now, inp.perceptions[inp.idx - p.offset2])
  {
    if 0 <= inp.idx - p.offset3 && inp.idx - p.offset2 < |inp.perceptions| then
      Ok([FromPerception(inp.info, inp.now, inp.perceptions[inp.idx - p.offset3]),
          FromPerception(inp.info, inp.now, inp.perceptions[inp.idx - p.offset2])])
    else Err("IndexOutOfBoundsException")
  }

  /**
   * The entry prepended for candidate offset j + 2: the perception at that
   * offset, replaced by the sensor's sample at that offset for an agent with a
   * real sensor. The perception is looked up either way.
   */
  function OlderAt(inp: Inputs, j: nat): (r: Result<ContextEntry>)
    ensures r.Ok? ==> WellFormed(r.value) && r.value.info == inp.info
    ensures r.Ok? ==> 0 <= inp.idx - (j + 2) < |inp.perceptions|
    ensures r.Ok? && !inp.realSensor ==> r.value == FromPerception(inp.info, inp.now, inp.perceptions[inp.idx - (j + 2)])
    ensures r.Ok? && inp.realSensor ==> ReadAt(inp.data, inp.idx, j + 2) == Ok(r.value.value)
  {
    if !(0 <= inp.idx - (j + 2) < |inp.perceptions|) then Err("IndexOutOfBoundsException")
    else if !inp.realSensor then Ok(FromPerception(inp.info, inp.now, inp.perceptions[inp.idx - (j + 2)]))
    else
      var v := ReadAt(inp.data, inp.idx, j + 2);
      if v.Err? then Err(v.error) else Ok(FromValue(inp.info, inp.now, v.value))
  }

  /** How many candidate offsets below `i` the loop has tried: those in [2, i) with idx - offset >= 0. */
  function Done(i: int, idx: int): (n: nat)
    requires 2 <= i
    ensures n <= i - 2
  {
    if idx < 2 then 0 else if i <= idx + 1 then i - 2 else idx - 1
  }

  /** One more offset is tried exactly when it does not reach before the first sample. */
  lemma DoneStep(i: int, idx: int)
    requires 2 <= i
    ensures Done(i + 1, idx) == if idx - i < 0 then Done(i, idx) else Done(i, idx) + 1
  {
  }

  /** The first n prepended entries, assuming they could all be read. */
  function Olds(inp: Inputs, n: nat): (r: seq<ContextEntry>)
    requires forall j :: 0 <= j < n ==> OlderAt(inp, j).Ok?
    ensures |r| == n && forall j :: 0 <= j < n ==> r[j] == OlderAt(inp, j).value
  {
    seq(n, j requires 0 <= j < n && OlderAt(inp, j).Ok? => OlderAt(inp, j).value)
  }

  /** The trial context after the entries of `olds` were pushed in turn to the front of the seeds. */
  function Trial(inp: Inputs, seeds: seq<ContextEntry>, olds: seq<ContextEntry>): (c: ContextData)
    ensures |c.entries| == |olds| + |seeds| && c.finalDataIdx == 0
    ensures c.owner == inp.owner && c.info == inp.info
  {
    ContextData(inp.owner, inp.info, Reverse(olds) + seeds, 0)
  }

  /**
   * The score of a trial: |current + impute(trial) - next|, where impute
   * uses the similar contexts, or the trial itself when there are none.
   */
  function ScoreOf(trial: ContextData, current: Double, next: Double, similar: Lookup, cmp: Comparator): Double
    requires |trial.entries| >= 2
  {
    var found := similar(trial);
    var cands := if |found| < 1 then [trial] else found;
    Abs(Sub(Add(current, ImputeSpec(trial, cands, None, cmp).value), next))
  }

  /**
   * getContext as a value: the two-entry seed context near the end of the
   * samples, an empty context when a seed is not finite, else the trial of
   * least score with finalDataIdx set to the cursor; the failures are the
   * list lookups that go out of range and the IllegalStateException when
   * no candidate offset exists.
   */
  function FindSpec(inp: Inputs, similar: Lookup, cmp: Comparator): (r: Result<ContextData>)
    ensures r.Ok? ==> r.value.owner == inp.owner && r.value.info == inp.info
    ensures r.Ok? && inp.idx + 1 >= inp.samplesCount ==> |r.value.entries| == 2 && r.value.finalDataIdx == 0
    ensures r.Ok? && inp.idx + 1 < inp.samplesCount ==>
      |r.value.entries| == 0 || (3 <= |r.value.entries| <= MaxContextSize + 1 && r.value.finalDataIdx == inp.idx)
    ensures r.Ok? && inp.idx + 1 < inp.samplesCount && |r.value.entries| > 0 ==>
      var p := ProbeOffsets(inp.data, inp.idx);
      SeedEntries(inp, p).Ok? && 0 <= inp.idx < |inp.perceptions| && ReadAt(inp.data, inp.idx, p.offsetNext).Ok? &&
      LeastScoring(inp, SeedEntries(inp, p).value,
                   TrialScore(inp.perceptions[inp.idx].value, ReadAt(inp.data, inp.idx, p.offsetNext).value, similar, cmp),
                   r.value)
  {
    var p := ProbeOffsets(inp.data, inp.idx);
    var seeds := SeedEntries(inp, p);
    if seeds.Err? then Err(seeds.error)
    else
      var seedCtx := ContextData(inp.owner, inp.info, seeds.value, 0);
      if inp.idx + 1 >= inp.samplesCount then Ok(seedCtx)
      else if !IsValid(seedCtx) then Ok(ContextData(inp.owner, inp.info, [], 0))
      else if !(0 <= inp.idx < |inp.perceptions|) then Err("IndexOutOfBoundsException")
      else
        var next := ReadAt(inp.data, inp.idx, p.offsetNext);
        if next.Err? then Err(next.error)
        else SearchSpec(inp, seeds.value, TrialScore(inp.perceptions[inp.idx].value, next.value, similar, cmp))
  }

  /**
   * c is one of the trials, with finalDataIdx set to the cursor, whose score
   * is no greater than that of any trial and strictly less than that of every
   * earlier one (the first of least score).
   */
  predicate LeastScoring(inp: Inputs, seeds: seq<ContextEntry>, score: ContextData -> Double, c: ContextData)
  {
    var m := Done(MaxContextSize + 1, inp.idx);
    0 < m && (forall j :: 0 <= j < m ==> OlderAt(inp, j).Ok?) &&
    var ts := TrialsOf(inp, seeds, Olds(inp, m));
    exists k :: 0 <= k < m && c == ts[k].(finalDataIdx := inp.idx) &&
      (forall j :: 0 <= j < m ==> CompareLe(score(ts[k]), score(ts[j]))) &&
      (forall j :: 0 <= j < k ==> !CompareLe(score(ts[j]), score(ts[k])))
  }

  /** The search over the candidate offsets once the seeds, the current and the next value are known. */
  function SearchSpec(inp: Inputs, seeds: seq<ContextEntry>, score: ContextData -> Double): (r: Result<ContextData>)
    requires |seeds| == 2
    ensures r.Ok? ==> r.value.owner == inp.owner && r.value.info == inp.info && r.value.finalDataIdx == inp.idx
    ensures r.Ok? ==> 3 <= |r.value.entries| <= MaxContextSize + 1
    ensures r.Ok? <==> Done(MaxContextSize + 1, inp.idx) > 0 &&
                       forall j :: 0 <= j < Done(MaxContextSize + 1, inp.idx) ==> OlderAt(inp, j).Ok?
    ensures r.Ok? ==> LeastScoring(inp, seeds, score, r.value)
  {
    var m := Done(MaxContextSize + 1, inp.idx);
    if exists j :: 0 <= j < m && OlderAt(inp, j).Err? then Err("IndexOutOfBoundsException")
    else if m == 0 then Err("IllegalStateException: Error while evaluate dynamic-size context.")
    else
      var olds := Olds(inp, m);
      var scores := Scores(inp, seeds, olds, score);
      var w := MinByIndex(scores, m);
      var ts := TrialsOf(inp, seeds, olds);
      assert forall j :: 0 <= j < m ==> scores[j] == score(ts[j]);
      Ok(ts[w].(finalDataIdx := inp.idx))
  }

  /** The score of each trial, in the order the offsets are tried. */
  function Scores(inp: Inputs, seeds: seq<ContextEntry>, olds: seq<ContextEntry>, score: ContextData -> Double): (r: seq<Double>)
    ensures |r| == |olds|
    ensures forall k :: 0 <= k < |olds| ==> r[k] == score(TrialsOf(inp, seeds, olds)[k])
  {
    var ts := TrialsOf(inp, seeds, olds);
    seq(|olds|, k requires 0 <= k < |olds| => score(ts[k]))
  }

  /** The successive trials: the k-th holds the first k + 1 pushed entries in front of the seeds. */
  function TrialsOf(inp: Inputs, seeds: seq<ContextEntry>, olds: seq<ContextEntry>): (r: seq<ContextData>)
    ensures |r| == |olds|
    ensures forall k :: 0 <= k < |olds| ==> r[k] == Trial(inp, seeds, olds[..k + 1])
  {
    seq(|olds|, k requires 0 <= k < |olds| => Trial(inp, seeds, olds[..k + 1]))
  }

  /** Every entry of a trial built from readable entries keeps isEmpty tied to its value. */
  lemma TrialWellFormed(inp: Inputs, seeds: seq<ContextEntry>, olds: seq<ContextEntry>)
    requires forall k :: 0 <= k < |seeds| ==> WellFormed(seeds[k])
    requires forall k :: 0 <= k < |olds| ==> WellFormed(olds[k])
    ensures forall k :: 0 <= k < |Trial(inp, seeds, olds).entries| ==> WellFormed(Trial(inp, seeds, olds).entries[k])
  {
    var es := Trial(inp, seeds, olds).entries;
    forall k | 0 <= k < |es|
      ensures WellFormed(es[k])
    {
      if k < |olds| {
        assert es[k] == olds[|olds| - 1 - k];
      } else {
        assert es[k] == seeds[k - |olds|];
      }
    }
  }

  /**
   * getContext: probes the sensor, seeds the trial with two perceptions,
   * and for each offset 2..14 that stays inside the data pushes one older
   * entry, scores the trial and keeps a clone of it; the clone of least
   * score, first on ties, gets finalDataIdx = idx.
   */
  method GetContext(inp: Inputs, similar: Lookup, cmp: Comparator) returns (r: Result<Context>)
    ensures r.Err? <==> FindSpec(inp, similar, cmp).Err?
    ensures r.Ok? ==> fresh(r.value) && r.value.Data() == FindSpec(inp, similar, cmp).value
  {
    var p := ProbeOffsets(inp.data, inp.idx);
    var seeds := SeedEntries(inp, p);
    if seeds.Err? {
      return Err(seeds.error);
    }
    var testContext := new Context(inp.owner, inp.info);
    testContext.ForceAddFirst([seeds.value[1]]);
    testContext.ForceAddFirst([seeds.value[0]]);
    assert testContext.entries == seeds.value;
    if inp.idx + 1 >= inp.samplesCount {
      return Ok(testContext);
    }
    if !IsValid(testContext.Data()) {
      var empty := new Context(inp.owner, inp.info);
      return Ok(empty);
    }
    if !(0 <= inp.idx < |inp.perceptions|) {
      return Err("IndexOutOfBoundsException");
    }
    var current := inp.perceptions[inp.idx].value;
    var next := ReadAt(inp.data, inp.idx, p.offsetNext);
    if next.Err? {
      return Err(next.error);
    }
    r := SearchBest(inp, seeds.value, testContext, TrialScore(current, next.value, similar, cmp));
  }

  /** The candidate loop followed by the argmin of lines 145-152. */
  method SearchBest(inp: Inputs, seeds: seq<ContextEntry>, testContext: Context, score: ContextData -> Double)
    returns (r: Result<Context>)
    requires |seeds| == 2 && WellFormed(seeds[0]) && WellFormed(seeds[1])
    requires testContext.Data() == ContextData(inp.owner, inp.info, seeds, 0)
    modifies testContext
    ensures r.Err? <==> SearchSpec(inp, seeds, score).Err?
    ensures r.Ok? ==> fresh(r.value) && r.value.Data() == SearchSpec(inp, seeds, score).value
  {
    var scores, clones, olds := Search(inp, seeds, testContext, score);
    var m := Done(MaxContextSize + 1, inp.idx);
    if exists j :: 0 <= j < m && OlderAt(inp, j).Err? {
      return Err("IndexOutOfBoundsException");
    }
    if |scores| == 0 {
      return Err("IllegalStateException: Error while evaluate dynamic-size context.");
    }
    assert olds == Olds(inp, m);
    assert scores == Scores(inp, seeds, olds, score);
    var w := MinByIndex(scores, |scores|);
    var best := clones[w];
    best.SetFinalDataIdx(inp.idx);
    r := Ok(best);
  }

  /** The score of lines 106-125 as a function of the trial context. */
  function TrialScore(current: Double, next: Double, similar: Lookup, cmp: Comparator): (f: ContextData -> Double)
    ensures forall t: ContextData :: |t.entries| >= 2 ==> f(t) == ScoreOf(t, current, next, similar, cmp)
  {
    (t: ContextData) => if |t.entries| >= 2 then ScoreOf(t, current, next, similar, cmp) else NaN
  }

  /** The entries prepended so far are the ones read at offsets 2, 3, ... */
  ghost predicate ReadOlds(inp: Inputs, olds: seq<ContextEntry>)
  {
    forall j :: 0 <= j < |olds| ==> OlderAt(inp, j) == Ok(olds[j])
  }

  /** Each tried offset left its score and a clone of its trial. */
  ghost predicate Recorded(inp: Inputs, seeds: seq<ContextEntry>, score: ContextData -> Double,
                           scores: seq<Double>, clones: seq<Context>, olds: seq<ContextEntry>)
    reads set k | 0 <= k < |clones| :: clones[k]
  {
    |scores| == |clones| == |olds| &&
    forall k :: 0 <= k < |clones| ==>
      clones[k].Data() == TrialsOf(inp, seeds, olds)[k] && scores[k] == score(TrialsOf(inp, seeds, olds)[k])
  }

  /**
   * The candidate loop: each tried offset pushes one entry onto the trial
   * and records its score and a clone. It stops early when an entry cannot
   * be read.
   */
  method Search(inp: Inputs, seeds: seq<ContextEntry>, testContext: Context, score: ContextData -> Double)
    returns (scores: seq<Double>, clones: seq<Context>, ghost olds: seq<ContextEntry>)
    requires |seeds| == 2 && WellFormed(seeds[0]) && WellFormed(seeds[1])
    requires testContext.Data() == ContextData(inp.owner, inp.info, seeds, 0)
    modifies testContext
    ensures |clones| == |scores| == |olds|
    ensures forall k :: 0 <= k < |clones| ==> fresh(clones[k])
    ensures forall j :: 0 <= j < |olds| ==> OlderAt(inp, j).Ok? && olds[j] == OlderAt(inp, j).value
    ensures (forall j :: 0 <= j < Done(MaxContextSize + 1, inp.idx) ==> OlderAt(inp, j).Ok?) ==>
      |scores| == Done(MaxContextSize + 1, inp.idx)
    ensures forall k :: 0 <= k < |scores| ==> scores[k] == score(TrialsOf(inp, seeds, olds)[k])
    ensures forall k :: 0 <= k < |clones| ==> clones[k].Data() == TrialsOf(inp, seeds, olds)[k]
  {
    scores, clones, olds := [], [], [];
    var i := 2;
    while i <= MaxContextSize
      invariant 2 <= i <= MaxContextSize + 1
      invariant |olds| == Done(i, inp.idx)
      invariant ReadOlds(inp, olds)
      invariant testContext.Data() == Trial(inp, seeds, olds)
      invariant forall k :: 0 <= k < |clones| ==> fresh(clones[k]) && clones[k] != testContext
      invariant Recorded(inp, seeds, score, scores, clones, olds)
    {
      DoneStep(i, inp.idx);
      if inp.idx - i < 0 {
        i := i + 1;
        continue;
      }
      var e := OlderAt(inp, |scores|);
      if e.Err? {
        return;
      }
      var copy, sc := TryEntry(inp, seeds, olds, e.value, testContext, score);
      RecordedSnoc(inp, seeds, score, scores, clones, olds, e.value, copy, sc);
      olds, scores, clones := olds + [e.value], scores + [sc], clones + [copy];
      i := i + 1;
    }
  }

  lemma RecordedSnoc(inp: Inputs, seeds: seq<ContextEntry>, score: ContextData -> Double,
                     scores: seq<Double>, clones: seq<Context>, olds: seq<ContextEntry>,
                     e: ContextEntry, copy: Context, sc: Double)
    requires Recorded(inp, seeds, score, scores, clones, olds)
    requires copy.Data() == Trial(inp, seeds, olds + [e]) && sc == score(Trial(inp, seeds, olds + [e]))
    ensures Recorded(inp, seeds, score, scores + [sc], clones + [copy], olds + [e])
  {
    TrialsSnoc(inp, seeds, olds, e);
  }

  lemma TrialsSnoc(inp: Inputs, seeds: seq<ContextEntry>, olds: seq<ContextEntry>, e: ContextEntry)
    ensures TrialsOf(inp, seeds, olds + [e]) == TrialsOf(inp, seeds, olds) + [Trial(inp, seeds, olds + [e])]
  {
    var l, r := TrialsOf(inp, seeds, olds + [e]), TrialsOf(inp, seeds, olds) + [Trial(inp, seeds, olds + [e])];
    forall k | 0 <= k < |olds|
      ensures l[k] == r[k]
    {
      assert (olds + [e])[..k + 1] == olds[..k + 1];
    }
    assert (olds + [e])[..|olds| + 1] == olds + [e];
  }

  /** One tried offset: push the entry onto the trial, then score it and keep a clone. */
  method TryEntry(inp: Inputs, seeds: seq<ContextEntry>, ghost olds: seq<ContextEntry>, e: ContextEntry,
                  testContext: Context, score: ContextData -> Double)
    returns (copy: Context, sc: Double)
    requires testContext.Data() == Trial(inp, seeds, olds)
    requires forall k :: 0 <= k < |seeds| ==> WellFormed(seeds[k])
    requires ReadOlds(inp, olds) && OlderAt(inp, |olds|) == Ok(e)
    modifies testContext
    ensures testContext.Data() == Trial(inp, seeds, olds + [e])
    ensures fresh(copy) && copy.Data() == Trial(inp, seeds, olds + [e])
    ensures sc == score(Trial(inp, seeds, olds + [e]))
  {
    PushFront(inp, seeds, olds, e, testContext);
    assert forall k :: 0 <= k < |olds + [e]| ==> WellFormed((olds + [e])[k]) by {
      forall k | 0 <= k < |olds + [e]|
        ensures WellFormed((olds + [e])[k])
      {
        assert OlderAt(inp, k) == Ok((olds + [e])[k]);
      }
    }
    TrialWellFormed(inp, seeds, olds + [e]);
    copy := testContext.Clone();
    assert copy.entries == testContext.entries;
    sc := score(testContext.Data());
  }

  /** forceAddFirst of one entry turns the trial of `olds` into the trial of `olds + [e]`. */
  method PushFront(inp: Inputs, seeds: seq<ContextEntry>, ghost olds: seq<ContextEntry>, e: ContextEntry, testContext: Context)
    requires testContext.Data() == Trial(inp, seeds, olds)
    modifies testContext
    ensures testContext.Data() == Trial(inp, seeds, olds + [e])
  {
    assert Reverse([e]) == [e];
    ReverseSnoc(olds, e);
    testContext.ForceAddFirst([e]);
  }

  /**
   * Without similar contexts the trial is its own only candidate; being
   * equal to itself it is not used, so impute falls back to the trial's
   * last step, which is the step between the two seeds.
   */
  lemma NoSimilarContextsUseSeedStep(inp: Inputs, seeds: seq<ContextEntry>, olds: seq<ContextEntry>,
                                     current: Double, next: Double, similar: Lookup, cmp: Comparator)
    requires |seeds| == 2
    requires similar(Trial(inp, seeds, olds)) == []
    ensures ScoreOf(Trial(inp, seeds, olds), current, next, similar, cmp) ==
      Abs(Sub(Add(current, Sub(seeds[1].value, seeds[0].value)), next))
  {
    var t := Trial(inp, seeds, olds);
    FallbackWithoutCandidates(t, [t], None, cmp);
    assert t.entries[|t.entries| - 1] == seeds[1] && t.entries[|t.entries| - 2] == seeds[0];
  }

  /**
   * When the probe fails the seeds move one step back, but the loop still
   * starts at offset 2: for an agent without a real sensor the first entry
   * pushed repeats the older seed.
   */
  lemma ShiftedProbeRepeatsSeed(inp: Inputs)
    requires !inp.realSensor
    requires ProbeOffsets(inp.data, inp.idx).offsetNext == 0
    requires SeedEntries(inp, ProbeOffsets(inp.data, inp.idx)).Ok?
    ensures OlderAt(inp, 0) == Ok(SeedEntries(inp, ProbeOffsets(inp.data, inp.idx)).value[0])
  {
  }

  /** A cursor below 2 leaves no candidate offset: past the early returns the finder fails. */
  lemma NoCandidateBelowTwo(inp: Inputs, similar: Lookup, cmp: Comparator)
    requires inp.idx < 2 && inp.idx + 1 < inp.samplesCount
    ensures FindSpec(inp, similar, cmp).Err? || |FindSpec(inp, similar, cmp).value.entries| == 0
  {
  }
}
