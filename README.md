# HybridIoT agents — a Dafny model

HybridIoT is a multi-agent system for sensor networks. Each sensor has an
**ambient context agent**. The agent records its readings as **contexts**:
short sequences of readings of one kind of information. It stores them in
buckets keyed by a **range descriptor** (min, max). When a reading is
missing, the agent estimates it in one of two ways. It can impute the next
step from its own stored contexts that resemble the latest one. Or it can
ask its neighbours and keep the estimate that lands in the most typical bin.
Afterwards it raises or lowers its **confidence** in each neighbour.

Two more kinds of agent work on top of these:
- A **confidence zone** is a polygon around each agent, grown towards the
  agents to include and shrunk away from the others. **Contact sensor
  agents** pair the ambient agents around them, correlate each pair's
  recent readings, reshape the zones, and classify each correlation against
  thresholds.
- A **cross-validation agent** trains on its data line, then replays the
  line, estimating its own test fold.

The model covers:
- the context data model: information kinds, entries, contexts and descriptors;
- the two context comparators and the imputation of a missing value;
- the fixed- and variable-width context finders;
- the ambient agent's store, its estimation fallback chain, its trust
  adjustment and one perception tick;
- the base agent's trust ledger and reasoning-cycle pass, and behaviours;
- the geometry of the Graham scan, the polygon, the confidence zone and the
  zone-based cooperation;
- the file and virtual sensors, and the cross-validation agent's fold
  arithmetic and mode machine;
- the contact sensor agent's pairing, window, scheduling and threshold
  classification rules;
- the offline correlation finder's distance, pairing, remap and clustering
  threshold.

## How it is modelled

- **Doubles** are `Numeric.Double`: a finite real, NaN, +∞ or −∞. Arithmetic
  follows IEEE-754 on these four cases. `Double.compare`, `<`, `<=`,
  `Math.min`/`max` and `Double.equals` each get their own definition, so NaN
  behaves as it does in Java.
- **Exceptions and null** are `Wrappers.Result` and `Wrappers.Option`.
- **Classes whose fields the source updates are Dafny classes.** Their
  methods carry `modifies` clauses and state the new state. The classes are
  `Context`, `Agent`, `AmbientContextAgent`, `Behavior`, `Polygon`,
  `ConfidenceZone`, the two sensors, `CrossValidationAgent`,
  `ContactSensorAgent`, `CouplingStrategy` and the threshold evaluations.
  Each loop is proved equal to a specification function, and the
  properties are proved as lemmas about those functions.
- **Inheritance** is composition. An `AmbientContextAgent` holds its base
  `Agent`, a `CrossValidationAgent` holds its `AmbientContextAgent`, and
  `PearsonThresholdEvaluation` holds its `ThresholdEvaluation`.
- **Agents are known by name.** `Agent.equals` also compares the runtime
  class of the two agents; the model does not (see "Left out").
- **Hash maps** are sequences or Dafny maps. Their iteration order is the
  order of the given sequence, where the source follows `HashMap` or
  `HashSet` order. The members whose results depend on that order are:
  - `ContextStores.EnclosingKey`: which key is found first when several key
    ranges enclose a context;
  - `ContextStores.ByDistance` and `ContextStores.MostSimilar`: the order of
    buckets at equal distance;
  - `ContextStores.ScoreReference` and `ContextStores.SimilarityScores`:
    which matching context counts as the first;
  - `AmbientAgents.AtIdxs`: the order of the contexts of `Flatten(store)`;
  - `ZoneCooperation.ZoneUpdates` and `ZoneCooperation.ActZone`: the order
    of the fields taken from `dataFieldsMap` and, through it, the order of
    fields that tie in the sort, hence the order of the zone updates;
  - `PairsActions.Act` and `ContactSensors.Recorded`: the order of the
    pairs taken from `correlations.keySet()`.
- **Library and environment calls are function parameters.** These are
  k-means, median, percentile, standard deviation, the empirical
  distribution's bins, the correlation measure, `atan2`, `cos`, `sin`,
  javafx angles and `normalize`, and distances that need a square root.
  Each is given as a function, and no property of it is assumed beyond what
  a lemma's `requires` states.

## Model

| member | source | states |
|---|---|---|
| ContextInfos.ToStringIsTheName | src/context/ContextInfo.java:7-19 | every value is declared with exactly one name and toString is that name; TEMP prints "temperature" and NULL the empty string |
| ContextInfos.FromString | src/context/ContextInfo.java:21-35 | fromString returns only a value one of whose names equals `s.trim()` ignoring case or contains `s`, no value declared before it matches, and it throws IllegalArgumentException exactly when no value matches |
| ContextInfos.FirstMatchIsReturned | src/context/ContextInfo.java:23-31 | the first matching value in declaration order is the one returned |
| ContextInfos.FromStringOfToString | src/context/ContextInfo.java:16-35 | the name of every value other than NULL reads back as that value |
| ContextInfos.FromEmptyString | src/context/ContextInfo.java:26 | the empty string is contained in every name, so it reads as HUMIDITY, the first value |
| ContextInfos.UpperCaseFragmentIsUnknown | src/context/ContextInfo.java:26-34 | the containment test is case-sensitive, so "TEMP" matches no value and is rejected |
| ContextInfos.UpperCaseNameIsKnown | src/context/ContextInfo.java:28 | the equality test ignores case, so "TEMPERATURE" reads as TEMP |
| ContextEntries.EmptyPerception | src/agent/base/Perception.java:12-14 | the empty perception holds a value that is not finite and is not an estimation |
| ContextEntries.FromValue | src/context/ContextEntry.java:34-41 | the entry keeps info, instant and value, is empty exactly when the value is not finite, and is not an estimation |
| ContextEntries.FromPerception | src/context/ContextEntry.java:43-49 | the entry keeps the perception's value and estimation flag and is empty exactly when that value is not finite |
| ContextEntries.CopyOf | src/context/ContextEntry.java:56-62 | the copy keeps every field and recomputes emptiness from the value, so a well-formed entry is copied unchanged |
| ContextEntries.Empty | src/context/ContextEntry.java:70-75 | `empty(info)` is a NaN entry of that info, empty and not an estimation |
| ContextEntries.SetIsEstimation | src/context/ContextEntry.java:131-133 | only the estimation flag changes |
| ContextEntries.EmptyEntriesAreEqual | src/context/ContextEntry.java:86-103 | two empty entries of one info are equal whatever their instants, since Double.equals holds between NaNs |
| ContextEntries.EqualsIgnoresTimeAndFlag | src/context/ContextEntry.java:86-103 | equality compares info and value only, not the instant or the estimation flag |
| ContextEntries.EqualsIsEquivalence | src/context/ContextEntry.java:86-103 | equality is reflexive, symmetric and transitive |
| ContextEntries.SetIsEstimationKeepsWellFormed | src/context/ContextEntry.java:131-133 | setting the flag leaves emptiness as it was, so an entry stays empty exactly when its value is not finite |
| Contexts.EstimatedEntriesCount | src/context/Context.java:164-166 | the count is at most the number of entries and is 0 exactly when no entry is an estimation |
| Contexts.MissingInfos | src/context/Context.java:110-118 | the reported infos are empty exactly when no appended entry is empty, and there are no more of them than entries |
| Contexts.Context.constructor | src/context/Context.java:43-48 | a new context has the given owner and info, no entries and finalDataIdx 0 |
| Contexts.Context.Copy | src/context/Context.java:50-58 | the copy constructor keeps owner, info, the entries in order and finalDataIdx |
| Contexts.Context.Clone | src/context/Context.java:77-84 | clone makes a fresh context of the same owner and info with a copy of each entry in order, and resets finalDataIdx to 0 |
| Contexts.Context.SetFinalDataIdx | src/context/Context.java:91-93 | only finalDataIdx changes |
| Contexts.Context.AddEntries | src/context/Context.java:106-120 | all entries are appended, empty ones included, and the infos of the empty ones are reported (the MissingInformationException) |
| Contexts.Context.AddEntry | src/context/Context.java:122-129 | the entry is appended even when empty, and its emptiness is reported |
| Contexts.Context.ForceAddEntries | src/context/Context.java:146-149 | the entries are appended and nothing else changes |
| Contexts.Context.ForceAddFirst | src/context/Context.java:151-158 | inserting each entry at the front leaves the given list reversed ahead of the old entries |
| Contexts.Context.TrendContext | src/context/Context.java:180-189 | the trend context has the same owner and info and holds the differences of consecutive values, each a fresh non-estimated entry |
| Contexts.Context.MovingAverage | src/context/Context.java:192-199 | the loop's result is the sum of the consecutive differences divided by the number of entries |
| Contexts.MovingAverageOfNothing | src/context/Context.java:192-199 | a context without entries has moving average 0/0, which is NaN |
| Contexts.MovingAverageTelescopes | src/context/Context.java:192-199 | for finite values the differences telescope: the moving average is (last - first) / size |
| Contexts.ValidIffNoEmptyEntry | src/context/Context.java:136-138 | isValid holds exactly when no entry is empty, so a context without entries is valid |
| Contexts.MissingInfosAreOfEmptyEntries | src/context/Context.java:110-118 | every reported info is the info of an empty appended entry |
| Contexts.CloneEqualsIffIndexZero | src/context/Context.java:227-245 | a clone equals its original exactly when the original's finalDataIdx was 0, since clone resets it and equals compares it |
| Contexts.SameIsEquivalence | src/context/Context.java:227-245 | equals is reflexive, symmetric and transitive, and ignores the owner |
| Descriptors.Describe | src/context/descriptor/NumericContextDescriptor.java:19-26 | a context without entries has no minimum (getAsDouble throws); otherwise the descriptor keeps the info, and min and max are values of the context bounding all of them |
| Descriptors.DescribedRangeIsOrdered | src/context/descriptor/NumericContextDescriptor.java:19-26 | a non-empty context without NaN has a range with min <= max |
| Descriptors.IncludedInReflexive | src/context/descriptor/NumericContextDescriptor.java:33-53 | includedIn holds of a descriptor and itself exactly when it has no NaN bound |
| Descriptors.IncludedInTransitive | src/context/descriptor/NumericContextDescriptor.java:33-53 | range inclusion is transitive |
| Descriptors.NaNDescriptorIsIsolated | src/context/descriptor/NumericContextDescriptor.java:43-50 | a descriptor with a NaN bound is included in nothing and includes nothing |
| Descriptors.DistanceSquared | src/context/descriptor/NumericContextDescriptor.java:56-88 | the distance is NaN when the other descriptor has an info this one lacks, finite for finite ranges of one info, and never negative |
| Descriptors.DistanceSymmetric | src/context/descriptor/NumericContextDescriptor.java:56-88 | the distance between two descriptors is the same both ways |
| Descriptors.DistanceToSelf | src/context/descriptor/NumericContextDescriptor.java:56-88 | a finite descriptor is at distance 0 from itself |
| Descriptors.EqualRangesGiveEqualKeys | src/context/descriptor/NumericContextDescriptor.java:19-26 | contexts of one info with the same minimum and maximum give equal descriptors |
| VarWidthComparators.CompareSequences | src/context/comparison/VarWidthComparator.java:77-85 | compareSequences throws IllegalArgumentException exactly when the lengths differ |
| VarWidthComparators.CompareSequencesGauss | src/context/comparison/VarWidthComparator.java:94-105 | the loop throws exactly when the lengths differ and otherwise returns half the absolute shoelace sum |
| VarWidthComparators.Compare | src/context/comparison/VarWidthComparator.java:17-66 | 0 when either context is empty; compareSequences for equal sizes; otherwise the running minimum, from Double.MAX_VALUE, of the scaled Gauss areas over every offset of the shorter context in the longer one (c1 is the shorter on a tie) |
| VarWidthComparators.MinWindowScore | src/context/comparison/VarWidthComparator.java:39-65 | the offset loop computes the running minimum over offsets 0 to max - min - 1 |
| VarWidthComparators.RunningMinIsLeast | src/context/comparison/VarWidthComparator.java:39-65 | the minimum is never NaN and lies at or below every non-NaN score of an offset tried |
| VarWidthComparators.RunningMinIsAttained | src/context/comparison/VarWidthComparator.java:39-65 | the minimum is Double.MAX_VALUE or the score of one of the offsets tried |
| VarWidthComparators.SizeDifferenceOne | src/context/comparison/VarWidthComparator.java:40 | with sizes one apart only offset 0 is tried |
| VarWidthComparators.CompareSequencesSymmetric | src/context/comparison/VarWidthComparator.java:77-85 | compareSequences gives the same result with the sequences exchanged |
| VarWidthComparators.CompareSequencesNonNegative | src/context/comparison/VarWidthComparator.java:83 | on finite sequences of equal non-zero length the mean absolute difference is finite and never negative |
| VarWidthComparators.CompareSequencesSelf | src/context/comparison/VarWidthComparator.java:83 | a finite sequence compared with itself gives 0 |
| VarWidthComparators.CrossSumAntisymmetric | src/context/comparison/VarWidthComparator.java:100-103 | exchanging the sequences negates the shoelace sum |
| VarWidthComparators.GaussAreaSymmetric | src/context/comparison/VarWidthComparator.java:94-105 | compareSequencesGauss is symmetric and never negative |
| VarWidthComparators.GaussAreaSelf | src/context/comparison/VarWidthComparator.java:94-105 | a finite sequence encloses no area with itself |
| ContextComparators.Compare | src/context/comparison/ContextComparatorImpl.java:11-26 | 0 when either context is empty; an index error when c1 is shorter than c2; otherwise the mean of the point differences over c2's positions, divided once more by c2's size |
| ContextComparators.IsMeanAbsDiffOverSize | src/context/comparison/ContextComparatorImpl.java:20-25 | on equal sizes the result is VarWidthComparator's compareSequences divided by the size again |
| ContextComparators.ComparisonNonNegative | src/context/comparison/ContextComparatorImpl.java:20-25 | on finite values the result is finite and never negative |
| ContextComparators.ComparisonWithItself | src/context/comparison/ContextComparatorImpl.java:20-25 | a finite context compared with itself gives 0 |
| Estimation.Eligible | src/context/estimation/ContextEstimationImpl.java:28-30 | only candidates of the reference's size that are not equal to it are kept, each one of the agent's own contexts |
| Estimation.FindWeight | src/context/estimation/ContextEstimationImpl.java:55-65 | a weight is found exactly when some supplied pair carries the context's final index, and it is the score of the first such pair |
| Estimation.Used | src/context/estimation/ContextEstimationImpl.java:42-75 | at most one (step, weight) pair per candidate, and exactly one per candidate when no weights are supplied |
| Estimation.Scores | src/context/estimation/ContextEstimationImpl.java:30 | each candidate's score is the comparison of the last observed context with it |
| Estimation.Impute | src/context/estimation/ContextEstimationImpl.java:19-90 | the method returns the weighted mean of the candidates' last steps, or the reference's last step when that mean is not finite; it fails exactly when the reference has fewer than two values |
| Estimation.WeighCandidates | src/context/estimation/ContextEstimationImpl.java:42-75 | the candidate loop builds exactly the (step, weight) list of the specification, skipping candidates without a supplied weight |
| Estimation.NothingEligible | src/context/estimation/ContextEstimationImpl.java:28-30 | candidates of another size or equal to the reference are all filtered out |
| Estimation.FallbackWithoutCandidates | src/context/estimation/ContextEstimationImpl.java:83-88 | with no usable candidate the quotient is 0/0 and impute returns the reference's last step |
| Estimation.InternalWeightsNonNegative | src/context/estimation/ContextEstimationImpl.java:33-67 | without supplied weights and with finite scores every weight is maxWeight minus the score, finite and never negative |
| Estimation.FarthestGetsZero | src/context/estimation/ContextEstimationImpl.java:33-67 | the least similar candidate gets weight 0 |
| Estimation.SuppliedWeightsAreUsedUnchanged | src/context/estimation/ContextEstimationImpl.java:54-65 | with supplied weights every weight used is the score of a supplied pair, and no candidate is used when none of their indices is supplied |
| Estimation.WorkedExample | src/context/estimation/ContextEstimationImpl.java:19-90 | steps +1 with weight 2 and -1 with weight 1 impute (2 - 1) / 3 = 1/3 |
| FixedWidthFinders.WindowSize | src/context/dynamicContext/FixedWidthContextFinder.java:15-26 | the loop collects min(CONTEXT_SIZE, currentIdx) samples, none when the cursor is not positive |
| FixedWidthFinders.WindowValues | src/context/dynamicContext/FixedWidthContextFinder.java:26-35 | the read fails exactly when a sample is needed and the cursor is past the data; otherwise the window holds the samples at offsets 0, 1, ... oldest first, the newest last |
| FixedWidthFinders.GetContext | src/context/dynamicContext/FixedWidthContextFinder.java:18-38 | the returned context belongs to the agent and its information, has final index 0 and holds exactly the window's values as fresh entries |
| FixedWidthFinders.WindowIsChronological | src/context/dynamicContext/FixedWidthContextFinder.java:26-35 | neighbouring entries of the window are neighbouring samples of the data, in order |
| FixedWidthFinders.FullWindowLater | src/context/dynamicContext/FixedWidthContextFinder.java:15-26 | from the CONTEXT_SIZE-th sample on the window is always full |
| VarWidthFinders.ProbeOffsets | src/context/dynamicContext/VarWidthContextFinder.java:43-60 | the offsets stay (-1, 0, 1) exactly when both probes can be read, and otherwise shift to (0, 1, 2) |
| VarWidthFinders.SeedEntries | src/context/dynamicContext/VarWidthContextFinder.java:62-69 | the two seed perceptions are read, oldest first, and the read fails exactly when either index is out of range |
| VarWidthFinders.OlderAt | src/context/dynamicContext/VarWidthContextFinder.java:96-99 | the entry for an offset is the agent's perception there, or the sensor's sample there for a real sensor |
| VarWidthFinders.Done | src/context/dynamicContext/VarWidthContextFinder.java:86-91 | counts the offsets the loop does not skip, at most one per offset |
| VarWidthFinders.DoneStep | src/context/dynamicContext/VarWidthContextFinder.java:89-91 | one more offset is tried exactly when it does not reach before the first sample |
| VarWidthFinders.Trial | src/context/dynamicContext/VarWidthContextFinder.java:101-104 | the trial context holds every pushed entry in front of the two seeds, for the agent and its information |
| VarWidthFinders.FindSpec | src/context/dynamicContext/VarWidthContextFinder.java:27-158 | the two-entry seed context at the end of the data; an empty context when a seed is empty; otherwise the trial of least score (first of them on ties) under the score of the current and next value, of 3 to MAX_CONTEXT_SIZE + 1 entries, with the cursor as final index |
| VarWidthFinders.SearchSpec | src/context/dynamicContext/VarWidthContextFinder.java:86-152 | succeeds exactly when some offset is tried and every pushed entry can be read; the result is the trial whose score is no greater than any other and strictly less than every earlier one, with 3 to MAX_CONTEXT_SIZE + 1 entries and the cursor as final index; with no offset tried the search fails (IllegalStateException) |
| VarWidthFinders.Scores | src/context/dynamicContext/VarWidthContextFinder.java:125-131 | the k-th score is the score of the k-th trial |
| VarWidthFinders.TrialsOf | src/context/dynamicContext/VarWidthContextFinder.java:104-131 | the k-th clone is the trial holding the first k + 1 pushed entries |
| VarWidthFinders.TrialWellFormed | src/context/dynamicContext/VarWidthContextFinder.java:96-104 | every entry of a trial keeps its empty flag tied to its value |
| VarWidthFinders.GetContext | src/context/dynamicContext/VarWidthContextFinder.java:27-158 | the method fails exactly when the specification does and otherwise returns a fresh context holding the specified value |
| VarWidthFinders.SearchBest | src/context/dynamicContext/VarWidthContextFinder.java:86-152 | the candidate loop and the argmin return exactly the specified best trial |
| VarWidthFinders.TrialScore | src/context/dynamicContext/VarWidthContextFinder.java:106-125 | the score of a trial is the distance between current + imputed step and the next sample |
| VarWidthFinders.Search | src/context/dynamicContext/VarWidthContextFinder.java:86-138 | the loop keeps one fresh clone and one score per offset tried, the k-th clone being the k-th trial and the k-th score its score |
| VarWidthFinders.PushFront | src/context/dynamicContext/VarWidthContextFinder.java:101-104 | forceAddFirst of one entry turns the trial of the entries so far into the trial with that entry added |
| VarWidthFinders.NoSimilarContextsUseSeedStep | src/context/dynamicContext/VarWidthContextFinder.java:114-125 | without similar contexts the trial is imputed from itself, so its score is the distance between current + the seeds' step and the next sample |
| VarWidthFinders.ShiftedProbeRepeatsSeed | src/context/dynamicContext/VarWidthContextFinder.java:55-96 | when the probe fails the first offset tried pushes the older seed perception again |
| VarWidthFinders.NoCandidateBelowTwo | src/context/dynamicContext/VarWidthContextFinder.java:86-152 | with a cursor below 2 and samples left, no offset is tried, so the finder fails or returns an empty context |
| DataSensors.ReadAt | src/sensors/FileDataSensor.java:228-231 | getCurrentData(offset) succeeds exactly when the position offset places before the cursor lies inside the data, and returns that sample |
| DataSensors.ReadAtShifts | src/sensors/FileDataSensor.java:228-231 | reading at offset k + 1 is reading at offset k with the cursor one step back |
| FileSensors.Parsed | src/sensors/FileDataSensor.java:147-159 | one parsed sample per column from DATA_START_COLUMN on, in order; a NumberFormatException exactly when some such column does not parse |
| FileSensors.LineData | src/sensors/FileDataSensor.java:139-161 | a line is skipped exactly when its first column is another agent or its information differs; it is taken exactly when both match and every sample column parses, and then yields its parsed samples |
| FileSensors.SelectFrom | src/sensors/FileDataSensor.java:136-167 | the samples come from the first line taken, every line before it being skipped; if every line is skipped the read fails |
| FileSensors.SelectData | src/sensors/FileDataSensor.java:118-167 | getNew fails when a line has no column, when no line names the agent, and when the first line of the agent and information has a sample that does not parse |
| FileSensors.UnparsableSampleFails | src/sensors/FileDataSensor.java:139-163 | when the first line of the agent and information has a sample column that does not parse, getNew fails |
| FileSensors.SelectedLineMatches | src/sensors/FileDataSensor.java:136-163 | the samples read come from a line of the agent and of the requested information |
| FileSensors.FindData | src/sensors/FileDataSensor.java:136-163 | the line loop stops at the first line taken and returns what the specification selects |
| FileSensors.Observed | src/sensors/FileDataSensor.java:249-252 | getObservedData holds the first dataIdx samples, zero past the end of the data |
| FileSensors.Received | src/sensors/FileDataSensor.java:182-212 | EOF at or past the end; with a mask the sensor is off exactly on masked samples; the entry is empty exactly when the sensor is off or the sample is not finite, and otherwise carries the sample |
| FileSensors.FileDataSensor.constructor | src/sensors/FileDataSensor.java:87-97 | a new sensor is active, at its first sample, without a test-set mask |
| FileSensors.FileDataSensor.SamplesCount | src/sensors/FileDataSensor.java:172-175 | the sample count is the number of samples read |
| FileSensors.FileDataSensor.ReceiveData | src/sensors/FileDataSensor.java:182-212 | the entry and the sensor's new on/off state are those of the specification; on a sample the mask covers, every sensor of the box takes that same on/off state, and nothing else of the box changes; samples, cursor and mask are unchanged |
| FileSensors.FileDataSensor.NextSample | src/sensors/FileDataSensor.java:218-221 | the cursor moves on by one and nothing else changes |
| FileSensors.FileDataSensor.ResetDataIdx | src/sensors/FileDataSensor.java:236-239 | the cursor returns to 0 and nothing else changes |
| FileSensors.FileDataSensor.GetCurrentData | src/sensors/FileDataSensor.java:228-231 | reads the sample offset places before the cursor, failing outside the data |
| FileSensors.FileDataSensor.GetObservedData | src/sensors/FileDataSensor.java:249-252 | returns the samples before the cursor |
| FileSensors.FileDataSensor.TurnOn | src/sensors/FileDataSensor.java:259-262 | the sensor becomes active and nothing else changes |
| FileSensors.FileDataSensor.TurnOff | src/sensors/FileDataSensor.java:264-267 | the sensor becomes inactive and nothing else changes |
| FileSensors.FileDataSensor.SetTestSet | src/sensors/FileDataSensor.java:273-275 | the mask is replaced and nothing else changes |
| FileSensors.SwitchAll | src/sensors/FileDataSensor.java:193-202 | every sensor of the box is turned on or off, and its samples, cursor and mask are unchanged |
| FileSensors.GetNew | src/sensors/FileDataSensor.java:107-170 | getNew fails exactly when the selection does (no column, no line of the agent, or a sample that does not parse: NumberFormatException), and otherwise returns a fresh active sensor of the agent and information at its first sample over the selected samples |
| FileSensors.ReadSensorData | src/sensors/FileDataSensor.java:107-163 | the identifier checks and the line scan of getNew return exactly the specified selection, error cases included |
| FileSensors.EndOfFileIsPermanent | src/sensors/FileDataSensor.java:185-187 | past the last sample every read fails with EOF, also after moving on |
| FileSensors.ObservedGrows | src/sensors/FileDataSensor.java:219-252 | moving the cursor on inside the data adds the current sample to the observed data |
| VirtualSensors.WithEstimation | src/sensors/VirtualDataSensor.java:59-61 | setEstimation fails exactly outside the list and otherwise changes only the given position, to the estimate |
| VirtualSensors.VirtualDataSensor.constructor | src/sensors/VirtualDataSensor.java:21-24 | a new virtual sensor is at sample 0 with no data |
| VirtualSensors.VirtualDataSensor.Id | src/sensors/VirtualDataSensor.java:19-46 | the identifier is never assigned, so it stays null |
| VirtualSensors.VirtualDataSensor.SupportedInfo | src/sensors/VirtualDataSensor.java:14-83 | the information is never assigned, so it stays null |
| VirtualSensors.VirtualDataSensor.ReceiveData | src/sensors/VirtualDataSensor.java:26-30 | receiveData appends +infinity and returns an empty entry without touching the cursor |
| VirtualSensors.VirtualDataSensor.SamplesCount | src/sensors/VirtualDataSensor.java:32-35 | the sample count is Integer.MAX_VALUE |
| VirtualSensors.VirtualDataSensor.IsActive | src/sensors/VirtualDataSensor.java:85-88 | a virtual sensor is always active |
| VirtualSensors.VirtualDataSensor.NextSample | src/sensors/VirtualDataSensor.java:75-78 | the cursor moves on by one and the data is unchanged |
| VirtualSensors.VirtualDataSensor.ResetDataIdx | src/sensors/VirtualDataSensor.java:69-73 | the cursor returns to 0 and the data is unchanged |
| VirtualSensors.VirtualDataSensor.GetLastData | src/sensors/VirtualDataSensor.java:48-51 | getCurrentData() returns the last sample whatever the cursor, failing on an empty list |
| VirtualSensors.VirtualDataSensor.GetCurrentData | src/sensors/VirtualDataSensor.java:53-56 | reads the sample offset places before the cursor, failing outside the list |
| VirtualSensors.VirtualDataSensor.SetEstimation | src/sensors/VirtualDataSensor.java:59-61 | the list becomes the specified update, or stays unchanged when the index is out of range; the cursor is unchanged |
| VirtualSensors.VirtualDataSensor.GetObservedData | src/sensors/VirtualDataSensor.java:63-67 | returns the whole list, independent of the cursor |
| VirtualSensors.EstimationReadsBack | src/sensors/VirtualDataSensor.java:53-61 | an estimate written at a position is read back at that position |
| VirtualSensors.EstimationIsLocal | src/sensors/VirtualDataSensor.java:53-61 | an estimate at one position leaves every other reading unchanged |
| Agents.ConfidenceAfter | src/agent/base/Agent.java:222-228 | a positive delta caps the confidence at 1 and never lowers it; a non-positive delta never lowers it and keeps it at or above 0 |
| Agents.NegativeDeltaRaisesConfidence | src/agent/base/Agent.java:223-226 | a negative delta takes the else-branch, which subtracts it and so raises the confidence by its size |
| Agents.NegativeDeltaExample | src/agent/base/Agent.java:223-226 | 0.5 with delta -0.1 becomes 0.6, and 1 becomes 1.1, above MAX_CONFIDENCE |
| Agents.PositiveDeltaStaysInRange | src/agent/base/Agent.java:223-224 | a positive delta keeps a confidence of [0, 1] inside [0, 1], as min(c + delta, 1) |
| Agents.Tick | src/agent/base/Agent.java:240-296 | a pass never ends in PERCEIVE_OK; an IDLE agent does nothing; once it acts the pass ends in ABORT exactly when decideAndAct aborted; an aborted perception ends the pass in ABORT without acting |
| Agents.AbortIsRetried | src/agent/base/Agent.java:260-296 | an aborted pass is retried: from ABORT a pass without aborts perceives and acts, ending IDLE when paused and READY otherwise |
| Agents.TickAbortsIffAStageAborts | src/agent/base/Agent.java:260-296 | from READY or ABORT a pass always perceives, acts exactly when perception did not abort, and ends in ABORT exactly when a stage aborted |
| Agents.PausedAgentGoesIdle | src/agent/base/Agent.java:253-292 | a paused agent whose pass succeeds goes IDLE and then does nothing on later passes |
| Agents.Agent.constructor | src/agent/base/Agent.java:111-136 | a new agent has every other agent of the environment as neighbour with confidence 1, no perceptions, is not active, not paused, and IDLE |
| Agents.Agent.AddNeighbor | src/agent/base/Agent.java:155-162 | an agent is added, with confidence 1, exactly when it is not this agent and not yet a neighbour |
| Agents.Agent.GetConfidence | src/agent/base/Agent.java:184-192 | the stored confidence of a neighbour, 0 for any other agent |
| Agents.Agent.DissociateFrom | src/agent/base/Agent.java:171-176 | NaN and no change for an unknown agent; otherwise its confidence is returned and it alone is removed |
| Agents.Agent.ModifyConfidence | src/agent/base/Agent.java:214-231 | an unknown agent is inserted at 1 and 1 returned; a known one gets ConfidenceAfter and its previous value is returned; no other neighbour changes |
| Agents.Agent.SetPerception | src/agent/base/Agent.java:432-441 | an index past the end appends, an index inside overwrites that position only, a negative index fails and changes nothing |
| Agents.Agent.ResumeAgent | src/agent/base/Agent.java:345-348 | the agent becomes READY and not paused |
| Agents.Agent.PauseAgent | src/agent/base/Agent.java:354-356 | the agent becomes paused and nothing else changes |
| Agents.Agent.StopAgent | src/agent/base/Agent.java:319-321 | the agent stops being active and nothing else changes |
| Agents.Agent.AbortReasoning | src/agent/base/Agent.java:314-317 | the progress becomes ABORT and nothing else changes |
| Agents.Agent.ReasoningTick | src/agent/base/Agent.java:240-296 | the progress moves as Tick specifies, and perceive and decideAndAct run exactly when it says |
| ContextStores.Keys | src/agent/AmbientContextAgent.java:1063-1067 | one key per bucket of the context map, in order |
| ContextStores.FlattenSnoc | src/agent/AmbientContextAgent.java:957-959 | the flatMap over the map adds a new bucket's contexts at the end |
| ContextStores.FlattenOfPrefix | src/agent/AmbientContextAgent.java:957-959 | the contexts of the first buckets come first in the flatMap |
| ContextStores.InFlattenIffStored | src/agent/AmbientContextAgent.java:957-959 | a context is in the flatMap exactly when some bucket holds it |
| ContextStores.FlattenUpdate | src/agent/AmbientContextAgent.java:927-941 | rewriting one bucket changes the stored contexts by that bucket's old and new contents only |
| ContextStores.StoredUnderPermutation | src/agent/AmbientContextAgent.java:345-347 | reordering the buckets, as the sort by distance does, keeps the same stored contexts |
| ContextStores.AcceptedIn | src/agent/AmbientContextAgent.java:368-376 | the accepted contexts are exactly those of the reference's size, not equal to it and, with PROMOTE_CONTEXT_WITHOUT_ESTIMATION, without estimated entries |
| ContextStores.AcceptedPrefix | src/agent/AmbientContextAgent.java:360-378 | scanning further only appends to what was accepted so far |
| ContextStores.ByDistance | src/agent/AmbientContextAgent.java:345-347 | the sorted buckets are a permutation of the map's buckets |
| ContextStores.CloserIsTotalPreorder | src/agent/AmbientContextAgent.java:346 | the comparator Double.compare of the distances is total and transitive |
| ContextStores.ByDistanceIsAscending | src/agent/AmbientContextAgent.java:345-347 | buckets are visited in ascending descriptor distance to the reference |
| ContextStores.Take | src/agent/AmbientContextAgent.java:363-365 | the first num elements, none when num is not positive |
| ContextStores.MostSimilar | src/agent/AmbientContextAgent.java:341-380 | fails exactly on an empty reference (no descriptor); returns at most num contexts, each stored and accepted; when fewer than num come back, every accepted stored context is among them |
| ContextStores.EnclosingKey | src/agent/AmbientContextAgent.java:917-918 | the first key whose range encloses the descriptor, or none when no key does |
| ContextStores.KeyIndex | src/agent/AmbientContextAgent.java:926-929 | the map lookup by key equality: the index of an equal key, or none |
| ContextStores.FewerEstimatedIsTotalPreorder | src/agent/AmbientContextAgent.java:931-932 | the bucket order by number of estimated entries is total and transitive |
| ContextStores.AddSorted | src/agent/AmbientContextAgent.java:937-940 | adding then sorting keeps the bucket's contexts plus the new one, ordered by number of estimated entries |
| ContextStores.AddNewContext | src/agent/AmbientContextAgent.java:911-945 | an empty context is ignored; otherwise the stored contexts grow by exactly the new one, every key is kept and at most one is added |
| ContextStores.Home | src/agent/AmbientContextAgent.java:917-941 | the bucket a new context joins is the first enclosing key, else an equal key; none exactly when there is neither |
| ContextStores.AddNewContextPlacesIt | src/agent/AmbientContextAgent.java:911-945 | the new context lands in a sorted bucket whose key encloses or equals its range, and the keys stay distinct |
| ContextStores.AddNewContextToEnclosingBucket | src/agent/AmbientContextAgent.java:936-941 | with an enclosing key the context goes to the first such bucket and no other bucket changes |
| ContextStores.AddAsWrittenAgreesWithoutNaN | src/agent/AmbientContextAgent.java:911-945 | without a NaN bound in its range, the insertion as written and the intended one agree |
| ContextStores.AddAsWrittenGrows | src/agent/AmbientContextAgent.java:911-945 | as written, the insertion keeps every key and adds at most one context; when the context's range is free of NaN, the stored contexts grow by exactly that context, or not at all for an empty one |
| ContextStores.AddAsWrittenReplacesBucket | src/agent/AmbientContextAgent.java:924-929 | as written, a context with a NaN bound whose key is already in the map replaces that bucket by a bucket holding it alone |
| ContextStores.AddAsWrittenDropsBucket | src/agent/AmbientContextAgent.java:924-929 | so every context already in that bucket is lost from the store |
| ContextStores.FlattenHasBucket | src/agent/AmbientContextAgent.java:957-959 | every bucket's contexts are among the stored contexts |
| ContextStores.NaNContext | src/agent/AmbientContextAgent.java:911-945 | a one-entry context of a NaN reading has a descriptor with a NaN bound |
| ContextStores.FirstContextMakesABucket | src/agent/AmbientContextAgent.java:924-933 | storing one context in an empty map makes a bucket holding it alone |
| ContextStores.NaNContextReplacesBucket | src/agent/AmbientContextAgent.java:911-945 | as written, storing two NaN contexts one after the other keeps only the second |
| ContextStores.NaNContextsAreBothKept | src/agent/AmbientContextAgent.java:911-945 | with the intended insertion both NaN contexts stay in the store |
| ContextStores.Matching | src/agent/AmbientContextAgent.java:957-959 | the matches are exactly the stored contexts at one of the indexes and of the source's size |
| ContextStores.ScoreReference | src/agent/AmbientContextAgent.java:967-973 | the reference is the first match at the source's final index when there is one, else the last match |
| ContextStores.SimilarityScores | src/agent/AmbientContextAgent.java:952-977 | one (final index, score) pair per match, each index from the list; no pair exactly when no stored context matches |
| ContextStores.EveryMatchGetsAWeight | src/agent/AmbientContextAgent.java:952-977 | every matching stored context gets a weight impute can find by its final index |
| ContextStores.NoWeightOutsideIndexes | src/agent/AmbientContextAgent.java:957-959 | an index outside the list gets no weight |
| AmbientAgents.Partners | src/agent/AmbientContextAgent.java:568-577 | the partners are exactly the agents of the environment with a real sensor, active, not paused and not this agent |
| AmbientAgents.UsedNeighborsAsWritten | src/agent/AmbientContextAgent.java:449-454 | as written the sort compares a distance with itself, so the first five partners in environment order are used |
| AmbientAgents.NearerIsTotalPreorder | src/agent/AmbientContextAgent.java:451-452 | the intended order by distance from this agent is total and transitive |
| AmbientAgents.UsedNeighborsAreNearest | src/agent/AmbientContextAgent.java:449-454 | with the intended sort, min(5, partners) partners are used and none of the partners left out is nearer than one used |
| AmbientAgents.AllPartners | src/agent/AmbientContextAgent.java:568-577 | an environment of partners only is kept whole |
| AmbientAgents.AsWrittenUsesAFartherNeighbor | src/agent/AmbientContextAgent.java:451-454 | as written, with six partners the first is used and the sixth is not, even when the sixth is nearer |
| AmbientAgents.LastContexts | src/agent/AmbientContextAgent.java:456-457 | exactly the last contexts of the neighbours that have one |
| AmbientAgents.Mean | src/agent/AmbientContextAgent.java:464 | Mean().evaluate is NaN exactly when there are no values or one of them is infinite or NaN, and finite otherwise |
| AmbientAgents.SumDBetween | src/agent/AmbientContextAgent.java:464 | a double sum of n finite values in [lo, hi] is finite and lies in [n lo, n hi] |
| AmbientAgents.MeanBetween | src/agent/AmbientContextAgent.java:464 | the mean of finite values in [lo, hi] is finite and in [lo, hi] |
| AmbientAgents.NeighborsEstimate | src/agent/AmbientContextAgent.java:447-465 | fails exactly when a neighbour's last context has fewer than two readings (index out of bounds); without any last context the estimate is an empty NaN entry; it is never flagged as an estimation |
| AmbientAgents.NeighborsEstimateBetween | src/agent/AmbientContextAgent.java:456-464 | when every neighbour's midpoint lies in [lo, hi], so does the estimate, which is then not empty |
| AmbientAgents.NearestBin | src/agent/AmbientContextAgent.java:756-759 | Stream.min over the bins with a finite mean: none exactly when there is no such bin; else the first bin of smallest gap to this agent's own estimate |
| AmbientAgents.PickBin | src/agent/AmbientContextAgent.java:743-778 | getBestEstimation fails exactly when no bin has a finite mean, and otherwise picks the first bin of finite mean nearest this agent's own estimate |
| AmbientAgents.UpdatedConfidences | src/agent/AmbientContextAgent.java:780-788 | modifyConfidence for each estimating agent: unknown agents enter at 1, agents without an estimation keep their confidence |
| AmbientAgents.BinDecidesTrust | src/agent/AmbientContextAgent.java:780-788 | inside the bin a known agent's confidence in [0, 1] does not fall and stays at most 1; outside it the negative delta raises the confidence by CONFIDENCE_DELTA |
| AmbientAgents.NaNEstimationIsOutOfBin | src/agent/AmbientContextAgent.java:782-786 | a NaN estimation fails both comparisons, so it gets the negative delta |
| AmbientAgents.FinalIdxs | src/agent/AmbientContextAgent.java:533-534 | the final indexes of this agent's most similar contexts, in order |
| AmbientAgents.AtIdxs | src/agent/AmbientContextAgent.java:597-598 | exactly the stored contexts whose final index is in the list |
| AmbientAgents.PartnerEstimationsByName | src/agent/AmbientContextAgent.java:589-621 | the estimations are keyed by exactly the partners' names, and each is the last perceived value plus impute weighted by the similarity scores of the last partner of that name (a later put overwrites an earlier one) |
| AmbientAgents.OwnStep | src/agent/AmbientContextAgent.java:529-539 | impute over the agent's own most similar contexts fails exactly when the last context has fewer than two readings |
| AmbientAgents.AllEstimations | src/agent/AmbientContextAgent.java:716-722 | the binned estimations hold every partner and this agent, the latter under its own estimate |
| AmbientAgents.ContextualEstimate | src/agent/AmbientContextAgent.java:526-560 | fails on a last context of fewer than two readings; is flagged as an estimation with state ESTIMATE_WITH_CONTEXTS; without cooperation it carries no trust update; with cooperation it carries one that includes this agent and is not empty |
| AmbientAgents.CooperativeEstimateIsNearestBin | src/agent/AmbientContextAgent.java:712-778 | with cooperation the estimate is the mean of a bin with finite mean nearest this agent's own estimate, and trust is updated with that bin's bounds |
| AmbientAgents.Trusted | src/agent/AmbientContextAgent.java:775-788 | the neighbour map is unchanged without a trust update, else updated as modifyNeighborsConfidence does |
| AmbientAgents.CooperationTrustsItself | src/agent/AmbientContextAgent.java:720-788 | the cooperative update reaches this agent itself, which enters its own neighbour map at confidence 1 |
| AmbientAgents.EstimateMissing | src/agent/AmbientContextAgent.java:392-439 | a zone estimate that is an IllegalStateException (no cooperative behaviour) fails the estimation; a finite zone estimate comes first, as an estimation entry flagged ESTIMATE_WITH_CONFIDENCEZONE; every estimate is of the requested information; trust changes only with a last context and cooperation |
| AmbientAgents.EstimateMissingFallbacks | src/agent/AmbientContextAgent.java:406-438 | without a finite zone estimate: no last context uses the neighbours' midpoints, taken from the neighbours the code as written selects; with one and no strategy the call fails (IllegalStateException); otherwise the contextual estimate is used |
| AmbientAgents.EstimateByConfidenceZone | src/agent/AmbientContextAgent.java:478-501 | IllegalStateException without a cooperative behaviour; otherwise the value of the behaviour's act, with the zone moved as act moves it |
| AmbientAgents.Perceived | src/agent/AmbientContextAgent.java:794-810 | setPerception for each buffered entry fails exactly on a negative index with a non-empty buffer, and only overwrites one position or appends |
| AmbientAgents.PerceivedOverwrites | src/agent/AmbientContextAgent.java:796-797 | with an index inside the list every buffered entry lands at that index and the last one stays |
| AmbientAgents.PerceivedAppends | src/agent/AmbientContextAgent.java:796-797 | one buffered reading at the next index is appended |
| AmbientAgents.NonEmpty | src/agent/AmbientContextAgent.java:837 | removeIf(isEmpty) keeps exactly the non-empty entries |
| AmbientAgents.BelowMinimumOnlyRecords | src/agent/AmbientContextAgent.java:819-908 | below MIN_NUMBER_SAMPLE_OBSERVED a tick records the buffer as perceptions and changes nothing else |
| AmbientAgents.FirstContextAtMinimum | src/agent/AmbientContextAgent.java:879-901 | at the minimum the buffer is recorded and the tick fails exactly when the finder does; otherwise the context is kept as last context exactly when it is not empty, added to the store when its range is also free of NaN, and an empty one changes neither |
| AmbientAgents.EmptyEstimateStoresNothing | src/agent/AmbientContextAgent.java:826-834 | above the minimum an empty estimate ends the tick: nothing is recorded or stored |
| AmbientAgents.EstimateFillsTheGap | src/agent/AmbientContextAgent.java:826-863 | a usable estimate replaces every empty buffered entry, its state and trust update apply, and the tick goes on as for a full buffer |
| AmbientAgents.TickOnlyGrowsTheStore | src/agent/AmbientContextAgent.java:816-870 | a successful tick keeps every key, adds at most one context, never makes an empty context the last one, and loses no stored context when the finder returned a context whose range is free of NaN |
| AmbientAgents.AmbientContextAgent.constructor | src/agent/AmbientContextAgent.java:176-192 | a new agent uses its real sensor, with no contexts, no last context and an empty buffer |
| AmbientAgents.AmbientContextAgent.Perceive | src/agent/AmbientContextAgent.java:262-288 | without a sensor nothing happens; a reading becomes the only buffered entry; a failed read empties the buffer and aborts the reasoning cycle |
| AmbientAgents.AmbientContextAgent.GetMostSimilarContexts | src/agent/AmbientContextAgent.java:341-380 | the bucket scan with its early return returns exactly the specified most similar contexts |
| AmbientAgents.ScanMostSimilar | src/agent/AmbientContextAgent.java:343-379 | scanning the buckets in ascending distance, with the early return, yields exactly the first `num` accepted contexts of the sorted store, or the descriptor error for an empty reference |
| AmbientAgents.ScanBucket | src/agent/AmbientContextAgent.java:358-377 | within one bucket the scan accepts the same-size, different, not over-estimated contexts in stored order, and stops only once `num` are accepted |
| AmbientAgents.AmbientContextAgent.AddNewContextToMap | src/agent/AmbientContextAgent.java:911-945 | the store becomes the insertion as written; every key is kept, and for a context whose range is free of NaN the stored contexts grow by exactly that context |
| AmbientAgents.AmbientContextAgent.ModifyNeighborsConfidence | src/agent/AmbientContextAgent.java:780-788 | the loop over the estimations leaves the neighbour map as specified |
| AmbientAgents.AmbientContextAgent.PerceivedValue | src/agent/AmbientContextAgent.java:794-810 | the perceptions become the specified ones and the buffer is cleared, or nothing changes when the index is negative |
| AmbientAgents.AmbientContextAgent.ConcludeTick | src/agent/AmbientContextAgent.java:850-863 | records the buffer, asks the finder for the context over the store and the perceptions, and inserts it as written; when the finder fails, the tick fails with the buffer already recorded |
| AmbientAgents.AmbientContextAgent.ProcessWithUnsufficientSamplesCount | src/agent/AmbientContextAgent.java:876-909 | below the minimum only the perceptions and the buffer change; at the minimum the tick concludes as specified, inserting the context as the code writes it, and a failing finder fails it after the buffer is recorded |
| AmbientAgents.AmbientContextAgent.ProcessPerception | src/agent/AmbientContextAgent.java:816-870 | the agent's state after a successful tick is exactly the specified view; a failing finder fails the tick and leaves the recorded perceptions and the estimate's changes in place; a failing estimate changes nothing, except that the neighbours' fallback has already set ESTIMATE_WITH_CONTEXTS; an agent with a virtual sensor also writes the estimate at the current sample into it, and a write outside its list fails the tick after the estimate has been buffered |
| AmbientAgents.UpdatedConfidencesStep | src/agent/AmbientContextAgent.java:781-787 | applying one more estimation is one more modifyConfidence |
| AmbientAgents.ScanStopsEarly | src/agent/AmbientContextAgent.java:363-365 | once num contexts are accepted, the scan holds the first num of the full scan |
| AmbientAgents.ScannedPrefix | src/agent/AmbientContextAgent.java:350-378 | what the scan accepted so far is a prefix of the full scan |
| AmbientAgents.AcceptedSnoc | src/agent/AmbientContextAgent.java:368-376 | scanning one more context adds it exactly when it is accepted |
| Behaviors.Execute | src/agent/behaviors/Behavior.java:41-60 | the state ends RUNNING; parent, listener and agent are kept; events are only appended; a RUNNING behaviour does nothing; without a listener exactly onStart, action, onEnd run |
| Behaviors.ExecuteRunsOnce | src/agent/behaviors/Behavior.java:43-58 | the state never returns to READY, so a second execution does nothing whatever done() answers |
| Behaviors.ExecuteOrder | src/agent/behaviors/Behavior.java:47-54 | the listener first hears of READY to RUNNING, then onStart, action and onEnd run in that order |
| Behaviors.SetParent | src/agent/behaviors/Behavior.java:33-39 | the parent is recorded; a null parent keeps agent and listener; a present parent's agent becomes both agent and listener |
| Behaviors.ParentHearsOfRunning | src/agent/behaviors/Behavior.java:33-49 | a behaviour given a parent notifies the parent's agent when it starts running |
| Behaviors.Behavior.constructor | src/agent/behaviors/Behavior.java:26-31 | a new behaviour is READY, with no parent, no listener and no events, owned by its agent |
| Behaviors.Behavior.SetParentOf | src/agent/behaviors/Behavior.java:33-39 | the fields become those SetParent specifies |
| Behaviors.Behavior.ExecuteBehavior | src/agent/behaviors/Behavior.java:41-60 | the fields and events become those Execute specifies |
| Geometry.SqDistNonNegative | src/confidenceZone/geometry/Polygon.java:118 | a squared distance is never negative |
| Geometry.SqDistPositive | src/confidenceZone/geometry/Polygon.java:118 | distinct points are a positive distance apart and a point is at distance 0 from itself |
| Geometry.SqDistUnderShift | src/confidenceZone/geometry/Polygon.java:160-165 | shifting both points by the same amount keeps their distance |
| Geometry.Signum | src/confidenceZone/geometry/Polygon.java:114-115 | Math.signum is -1, 0 or 1, with the sign of its argument |
| Geometry.TruncInteger | src/confidenceZone/geometry/GrahamScan.java:232-233 | the cast to long leaves an integer coordinate unchanged |
| GrahamScans.GetTurn | src/confidenceZone/geometry/GrahamScan.java:229-242 | COUNTER_CLOCKWISE, CLOCKWISE or COLLINEAR exactly as the cross product, taken after the casts to long, is positive, negative or zero |
| GrahamScans.IntegerTurnIsExact | src/confidenceZone/geometry/GrahamScan.java:232-233 | on integer points the casts change nothing and the turn is the exact one |
| GrahamScans.TurnReverses | src/confidenceZone/geometry/GrahamScan.java:229-242 | on integer points exchanging the last two points gives the opposite turn |
| GrahamScans.AreAllCollinear | src/confidenceZone/geometry/GrahamScan.java:30-49 | true for fewer than two points, else exactly when every point from index 2 on is collinear with the first two |
| GrahamScans.CollinearFromEitherEnd | src/confidenceZone/geometry/GrahamScan.java:30-49 | on integer points the answer does not depend on the order of the first two points |
| GrahamScans.Lowest | src/confidenceZone/geometry/GrahamScan.java:143-157 | the kept point is one of the points and no point is lower, or level with it and further left |
| GrahamScans.LowestIsUnique | src/confidenceZone/geometry/GrahamScan.java:151 | a point with no point below it is the lowest point: the order is strict and total |
| GrahamScans.GetLowestPoint | src/confidenceZone/geometry/GrahamScan.java:143-157 | the loop returns the specified lowest point |
| GrahamScans.Distinct | src/confidenceZone/geometry/GrahamScan.java:177-207 | the TreeSet holds every point once and nothing else |
| GrahamScans.ByAngleIsTotalPreorder | src/confidenceZone/geometry/GrahamScan.java:173-205 | the comparator, by angle and then by distance, is total and transitive |
| GrahamScans.SortedPointSet | src/confidenceZone/geometry/GrahamScan.java:169-210 | exactly the distinct points, in increasing angle around the lowest point, nearer first on a tie |
| GrahamScans.ThetaFromLowest | src/confidenceZone/geometry/GrahamScan.java:182-196 | seen from an integer lowest point, an integer point level with it or above has a non-negative angle, and the lowest point angle 0 |
| GrahamScans.OnlyLowestPrecedesLowest | src/confidenceZone/geometry/GrahamScan.java:173-205 | on integer points nothing but the lowest point itself sorts before it |
| GrahamScans.SortedSetStartsLowest | src/confidenceZone/geometry/GrahamScan.java:169-210 | on integer points the sorted set starts with the lowest point |
| GrahamScans.Zip | src/confidenceZone/geometry/GrahamScan.java:71-75 | the i-th point is (xs[i], ys[i]) |
| GrahamScans.GetConvexHullOf | src/confidenceZone/geometry/GrahamScan.java:65-78 | fails when the arrays differ in length; a hull has at least three points, is closed, and uses only input points |
| GrahamScans.GetConvexHull | src/confidenceZone/geometry/GrahamScan.java:91-133 | fails on no points, on fewer than three distinct points or on collinear ones; a hull starts and ends with the first sorted point and uses only input points |
| Polygons.RegularVertices | src/confidenceZone/geometry/Polygon.java:85-89 | one vertex per side |
| Polygons.NextAngleFits | src/confidenceZone/geometry/Polygon.java:80-83 | the angle loop collects exactly `sides` angles: the k-th fits within 2π exactly while k <= sides |
| Polygons.RegularVertexRadius | src/confidenceZone/geometry/Polygon.java:86-87 | a vertex at any angle lies sideLength from the centre |
| Polygons.RegularVerticesRadius | src/confidenceZone/geometry/Polygon.java:71-92 | every vertex of a regular polygon lies sideLength from the centre |
| Polygons.Moved | src/confidenceZone/geometry/Polygon.java:103-121 | a vertex either stays or moves to a place at least minRadius from the centroid; a vertex seen at 60 degrees or wider stays |
| Polygons.Inflated | src/confidenceZone/geometry/Polygon.java:101-122 | inflating never changes the number of vertices |
| Polygons.InflateMovesNarrowVerticesOnly | src/confidenceZone/geometry/Polygon.java:109-120 | a vertex that changes had an angle below 60 degrees and took one unit step along centroid to target by the sign of the weight, landing at least minRadius away |
| Polygons.InflateKeepsMinRadius | src/confidenceZone/geometry/Polygon.java:117-120 | the minimum-radius guard keeps every vertex at least minRadius from the centroid |
| Polygons.InflateByZero | src/confidenceZone/geometry/Polygon.java:114-115 | a zero weight moves nothing |
| Polygons.InflateBySignOnly | src/confidenceZone/geometry/Polygon.java:114-115 | only the sign of the weight matters |
| Polygons.Translated | src/confidenceZone/geometry/Polygon.java:162-164 | translating keeps the number of vertices |
| Polygons.TranslateKeepsRadii | src/confidenceZone/geometry/Polygon.java:160-165 | translating vertices and centroid together keeps every vertex-centroid distance |
| Polygons.TranslateKeepsMinRadius | src/confidenceZone/geometry/Polygon.java:160-165 | translating keeps every vertex at least minRadius from the centroid |
| Polygons.CrossUnderShift | src/confidenceZone/geometry/Polygon.java:138 | a shoelace term of shifted points is the original term plus terms linear in the shift |
| Polygons.OpenShoelaceUnderShift | src/confidenceZone/geometry/Polygon.java:130-139 | shifting changes the open sum by terms that depend only on its first and last vertices |
| Polygons.AreaUnderTranslation | src/confidenceZone/geometry/Polygon.java:129-141 | the area of the closed outline does not depend on where the polygon lies |
| Polygons.AreaAsWrittenDependsOnPosition | src/confidenceZone/geometry/Polygon.java:129-141 | as written, the unit square with lower left corner (a, b) has area 1 + a/2, while the closed shoelace gives 1 |
| Polygons.OpenOfFour | src/confidenceZone/geometry/Polygon.java:131-139 | on four vertices the loop sums the terms of the three open edges |
| Polygons.AreaAsWrittenOnClosedOutline | src/confidenceZone/geometry/Polygon.java:129-141 | on an outline that repeats its first vertex at the end, as a hull does, the two areas agree |
| Polygons.EdgeHitUnderShift | src/confidenceZone/geometry/Polygon.java:204-250 | moving an edge and the point together does not change whether the edge is crossed |
| Polygons.CrossingsUnderShift | src/confidenceZone/geometry/Polygon.java:204-251 | moving the polygon and the point together keeps the crossing count |
| Polygons.ContainsUnderTranslation | src/confidenceZone/geometry/Polygon.java:196-254 | moving the polygon and the point together does not change the answer |
| Polygons.EdgeOutsideBounds | src/confidenceZone/geometry/Polygon.java:208-238 | an edge wholly left of the point, wholly at or below it, or wholly above it is not crossed |
| Polygons.CrossingsOutsideBounds | src/confidenceZone/geometry/Polygon.java:204-251 | a point outside the vertices' bounds crosses no edge |
| Polygons.OutsideBoundsIsOutside | src/confidenceZone/geometry/Polygon.java:196-254 | a point right of, above or below every vertex is not contained |
| Polygons.Polygon.Regular | src/confidenceZone/geometry/Polygon.java:71-92 | getRegularPolygon keeps minRadius, puts the centroid at the centre and the specified vertices in order |
| Polygons.Polygon.InflateTowardsPoint | src/confidenceZone/geometry/Polygon.java:101-122 | the vertices become Inflated's, the centroid stays |
| Polygons.Polygon.Translate | src/confidenceZone/geometry/Polygon.java:160-165 | the centroid and every vertex shift by (dx, dy) |
| Polygons.Polygon.AddPoint | src/confidenceZone/geometry/Polygon.java:173-175 | the point is appended |
| Polygons.Polygon.Area | src/confidenceZone/geometry/Polygon.java:129-141 | half the shoelace sum over consecutive vertices, without the closing edge; for an outline whose last vertex repeats the first this is the area of the closed outline |
| Polygons.Polygon.Contains | src/confidenceZone/geometry/Polygon.java:196-254 | the even-odd crossing test over the edges last to first, first to second, ... |
| ConfidenceZones.ZoneWeight | src/confidenceZone/ConfidenceZone.java:91 | the weight is kept for an agent to include and negated for one to exclude |
| ConfidenceZones.Updated | src/confidenceZone/ConfidenceZone.java:86-93 | update keeps the number of vertices, and a locked zone does not change |
| ConfidenceZones.UpdateBySignOnly | src/confidenceZone/ConfidenceZone.java:91-92 | any two positive weights have the same effect |
| ConfidenceZones.UpdateDirection | src/confidenceZone/ConfidenceZone.java:86-93 | with a positive weight a vertex that moves steps one unit towards the agent when including it and away when excluding it |
| ConfidenceZones.UpdateKeepsMinRadius | src/confidenceZone/ConfidenceZone.java:86-93 | no update brings a vertex closer to the centroid than the minimum radius |
| ConfidenceZones.NewZoneRespectsMinRadius | src/confidenceZone/ConfidenceZone.java:24-55 | a new zone's eight vertices lie 250 from the position, beyond the minimum radius of 50 |
| ConfidenceZones.ApplyUpdates | src/neighborhood/ConfidenceZoneCooperativeBehavior.java:66-74 | a run of updates keeps the number of vertices |
| ConfidenceZones.ApplyUpdatesSnoc | src/neighborhood/ConfidenceZoneCooperativeBehavior.java:66-74 | a run of updates followed by one more is that update applied to the run's result |
| ConfidenceZones.ApplyUpdatesKeepsMinRadius | src/confidenceZone/ConfidenceZone.java:86-93 | the minimum radius survives any run of updates, and a locked zone does not change |
| ConfidenceZones.NearestVertexDistance | src/confidenceZone/ConfidenceZone.java:102-105 | minDistance fails on a zone without vertices and otherwise is the distance to some vertex and at most the distance to every vertex |
| ConfidenceZones.ConfidenceZone.constructor | src/confidenceZone/ConfidenceZone.java:52-56 | a new zone is a fresh regular octagon of side length 250 and minimum radius 50 centred at the position |
| ConfidenceZones.ConfidenceZone.Translate | src/confidenceZone/ConfidenceZone.java:64-66 | the polygon's centroid and vertices shift by (dx, dy) |
| ConfidenceZones.ConfidenceZone.Area | src/confidenceZone/ConfidenceZone.java:73-75 | the polygon's area as written; the closed outline's area when the last vertex repeats the first |
| ConfidenceZones.ConfidenceZone.Update | src/confidenceZone/ConfidenceZone.java:86-93 | the vertices become those Updated specifies |
| ConfidenceZones.ConfidenceZone.Contains | src/confidenceZone/ConfidenceZone.java:115-117 | the polygon's even-odd test |
| ZoneCooperation.InZone | src/neighborhood/ConfidenceZoneCooperativeBehavior.java:120-125 | exactly the agents elsewhere than this agent, inside its zone, active and not paused |
| ZoneCooperation.Collinearities | src/neighborhood/ConfidenceZoneCooperativeBehavior.java:165-168 | one collinearity per candidate |
| ZoneCooperation.MostAligned | src/neighborhood/ConfidenceZoneCooperativeBehavior.java:158-163 | as evidently meant, an agent whose line with `from` passes nearest this agent |
| ZoneCooperation.RemoveAt | src/neighborhood/ConfidenceZoneCooperativeBehavior.java:150 | removing one element keeps all the others |
| ZoneCooperation.Pairs | src/neighborhood/ConfidenceZoneCooperativeBehavior.java:134-156 | n agents make n / 2 pairs |
| ZoneCooperation.PairsStep | src/neighborhood/ConfidenceZoneCooperativeBehavior.java:145-152 | each pair is the nearest agent left with its most aligned partner, both then removed |
| ZoneCooperation.Members | src/neighborhood/ConfidenceZoneCooperativeBehavior.java:151 | two agents per pair |
| ZoneCooperation.PairsAreDisjoint | src/neighborhood/ConfidenceZoneCooperativeBehavior.java:145-154 | no agent is used twice and none comes from outside the list |
| ZoneCooperation.FirstPairIsMostAligned | src/neighborhood/ConfidenceZoneCooperativeBehavior.java:145-163 | with the evident comparator, the first pair is the nearest agent with the one, of those after it, most aligned with it |
| ZoneCooperation.AsWrittenAllTie | src/neighborhood/ConfidenceZoneCooperativeBehavior.java:160 | as written the comparator compares a1 with a1, so every agent ties and the stable sort keeps the order |
| ZoneCooperation.AsWrittenPartner | src/neighborhood/ConfidenceZoneCooperativeBehavior.java:158-163 | as written getMostAlignedAgent returns the first agent left |
| ZoneCooperation.PairsAsWritten | src/neighborhood/ConfidenceZoneCooperativeBehavior.java:134-156 | as written, n agents also make n / 2 pairs |
| ZoneCooperation.AsWrittenPairsAreConsecutive | src/neighborhood/ConfidenceZoneCooperativeBehavior.java:145-163 | as written the i-th pair is the (2i)-th and (2i+1)-th agents of the distance order |
| ZoneCooperation.AsWrittenIsConsecutive | src/neighborhood/ConfidenceZoneCooperativeBehavior.java:145-163 | as written the whole pairing equals consecutive pairing of the distance order, whatever the alignments |
| ZoneCooperation.AsWrittenIgnoresAlignment | src/neighborhood/ConfidenceZoneCooperativeBehavior.java:158-163 | as written the second agent is taken even when the third is better aligned |
| ZoneCooperation.Fields | src/neighborhood/ConfidenceZoneCooperativeBehavior.java:110-190 | one data field per pair, weighted by the distance from this agent to the pair's line |
| ZoneCooperation.AgreeingPairGivesItsReading | src/neighborhood/ConfidenceZoneCooperativeBehavior.java:185 | a pair that agrees on a finite reading gives that reading, whatever the geometry, as long as its length is not zero and its angle is defined |
| ZoneCooperation.Filter | src/neighborhood/ConfidenceZoneCooperativeBehavior.java:63-105 | exactly the fields that are, or are not, outliers |
| ZoneCooperation.SpreadOf | src/neighborhood/ConfidenceZoneCooperativeBehavior.java:83-92 | the fields sorted by gap to the median, the nearest as reference, and the spread as its gap to the third nearest |
| ZoneCooperation.Outliers | src/neighborhood/ConfidenceZoneCooperativeBehavior.java:77-108 | exactly the fields at or beyond a tenth of the spread from the reference |
| ZoneCooperation.NoSpreadMakesAllOutliers | src/neighborhood/ConfidenceZoneCooperativeBehavior.java:102 | with no spread every finite field, the reference included, is an outlier |
| ZoneCooperation.ReferenceIsTypical | src/neighborhood/ConfidenceZoneCooperativeBehavior.java:102 | with a positive spread the reference field itself is typical |
| ZoneCooperation.NaNIsTypical | src/neighborhood/ConfidenceZoneCooperativeBehavior.java:102 | a NaN field fails both comparisons and counts as typical |
| ZoneCooperation.UpdatesFor | src/neighborhood/ConfidenceZoneCooperativeBehavior.java:66-74 | both agents of each pair, with the same weight and direction |
| ZoneCooperation.Values | src/neighborhood/ConfidenceZoneCooperativeBehavior.java:79-80 | the data field values whose median is taken |
| ZoneCooperation.ZoneUpdates | src/neighborhood/ConfidenceZoneCooperativeBehavior.java:59-75 | both agents of every outlying pair are pushed away with CZ_UPDATE_DELTA, then both of every other pair pulled in with half of it |
| ZoneCooperation.WeightedSumBounds | src/neighborhood/ConfidenceZoneCooperativeBehavior.java:200-204 | products of values in [lo, hi] with non-negative weights sum to between lo and hi times the weights' sum |
| ZoneCooperation.FiniteTerms | src/neighborhood/ConfidenceZoneCooperativeBehavior.java:200-204 | on finite fields the two sums are the real sums of the products and of the weights |
| ZoneCooperation.EstimationIsWeightedMean | src/neighborhood/ConfidenceZoneCooperativeBehavior.java:192-210 | with finite fields in [lo, hi] and finite non-negative weights, one positive, the estimation is finite and in [lo, hi] |
| ZoneCooperation.PositiveTermPositiveSum | src/neighborhood/ConfidenceZoneCooperativeBehavior.java:204 | non-negative weights with one positive have a positive sum |
| ZoneCooperation.ZoneCooperativeBehavior.constructor | src/neighborhood/ConfidenceZoneCooperativeBehavior.java:33-36 | the behaviour belongs to the agent and its zone |
| ZoneCooperation.ZoneCooperativeBehavior.EvaluateCollinearSensors | src/neighborhood/ConfidenceZoneCooperativeBehavior.java:134-156 | the agents sorted by distance are paired as written, each with the next one left, and the pairs cover the sorted agents two by two, an odd one out left unpaired |
| ZoneCooperation.PairOff | src/neighborhood/ConfidenceZoneCooperativeBehavior.java:142-155 | the pairing loop returns the pairs as written, and they hold exactly the first even number of sorted agents, in order |
| ZoneCooperation.ZoneCooperativeBehavior.UpdateConfidenceZone | src/neighborhood/ConfidenceZoneCooperativeBehavior.java:59-75 | the zone's vertices become those after every specified update in turn |
| ZoneCooperation.ZoneCooperativeBehavior.ApplyAll | src/neighborhood/ConfidenceZoneCooperativeBehavior.java:66-74 | one confidenceZone.update per update, in order |
| ZoneCooperation.ZoneCooperativeBehavior.Act | src/neighborhood/ConfidenceZoneCooperativeBehavior.java:38-57 | NaN and an untouched zone with fewer than three pairs as written; otherwise the weighted estimation of the data fields, with the zone moved by updateConfidenceZone |
| PairsActions.UpdatesOf | src/agent/contactSensor/impl/SensorsPairsActionImpl.java:27-42 | every update an agent's zone receives is towards the contact sensor's position with weight CZ_UPDATE_RATE, at most two per pair |
| PairsActions.UpdatesOfAgent | src/agent/contactSensor/impl/SensorsPairsActionImpl.java:27-42 | an agent's zone receives exactly the update of each pair it belongs to: inward exactly when the correlation is at most the threshold |
| PairsActions.NaNCorrelationPushesAway | src/agent/contactSensor/impl/SensorsPairsActionImpl.java:34-40 | a NaN correlation fails the `<=` test, so both agents of its pair are pushed away |
| PairsActions.UnpairedAgentUnchanged | src/agent/contactSensor/impl/SensorsPairsActionImpl.java:27-42 | an agent in no pair receives no update and its zone is left as it was |
| PairsActions.PairStep | src/agent/contactSensor/impl/SensorsPairsActionImpl.java:29-40 | one pair of the loop takes every zone from the updates of the pairs before it to those including it |
| PairsActions.Act | src/agent/contactSensor/impl/SensorsPairsActionImpl.java:16-44 | every zone's vertices become those after exactly the updates of its pairs, in the map's order; centroids stay |
| PairsActions.ApplyPair | src/agent/contactSensor/impl/SensorsPairsActionImpl.java:29-40 | the loop body updates both zones of the pair, left first, and no other zone |
| PairsActions.Apply | src/agent/contactSensor/impl/SensorsPairsActionImpl.java:35-39 | one confidenceZone.update changes that zone only |
| Thresholds.FiniteOnly | src/agent/contactSensor/impl/ThresholdEvaluationImpl.java:44 | removeIf keeps exactly the finite correlations |
| Thresholds.FiniteOnlyKeepsFiniteLists | src/agent/contactSensor/impl/ThresholdEvaluationImpl.java:44 | a list of finite values loses nothing |
| Thresholds.ClassFromSpec | src/agent/contactSensor/impl/ThresholdEvaluationImpl.java:89-101 | from index i the scan passes over intervals that do not hold corr and stops at one that does, or at the last class |
| Thresholds.ClassOfSpec | src/agent/contactSensor/impl/ThresholdEvaluationImpl.java:85-118 | the class is the first interval holding corr among all but the last, and the last class when none does |
| Thresholds.LeTotal | src/agent/contactSensor/impl/ThresholdEvaluationImpl.java:94 | `<=` on non-NaN values is total |
| Thresholds.LeTransitive | src/agent/contactSensor/impl/ThresholdEvaluationImpl.java:94 | `<=` is transitive |
| Thresholds.ClassBracketsInRange | src/agent/contactSensor/impl/ThresholdEvaluationImpl.java:85-118 | on sorted thresholds a correlation within their range gets a class whose interval holds it, though the last interval is never compared against |
| Thresholds.CompareLeIsTotalPreorder | src/agent/contactSensor/impl/ThresholdEvaluationImpl.java:87 | Arrays.sort's order, Double.compare, is total and transitive |
| Thresholds.PearsonThresholds | src/agent/contactSensor/impl/PearsonThresholdEvaluation.java:22-27 | the thresholds with -1 prepended and 1 appended |
| Thresholds.PearsonClassRange | src/agent/contactSensor/impl/PearsonThresholdEvaluation.java:20-30 | with the two centroids of 2-means a Pearson class is 0, 1 or 2 |
| Thresholds.PearsonClassBrackets | src/agent/contactSensor/impl/PearsonThresholdEvaluation.java:20-30 | any correlation in [-1, 1] gets a class whose interval holds it |
| Thresholds.NearestOfThree | src/agent/contactSensor/impl/PearsonThresholdEvaluation.java:38-50 | getClassOld is 0, 1 or 2 |
| Thresholds.NearestOfThreeRegions | src/agent/contactSensor/impl/PearsonThresholdEvaluation.java:42-49 | class 0 up to -1/2, 2 above 1/2, 1 between; a NaN correlation gives 0 |
| Thresholds.ThresholdEvaluation.constructor | src/agent/contactSensor/impl/ThresholdEvaluationImpl.java:33-37 | a new evaluation has no threshold, no labels and no centroids |
| Thresholds.ThresholdEvaluation.Calculate | src/agent/contactSensor/impl/ThresholdEvaluationImpl.java:40-72 | the non-finite correlations are dropped; labels and centroids are those of k-means on what is kept, and the centroids are the thresholds returned |
| Thresholds.ThresholdEvaluation.GetClass | src/agent/contactSensor/impl/ThresholdEvaluationImpl.java:85-118 | the caller's array is sorted in place and the class is the specified one |
| Thresholds.PearsonThresholdEvaluation.constructor | src/agent/contactSensor/impl/PearsonThresholdEvaluation.java:17 | a new Pearson evaluation has no threshold |
| Thresholds.PearsonThresholdEvaluation.GetClass | src/agent/contactSensor/impl/PearsonThresholdEvaluation.java:20-30 | the class of corr among the sorted thresholds with -1 and 1 added; the caller's array is untouched |
| Couplings.CloserIsTotalPreorder | src/agent/contactSensor/impl/CouplingStrategyImpl.java:89-92 | the sort by minDistance through Double.compare is total and transitive |
| Couplings.Members | src/agent/contactSensor/impl/CouplingStrategyImpl.java:125 | each pair puts two agents in the map's keys |
| Couplings.Disjoint | src/agent/contactSensor/impl/CouplingStrategyImpl.java:94-130 | the loop makes at most half as many pairs as there are neighbours |
| Couplings.DisjointPairs | src/agent/contactSensor/impl/CouplingStrategyImpl.java:94-130 | no agent is used twice and none comes from outside the list; every first agent has a last context and every value is the pair's correlation |
| Couplings.FirstOfKind | src/agent/contactSensor/impl/CouplingStrategyImpl.java:55 | filter by type then findFirst: the first agent of that type, or none when there is no such agent |
| Couplings.Bounded | src/agent/contactSensor/impl/CouplingStrategyImpl.java:45-77 | the loop stops at pairsCount pairs (none for a negative count), or throws when no partner of A1's type is left |
| Couplings.BoundedPairs | src/agent/contactSensor/impl/CouplingStrategyImpl.java:45-77 | each pair joins two agents of the same type, the first with a last context and taken from the list at most once, with its correlation |
| Couplings.SecondAgentMayRepeat | src/agent/contactSensor/impl/CouplingStrategyImpl.java:46-74 | A2 stays in the list, so three agents of one type give two pairs that share the middle one |
| Couplings.PrefixedSnoc | src/agent/contactSensor/impl/CouplingStrategyImpl.java:74 | adding one pair to the map and then the rest is the same as adding all of them |
| Couplings.WindowOf | src/agent/contactSensor/impl/CouplingStrategyImpl.java:180-183 | the window holds idx - max(0, idx - 64) values, none when idx is 0 or less |
| Couplings.WindowLength | src/agent/contactSensor/impl/CouplingStrategyImpl.java:180-185 | the window holds min(idx, 64) values, oldest first, ending at perception idx, and is full exactly when idx >= 64 |
| Couplings.EvaluateCorrelation | src/agent/contactSensor/impl/CouplingStrategyImpl.java:168-195 | throws IndexOutOfBounds exactly when idx is past either agent's perceptions; otherwise `best` of the measure of the two windows when full, `best` of nothing when not |
| Couplings.Windows | src/agent/contactSensor/impl/CouplingStrategyImpl.java:180-183 | inserting at the front from idx down fills both windows with the values ending at idx, and fails exactly when idx is out of range |
| Couplings.CouplingStrategy.constructor | src/agent/contactSensor/impl/CouplingStrategyImpl.java:31-33 | the strategy keeps the correlation measure it is given |
| Couplings.CouplingStrategy.ActDisjoint | src/agent/contactSensor/impl/CouplingStrategyImpl.java:85-133 | act(self, neighbors, idx) gives the disjoint pairing of the neighbours sorted by distance |
| Couplings.CouplingStrategy.PairDisjoint | src/agent/contactSensor/impl/CouplingStrategyImpl.java:94-130 | the while loop produces the specified disjoint pairing |
| Couplings.CouplingStrategy.ActBounded | src/agent/contactSensor/impl/CouplingStrategyImpl.java:35-80 | act(self, neighbors, pairsCount, idx) gives the bounded pairing of the neighbours sorted by distance, or its exception |
| Couplings.CouplingStrategy.PairBounded | src/agent/contactSensor/impl/CouplingStrategyImpl.java:45-77 | the while loop produces the specified bounded pairing |
| ContactSensors.RecordedSpec | src/agent/ContactSensorAgent.java:241-252 | a pair of this tick gains exactly its correlation when finite and nothing otherwise; every other pair's history is untouched |
| ContactSensors.RecordedKeys | src/agent/ContactSensorAgent.java:244-246 | the pairs with a history are those that had one and those of this tick |
| ContactSensors.RecordedStep | src/agent/ContactSensorAgent.java:241-252 | one pass of the loop appends one pair's finite correlation |
| ContactSensors.RecordAll | src/agent/ContactSensorAgent.java:241-252 | the loop leaves the specified histories |
| ContactSensors.WindowOfHistory | src/agent/ContactSensorAgent.java:207-211 | since `j > max(0, j - 64)` is just `j > 0`, the window is the whole history but its first value, newest first |
| ContactSensors.Windowed | src/agent/ContactSensorAgent.java:204-224 | after one call the windowed histories exist for the pairs that had one and for the pairs of this tick |
| ContactSensors.WindowedSpec | src/agent/ContactSensorAgent.java:204-224 | each pair of the tick gains size - 1 copies of the median of its window; other pairs are untouched |
| ContactSensors.WindowedStep | src/agent/ContactSensorAgent.java:204-224 | one pass of the loop appends one pair's copies |
| ContactSensors.LeastRate | src/agent/ContactSensorAgent.java:258-267 | the loop finds the least of Integer.MAX_VALUE and min(samplesL - 1, samplesR - 1) over all pairs with a history |
| ContactSensors.LeastRateOfMin | src/agent/ContactSensorAgent.java:269 | Math.min with the old UPDATE_RATE gives the least of it and every pair's rate |
| ContactSensors.ObservedCorrelationsCount | src/agent/ContactSensorAgent.java:356-363 | the least windowed history length, or 0 with no history |
| ContactSensors.ObservedRowsExist | src/agent/ContactSensorAgent.java:356-363 | every row below the observed count exists in every pair's history |
| ContactSensors.Criticality | src/agent/ContactSensorAgent.java:393-395 | 1 / sensorsCount: infinite with no pairs, otherwise in (0, 1] and its inverse is the pair count |
| ContactSensors.CriticalityDecreases | src/agent/ContactSensorAgent.java:393-395 | more pairs never make the agent more critical |
| ContactSensors.ContactSensorAgent.constructor | src/agent/ContactSensorAgent.java:85-99 | a new contact agent has no histories, no pairs, step 0 and the initial UPDATE_RATE |
| ContactSensors.ContactSensorAgent.DecideAndAct | src/agent/ContactSensorAgent.java:114-148 | with at most one neighbour nothing changes; otherwise the histories are recorded, UPDATE_RATE is set once, the windows are taken every 64 steps after the first, i advances, and `i % UPDATE_RATE` throws exactly when UPDATE_RATE is 0 |
| ContactSensors.ContactSensorAgent.EvaluatePunctualCorrelation | src/agent/ContactSensorAgent.java:227-255 | sensorsCount becomes the number of pairs and each pair's history gains its finite correlation |
| ContactSensors.ContactSensorAgent.SetUpdateRate | src/agent/ContactSensorAgent.java:257-271 | UPDATE_RATE becomes the least of itself and every pair's rate |
| ContactSensors.ContactSensorAgent.CalculateCorrelationBetweenPairs | src/agent/ContactSensorAgent.java:201-225 | the windowed histories become the specified ones |
| ContactSensors.ContactSensorAgent.CollectWindow | src/agent/ContactSensorAgent.java:205-211 | the first inner loop collects the specified window |
| ContactSensors.ContactSensorAgent.AppendCopies | src/agent/ContactSensorAgent.java:221-223 | the second inner loop appends one copy of the median for each index from limit down to 1 |
| ContactSensors.ContactSensorAgent.GetObservedCorrelationsCount | src/agent/ContactSensorAgent.java:356-363 | the observed count of the agent's own windowed histories |
| CrossValidation.FoldSize | src/agent/crossValidation/CrossValidationAgent.java:353 | the ceiling of n / numFolds: numFolds folds of that size cover the line, and one size less would not |
| CrossValidation.FoldOf | src/agent/crossValidation/CrossValidationAgent.java:353-365 | the fold ends at the end of its block or of the line; it starts at foldId * size, moved 11 samples on when that is below 10 |
| CrossValidation.FoldsAreDisjoint | src/agent/crossValidation/CrossValidationAgent.java:353-365 | agents with different fold ids test on sample ranges that never overlap |
| CrossValidation.FoldInLine | src/agent/crossValidation/CrossValidationAgent.java:353-365 | every fold lies inside the line, and fold 0 leaves out the first 11 samples |
| CrossValidation.TestSetMask | src/agent/crossValidation/CrossValidationAgent.java:381-395 | the mask is true exactly from start to end; a negative start that the loop reaches throws |
| CrossValidation.EligibleOf | src/agent/crossValidation/CrossValidationAgent.java:276-279 | exactly the real, active, unpaused ambient agents other than this one |
| CrossValidation.CooperationCount | src/agent/crossValidation/CrossValidationAgent.java:284-286 | (int)(n * pct / 100): the floor of that share, never more than n when pct <= 100 |
| CrossValidation.FirstOf | src/agent/crossValidation/CrossValidationAgent.java:286 | the first `count` agents of the sorted list, failing when there are fewer |
| CrossValidation.ChosenBeforeRest | src/agent/crossValidation/CrossValidationAgent.java:280-286 | in a sorted list the agents taken from the front come before every agent left behind |
| CrossValidation.DistanceOrder | src/agent/crossValidation/CrossValidationAgent.java:280-281 | Double.compare on distances is a total preorder |
| CrossValidation.ConfidenceOrders | src/agent/crossValidation/CrossValidationAgent.java:299 | Double.compare on confidences, either way round, is a total preorder |
| CrossValidation.NearestAreNearest | src/agent/crossValidation/CrossValidationAgent.java:274-287 | the nearest-agents selection takes the percentage of eligible agents, and each chosen agent is no farther than any left out |
| CrossValidation.MostConfidentAreMostTrusted | src/agent/crossValidation/CrossValidationAgent.java:293-304 | the corrected selection takes the percentage of eligible agents, each trusted at least as much as any left out |
| CrossValidation.AsWrittenPicksLeastConfident | src/agent/crossValidation/CrossValidationAgent.java:299 | with confidences 0.2 and 0.9 and 50 %, the ascending sort picks the 0.2 agent, the corrected one the 0.9 agent |
| CrossValidation.CrossValidationAgent.constructor | src/agent/crossValidation/CrossValidationAgent.java:104-108 | a new agent is in TRAINING mode, has not reported its end, has no mask, and has an all-zero estimation array of the line's length unless train-only |
| CrossValidation.CrossValidationAgent.GetTestSetIdx | src/agent/crossValidation/CrossValidationAgent.java:336-396 | all false for train-only or fold -1; IllegalArgumentException for a fold id past the folds; otherwise the fold bounds are kept and the mask is true exactly on the fold |
| CrossValidation.CrossValidationAgent.HandleSensorFailure | src/agent/crossValidation/CrossValidationAgent.java:150-241 | train-only: report the end once; EOF in TRAINING or TESTING: rewind the sensor, set its mask, clear the buffer and move to the next mode; otherwise copy the fold's values into the estimation array, stop the agent, and fail if an index is out of range |
| CrossValidation.CrossValidationAgent.CopyFold | src/agent/crossValidation/CrossValidationAgent.java:213-215 | exactly the indexes src..dest of the estimation array take the agent's values; it fails when one is out of range |
| CrossValidation.CrossValidationAgent.ModifyNeighborsConfidence | src/agent/crossValidation/CrossValidationAgent.java:262-268 | no confidence changes in TESTING_WITH_BEST_AGENTS; otherwise the ambient agent's update |
| CrossValidation.CrossValidationAgent.GetNeighborsWithWhichCooperate | src/agent/crossValidation/CrossValidationAgent.java:247-259 | the inherited choice outside TESTING_WITH_BEST_AGENTS; otherwise, by the strategy, the nearest agents or the agents of the confidence order as written (ascending) |
| CrossValidation.GetNew | src/agent/crossValidation/CrossValidationAgent.java:128-144 | a fresh TRAINING agent; unless train-only its mask is all false for fold -1 and otherwise true exactly on the fold it keeps; it fails exactly when getTestSetIDX throws |
| CorrelationFinders.ContextWindow | src/correlationFinder/CorrelationFinders.java:543 | subList(max(0, i - 50), i + 1): the sample i and up to 50 before it, in order; it fails unless -1 <= i < the series' length |
| CorrelationFinders.AbsDiffs | src/correlationFinder/CorrelationFinders.java:570 | the terms |s1[k] - s2[k]| for k from 1 on |
| CorrelationFinders.ContextDistance | src/correlationFinder/CorrelationFinders.java:569-572 | it fails exactly when the second context is shorter than the first past index 0; an empty first context gives 0 / 0 = NaN |
| CorrelationFinders.RealAbsDiffs | src/correlationFinder/CorrelationFinders.java:570 | the same terms on reals, one per index from 1 |
| CorrelationFinders.TermsOfFinite | src/correlationFinder/CorrelationFinders.java:570 | on finite contexts every term is finite and equal to the real term |
| CorrelationFinders.DistanceOfFinite | src/correlationFinder/CorrelationFinders.java:569-572 | on finite contexts the distance is the real sum of the terms over the length, never negative |
| CorrelationFinders.DistanceToSelf | src/correlationFinder/CorrelationFinders.java:569-572 | a finite context is at distance 0 from itself |
| CorrelationFinders.DistanceIgnoresFirstSample | src/correlationFinder/CorrelationFinders.java:570 | the first sample of either context takes no part in the distance |
| CorrelationFinders.DistanceIsSymmetric | src/correlationFinder/CorrelationFinders.java:569-572 | contexts of equal length are equally far in both directions |
| CorrelationFinders.PartnerFrom | src/correlationFinder/CorrelationFinders.java:547-557 | a partner found has another name, is not yet paired, and is a known sensor |
| CorrelationFinders.PairsFrom | src/correlationFinder/CorrelationFinders.java:538-564 | the outer loop only adds pairs after those already made |
| CorrelationFinders.Members | src/correlationFinder/CorrelationFinders.java:560-562 | each pair adds its two sensors to sensorsAdded |
| CorrelationFinders.PairsFromDisjoint | src/correlationFinder/CorrelationFinders.java:538-564 | from any point of the outer loop no sensor ends in two pairs, the partners of a pair have different names, and all are known sensors |
| CorrelationFinders.PairsAreDisjoint | src/correlationFinder/CorrelationFinders.java:533-567 | under either scoring the returned pairs share no sensor and never pair a name with itself |
| CorrelationFinders.NoCandidateKeepsBest | src/correlationFinder/CorrelationFinders.java:547-557 | when no later sensor beats Double.MAX_VALUE the partner found so far is kept |
| CorrelationFinders.PartnerIsLastAccepted | src/correlationFinder/CorrelationFinders.java:545-556 | since the score is never lowered, the partner is the last eligible sensor whose distance is below Double.MAX_VALUE, not the nearest |
| CorrelationFinders.RunningMinimumIsNearest | src/correlationFinder/CorrelationFinders.java:545-556 | with the score lowered to each accepted distance, the partner found is no farther than any accepted sensor |
| CorrelationFinders.BestSensor | src/correlationFinder/CorrelationFinders.java:543-557 | the inner loop, as written, finds the specified partner |
| CorrelationFinders.SensorsPairsByContextSimilarity | src/correlationFinder/CorrelationFinders.java:533-567 | the method, as written, returns the specified pairs, which share no sensor and never pair a name with itself |
| CorrelationFinders.ThreeSensorsExample | src/correlationFinder/CorrelationFinders.java:569-572 | for series A = [0, 0], B = [0, 1] and C = [0, 5], B is at distance 0.5 from A and C at 2.5 |
| CorrelationFinders.AsWrittenPairsWithLastCandidate | src/correlationFinder/CorrelationFinders.java:545-556 | as written, the first sensor is paired with the third although the second is nearer |
| CorrelationFinders.RunningMinimumPairsWithNearest | src/correlationFinder/CorrelationFinders.java:545-556 | with a running minimum, the first sensor is paired with the nearest, the second |
| CorrelationFinders.Remapped | src/correlationFinder/CorrelationFinders.java:273-277 | non-negative values are kept, and a correlation in [-1, 1] lands in [0, 1] |
| CorrelationFinders.RemapOfNegatives | src/correlationFinder/CorrelationFinders.java:273-277 | a negative q becomes 1 + q in [0, 1), order is kept, and remapping twice changes nothing |
| CorrelationFinders.RemapNegatives | src/correlationFinder/CorrelationFinders.java:273-277 | every entry of the array is remapped in place |
| CorrelationFinders.SmoothingStart | src/correlationFinder/CorrelationFinders.java:264 | max(0, n - 50): the last min(n, 50) statuses are smoothed |
| CorrelationFinders.RemappedResponses | src/correlationFinder/CorrelationFinders.java:266-277 | one remapped response per status |
| CorrelationFinders.Smoothed | src/correlationFinder/CorrelationFinders.java:263-284 | only responses change; the statuses before the last 50 are untouched and the last 50 all get the median of their remapped responses |
| CorrelationFinders.SmoothResponses | src/correlationFinder/CorrelationFinders.java:264-283 | the work on one pair's list is the specified smoothing |
| CorrelationFinders.SetCorrelation | src/correlationFinder/CorrelationFinders.java:260-285 | every pair's list is smoothed on its own and no pair is added or lost |
| CorrelationFinders.ClustersFrom | src/correlationFinder/CorrelationFinders.java:343-373 | the clustering loop only adds to the clusters |
| CorrelationFinders.Clustered | src/correlationFinder/CorrelationFinders.java:336-373 | both clusters are never empty, as they start from the percentiles |
| CorrelationFinders.ClustersFromCover | src/correlationFinder/CorrelationFinders.java:343-373 | the clusters keep what they had, every value met ends in one of them, and nothing else enters |
| CorrelationFinders.EveryValueIsClustered | src/correlationFinder/CorrelationFinders.java:336-373 | the clusters start from the 25th and 75th percentiles, every value ends in one of them, and they hold nothing else |
| CorrelationFinders.MidpointIsHalfway | src/correlationFinder/CorrelationFinders.java:375-378 | the threshold is finite, equally far from the low maximum and the high minimum, and between them when they are ordered |
| CorrelationFinders.EvaluateThresholdByThreeClusters | src/correlationFinder/CorrelationFinders.java:324-380 | the threshold is the midpoint of the clusters the loop builds |

## Left out

- Threads and timing: `Agent.run`, `activate`, `start`, the sleeps, `Thread.yield` and the cycle-duration check (src/agent/base/Agent.java:234-302, 324-339). The `synchronized` blocks and snapshot copies are left out too. One pass of the reasoning cycle is modelled as a sequential step.
- The spin-wait retry loops of `CouplingStrategyImpl.act` (src/agent/contactSensor/impl/CouplingStrategyImpl.java:60-71, 109-120) wait for other threads to record perceptions. `Couplings.CouplingStrategy.ActDisjoint` and `ActBounded` take the pair's correlation as a function. `Couplings.CouplingStrategy.EvaluateCorrelation` returns the IndexOutOfBoundsException instead of retrying.
- The `Environment` singleton is left out. The agents it would return are passed explicitly as sequences of views (peers, candidates, neighbours).
- File I/O and orchestration are left out: `Files.readAllLines` and column splitting in `FileDataSensor`, `Main`, `MASConfig`, `AgentFactory`, `AgentListener` and the CSV writers. `FileSensors` receives the file as lines already split into columns.
- Listener callbacks, loggers, `printContactSensorsState` and all printing are left out. `Behaviors` records the listener's notifications as events in a log.
- The JavaFX plotter is left out.
- Floating point is modelled with exact reals. Rounding, overflow to infinity from finite operands, and the sign of zero are not modelled. NaN and the infinities are explicit cases.
- Java `int` arithmetic is unbounded. Overflow is not modelled, for example in `foldID * foldSize`, the tick counter `i` and `Integer.MAX_VALUE`-based minima.
- Statistics and trigonometry libraries are function parameters with no assumed properties: k-means, `Median`, `Percentile`, `StandardDeviation`, `StatUtils.mode`, `EmpiricalDistribution`, the correlation measure, `Math.atan2`, `cos` and `sin`, javafx `angle`/`normalize`, and square-root distances.
- `ContextEntries.SetIsEstimation` returns a new entry value instead of updating the entry in place. The system applies it only to entries it has just created, so aliasing is not captured.
- Stored contexts are taken as values (`ContextData`). The store, comparators and estimator never change a context after it is stored.
- `AmbientContextAgent.getBestEstimation` (src/agent/AmbientContextAgent.java:743-778) builds the histogram with `EmpiricalDistribution`. Only "the non-empty bin whose mean is nearest" is modelled; the bins are a parameter.
- `GrahamScan.getSortedPointSet` is modelled as a stable sort, after removing duplicates, by a total preorder. The source builds a `TreeSet` whose comparator returns 1 for two distinct points at the same angle and distance. That comparator is not antisymmetric, and the model does not capture `TreeSet` behaviour that depends on this.
- `Polygon(double[], double[])` and `Polygon.union` are not modelled. `union` builds the hull with `getConvexHull`, which is modelled as `GrahamScans.GetConvexHull`.
- `ContactSensorAgent.evaluateContactSensorState` and `evaluateCooperativeContactSensorState` (src/agent/ContactSensorAgent.java:278-354) are not modelled. Each pair's classification is modelled as `Thresholds.ThresholdEvaluation.GetClass`, and the row count as `ContactSensors.ObservedCorrelationsCount`. The vote through `StatUtils.mode` over other contact agents found in the environment is left out. `ContactSensors.ContactSensorAgent.DecideAndAct` reports when the evaluation runs.
- `UPDATE_RATE` is static in the source and shared by all contact sensor agents. It is a field of each agent here.
- `LIMIT_PAIRS_COUNT` is a constant. `DecideAndAct` takes the map returned by either `act` as its argument, and both `act` variants are modelled.
- `CouplingStrategyImpl.evaluateCorrelation(a, b)`, the variant without an index (src/agent/contactSensor/impl/CouplingStrategyImpl.java:137-164), is not called by the pairing loops and is not modelled. Neither is `normalizeData` (src/agent/contactSensor/impl/CouplingStrategyImpl.java:197-204), which only that variant calls.
- `ThresholdEvaluationImpl.getLabel` (src/agent/contactSensor/impl/ThresholdEvaluationImpl.java:125-140) is not called by the modelled operations and is left out.
- The `999` fallback of `getClass` (src/agent/contactSensor/impl/ThresholdEvaluationImpl.java:103-117) is not modelled. `Thresholds.ThresholdEvaluation.GetClass` builds the `classCount` map and picks its maximal entry as the source does; that map always holds the one class found, so the fallback is unreachable.
- `CrossValidationAgent` is modelled with these simplifications:
  - `ESTIMATION_MAP` and `SET_LIST` are static maps keyed by agent name. Each agent's entry is its own `estimation` array here.
  - The `CONTEXT_SIZE_MAP` statistics are left out (src/agent/crossValidation/CrossValidationAgent.java:218-233).
  - The `perceive` and `decideAndAct` overrides are left out, as are the `getNew` overload that only sets a position and `printMoreConfidentAgent`.
- `CorrelationFinders` is modelled only in `contextDistance`, `getSensorsPairsByContextSimilarity`, `setCorrelation` and `evaluateThresholdByThreeClusters`. Its file readers, its XML position reader and its `main` variants are left out, as are `getCorrelationsByEvolution`, `doContactSensorTest_2`, `setThreshold`, `writeCorrelatedPairsToCSV`, `filterOutliers`, `evaluateContactSensorStatus_RIGHT`, `medianAbsoluteDeviation` and `getFuzzyClass`.
- `DeviceStatus` and `SensorInfo` are datatypes holding only the fields used here.
- Agents.Agent: agents are compared by name only. `Agent.equals` (src/agent/base/Agent.java:398-412) also requires the same runtime class, so two agents of different kinds with one name are distinct in the source and the same here. The model never builds such a pair.
- ContextStores.EnclosingKey: when several stored key ranges enclose a context, the first in the store's sequence order is taken. The source takes the first in `HashMap` iteration order, which depends on hashing and is not modelled.
- ContextStores.ByDistance, ContextStores.MostSimilar, ContextStores.ScoreReference, ContextStores.SimilarityScores, AmbientAgents.AtIdxs, ZoneCooperation.ZoneUpdates, ZoneCooperation.ActZone, PairsActions.Act and ContactSensors.Recorded: each follows the sequence order of a collection that the source iterates in `HashMap` or `HashSet` order. Their results are stated for the given order; the hashing order that picks ties, first matches, update order and pair order in the source is not modelled.
- ContextInfos.FromString: case folding is `String.toUpperCase` on ASCII letters only, with no locale. Java folds every Unicode letter under the default locale, so for example the dotless "ı" of "humıdity" folds to "I" and matches HUMIDITY in the source, while the model reports no match.
- AmbientAgents.ProcessSpec: the context finder is a function of the store and the perceptions, returning a `Result`. The sensor it also reads (its cursor and samples) is fixed for the tick and is captured inside the function value, so one finder value stands for one tick's sensor.
- AmbientAgents.EstimateMissing: the confidence-zone estimate reaches the tick as the value `Surroundings.czEstimate`. It is computed by `AmbientAgents.EstimateByConfidenceZone`, which calls `ZoneCooperation.ZoneCooperativeBehavior.Act` and so moves the zone. The tick does not make that call itself, and the order of the zone update relative to the rest of the tick is not captured.
- Trust in a neighbour:
  - A neighbour whose estimate falls outside the chosen bin has its confidence raised. `modifyNeighborsConfidence` passes a negative delta, and `modifyConfidence` subtracts a negative delta.
  - Confidence is not kept within [0, 1] for a negative delta. `Agents.NegativeDeltaExample` shows 1 becoming 1.1.

## Findings

| source | as written | input that shows it | evidently intended | confidence | as-written member | corrected member |
|---|---|---|---|---|---|---|
| src/agent/AmbientContextAgent.java:924-929 | a context with a NaN reading has descriptor (NaN, NaN); `includedIn` is false for it, and `put` with an equal key (`Double.equals` holds between NaNs) replaces that key's bucket | two contexts of one NaN reading stored one after the other: the store keeps only the second | the context joins the existing bucket and nothing stored is lost | not executed | ContextStores.NaNContextReplacesBucket | ContextStores.NaNContextsAreBothKept |
| src/agent/AmbientContextAgent.java:451-452 | the neighbour comparator compares the second agent's distance with itself, so the sort keeps environment order | six partners where the first is farther than the sixth: the first is used, the sixth is not | the five nearest partners are used | not executed | AmbientAgents.AsWrittenUsesAFartherNeighbor | AmbientAgents.UsedNeighborsAreNearest |
| src/confidenceZone/geometry/Polygon.java:129-141 | the shoelace sum leaves out the closing edge from the last vertex to the first | the unit square with corner (a, b) has area 1 + a/2 | the area is 1 wherever the square lies | not executed | Polygons.AreaAsWrittenDependsOnPosition | Polygons.AreaUnderTranslation |
| src/neighborhood/ConfidenceZoneCooperativeBehavior.java:160 | the alignment comparator compares the first agent with itself, so every candidate ties and the next agent in the list is taken | three agents where the third is better aligned with the first than the second is: the first is paired with the second | each agent is paired with its most aligned remaining agent | not executed | ZoneCooperation.AsWrittenIgnoresAlignment | ZoneCooperation.FirstPairIsMostAligned |
| src/agent/crossValidation/CrossValidationAgent.java:299 | the agents are sorted by ascending confidence, so the least trusted come first | two eligible agents with confidences 0.2 and 0.9, at 50 %: the 0.2 agent is chosen | the most confident agents are chosen | not executed | CrossValidation.AsWrittenPicksLeastConfident | CrossValidation.MostConfidentAreMostTrusted |
| src/correlationFinder/CorrelationFinders.java:545-556 | `score` stays `Double.MAX_VALUE`, so every candidate passes and the last eligible one becomes the partner | series A = [0, 0], B = [0, 1], C = [0, 5] at sample 1: A is paired with C (distance 2.5) although B is at 0.5 | each sensor is paired with its nearest eligible sensor | not executed | CorrelationFinders.AsWrittenPairsWithLastCandidate | CorrelationFinders.RunningMinimumPairsWithNearest |

The classes and the tick follow the code as written: `AddAsWritten`, `UsedNeighborsAsWritten`, `AreaAsWritten`, `PairsAsWritten`, `MostConfidentAsWritten`, and the fixed score in `CorrelationFinders.SensorsPairsByContextSimilarity`. The corrected definitions `AddNewContext`, `UsedNeighbors`, `AreaOf`, `Pairs`, `MostConfident` and the running-minimum search stand beside them, with the intended property proved about each. `AddAsWrittenAgreesWithoutNaN` and `AreaAsWrittenOnClosedOutline` give the inputs on which the code as written and the corrected definition agree. `CorrelationFinders.RunningMinimumIsNearest` proves the corrected search for every input.
