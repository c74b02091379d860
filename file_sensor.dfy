/**
 * A sensor replaying one line of a data set (src/sensors/FileDataSensor.java).
 * The file is given as its lines, each already split into columns; reading the
 * file and splitting on the separator are not modelled.
 */
module FileSensors {
  import opened Wrappers
  import opened Numeric
  import opened ContextInfos
  import opened ContextEntries
  import opened DataSensors

  /** Column holding the name of the information (MASConfig.DATA_TYPE_NAME_COLUMN). */
  const DataTypeNameColumn: nat := 1
  /** First column holding a sample (MASConfig.DATA_START_COLUMN). */
  const DataStartColumn: nat := 2

  /** Every sample column parses as a double. */
  predicate AllParse(words: seq<string>, parse: string -> Option<Double>)
  {
    forall j :: DataStartColumn <= j < |words| ==> parse(words[j]).Some?
  }

  /**
   * Double.parseDouble on the columns from DataStartColumn on; `parse` gives
   * None where parseDouble throws NumberFormatException, and then the whole
   * line fails.
   */
  function Parsed(words: seq<string>, parse: string -> Option<Double>): (r: Result<seq<Double>>)
    requires |words| >= DataStartColumn
    ensures r.Ok? <==> AllParse(words, parse)
    ensures r.Ok? ==> |r.value| == |words| - DataStartColumn
    ensures r.Ok? ==> forall j :: 0 <= j < |r.value| ==> parse(words[DataStartColumn + j]) == Some(r.value[j])
  {
    if AllParse(words, parse) then
      Ok(seq(|words| - DataStartColumn, j requires 0 <= j < |words| - DataStartColumn => parse(words[DataStartColumn + j]).value))
    else Err("NumberFormatException")
  }

  /**
   * What the loop of getNew does with one line: skip it (Ok(None)) when its
   * trimmed first column is not the agent or its information is another one,
   * take its samples (Ok(Some(..))) when both match, and fail when the line is
   * too short, names no known information or has a sample that is not a number.
   */
  function LineData(words: seq<string>, info: ContextInfo, agentId: string, parse: string -> Option<Double>): (r: Result<Option<seq<Double>>>)
    requires |words| > 0
    ensures r == Ok(None) <==>
      Trim(words[0]) != Trim(agentId) ||
      (|words| >= DataStartColumn && FromString(Trim(words[DataTypeNameColumn])).Ok? &&
       FromString(Trim(words[DataTypeNameColumn])).value != info)
    ensures r.Ok? && r.value.Some? <==>
      Trim(words[0]) == Trim(agentId) && |words| >= DataStartColumn &&
      FromString(Trim(words[DataTypeNameColumn])) == Ok(info) && AllParse(words, parse)
    ensures r.Ok? && r.value.Some? ==> Parsed(words, parse) == Ok(r.value.value)
  {
    if Trim(words[0]) != Trim(agentId) then Ok(None)
    else if |words| < DataStartColumn then Err("IllegalArgumentException: line too short")
    else
      var inf := FromString(Trim(words[DataTypeNameColumn]));
      if inf.Err? then Err(inf.error)
      else if inf.value != info then Ok(None)
      else
        match Parsed(words, parse)
        case Err(e) => Err(e)
        case Ok(v) => Ok(Some(v))
  }

  /** The outcome of the getNew loop from line k on: the first line that is taken or fails decides. */
  function SelectFrom(lines: seq<seq<string>>, info: ContextInfo, agentId: string, parse: string -> Option<Double>, k: nat): (r: Result<seq<Double>>)
    requires k <= |lines| && forall i :: 0 <= i < |lines| ==> |lines[i]| > 0
    ensures r.Ok? ==> exists i :: (k <= i < |lines| && LineData(lines[i], info, agentId, parse) == Ok(Some(r.value)) &&
                                   forall j :: k <= j < i ==> LineData(lines[j], info, agentId, parse) == Ok(None))
    ensures (forall j :: k <= j < |lines| ==> LineData(lines[j], info, agentId, parse) == Ok(None)) ==> r.Err?
    decreases |lines| - k
  {
    if k == |lines| then Err("IllegalArgumentException: no data found for sensor")
    else
      var d := LineData(lines[k], info, agentId, parse);
      if d.Err? then Err(d.error)
      else if d.value.Some? then Ok(d.value.value)
      else SelectFrom(lines, info, agentId, parse, k + 1)
  }

  /**
   * getNew without the file: it fails when a line has no column at all, when
   * no line's (untrimmed) first column is the agent, and otherwise returns the
   * samples of the selected line.
   */
  function SelectData(lines: seq<seq<string>>, info: ContextInfo, agentId: string, parse: string -> Option<Double>): (r: Result<seq<Double>>)
    ensures (exists i :: 0 <= i < |lines| && |lines[i]| == 0) ==> r.Err?
    ensures (forall i :: 0 <= i < |lines| ==> |lines[i]| > 0 && lines[i][0] != agentId) ==> r.Err?
  {
    if exists i :: 0 <= i < |lines| && |lines[i]| == 0 then Err("ArrayIndexOutOfBoundsException")
    else if forall i :: 0 <= i < |lines| ==> lines[i][0] != agentId then
      Err("IllegalArgumentException: sensor has not been found")
    else SelectFrom(lines, info, agentId, parse, 0)
  }

  /** The selected samples come from a line of the agent and of the requested information. */
  lemma SelectedLineMatches(lines: seq<seq<string>>, info: ContextInfo, agentId: string, parse: string -> Option<Double>)
    requires SelectData(lines, info, agentId, parse).Ok?
    ensures exists i :: (0 <= i < |lines| && |lines[i]| >= DataStartColumn &&
                         Trim(lines[i][0]) == Trim(agentId) && FromString(Trim(lines[i][DataTypeNameColumn])) == Ok(info) &&
                         Parsed(lines[i], parse) == Ok(SelectData(lines, info, agentId, parse).value))
  {
    SelectDataScans(lines, info, agentId, parse);
    var r := SelectFrom(lines, info, agentId, parse, 0);
    var i :| 0 <= i < |lines| && LineData(lines[i], info, agentId, parse) == Ok(Some(r.value)) &&
      forall j :: 0 <= j < i ==> LineData(lines[j], info, agentId, parse) == Ok(None);
    TakenLine(lines[i], info, agentId, parse, r.value);
  }

  /** A line that is taken is the agent's, long enough, of the requested information, and yields its parsed samples. */
  lemma TakenLine(words: seq<string>, info: ContextInfo, agentId: string, parse: string -> Option<Double>, v: seq<Double>)
    requires |words| > 0 && LineData(words, info, agentId, parse) == Ok(Some(v))
    ensures |words| >= DataStartColumn && Trim(words[0]) == Trim(agentId)
    ensures FromString(Trim(words[DataTypeNameColumn])) == Ok(info) && Parsed(words, parse) == Ok(v)
  {
  }

  /** The loop of getNew over the lines, stopping at the first line it takes. */
  method FindData(lines: seq<seq<string>>, info: ContextInfo, agentId: string, parse: string -> Option<Double>) returns (r: Result<seq<Double>>)
    requires forall i :: 0 <= i < |lines| ==> |lines[i]| > 0
    ensures r == SelectFrom(lines, info, agentId, parse, 0)
  {
    var lineIdx := 0;
    while lineIdx < |lines|
      invariant 0 <= lineIdx <= |lines|
      invariant SelectFrom(lines, info, agentId, parse, lineIdx) == SelectFrom(lines, info, agentId, parse, 0)
    {
      var d := LineData(lines[lineIdx], info, agentId, parse);
      if d.Err? {
        return Err(d.error);
      }
      if d.value.Some? {
        return Ok(d.value.value);
      }
      lineIdx := lineIdx + 1;
    }
    r := Err("IllegalArgumentException: no data found for sensor");
  }

  /** Arrays.copyOfRange(data, 0, idx): the first idx samples, padded with zeros past the end. */
  function Observed(data: seq<Double>, idx: nat): (r: seq<Double>)
    ensures |r| == idx
    ensures forall j :: 0 <= j < idx ==> r[j] == if j < |data| then data[j] else Finite(0.0)
  {
    if idx <= |data| then data[..idx]
    else data + seq(idx - |data|, _ => Finite(0.0))
  }

  /**
   * receiveData on a sensor state: EOF at or past the end; with a test-set
   * mask the sensor is switched off at masked indices and on elsewhere; a
   * sensor that is off yields an empty entry. The second component is the
   * new `active` flag.
   */
  function Received(info: ContextInfo, data: seq<Double>, idx: nat, active: bool, mask: Option<seq<bool>>, now: int): (r: (Result<ContextEntry>, bool))
    ensures idx >= |data| ==> r.0.Err? && r.1 == active
    ensures idx < |data| && mask.Some? && idx < |mask.value| ==>
      r.1 == !mask.value[idx] && r.0.Ok? && (r.0.value.isEmpty <==> mask.value[idx] || !IsFinite(data[idx]))
    ensures idx < |data| && mask.None? ==>
      r.1 == active && r.0.Ok? && (r.0.value.isEmpty <==> !active || !IsFinite(data[idx]))
    ensures r.0.Ok? ==> r.0.value.info == info && !r.0.value.isEstimation && WellFormed(r.0.value)
    ensures r.0.Ok? && r.1 ==> r.0.value.value == data[idx]
  {
    if idx >= |data| then (Err("EOFException: Reached EOF."), active)
    else if mask.Some? && idx >= |mask.value| then (Err("ArrayIndexOutOfBoundsException"), active)
    else
      var on := if mask.Some? then !mask.value[idx] else active;
      (Ok(if on then FromValue(info, now, data[idx]) else Empty(info, now)), on)
  }

  /** The mask is consulted: a sample is left and the mask covers it. */
  predicate MaskApplies(data: seq<Double>, idx: nat, mask: Option<seq<bool>>)
  {
    idx < |data| && mask.Some? && idx < |mask.value|
  }

  /** The turnOn or turnOff of every sensor of the box. */
  method SwitchAll(box: seq<FileDataSensor>, on: bool)
    modifies set s | s in box
    ensures forall s :: s in box ==> s.active == on
    ensures forall s :: s in box ==> s.data == old(s.data) && s.dataIdx == old(s.dataIdx) && s.testSet == old(s.testSet)
  {
    var i := 0;
    while i < |box|
      invariant 0 <= i <= |box|
      invariant forall k :: 0 <= k < i ==> box[k].active == on
      invariant forall s :: s in box ==> s.data == old(s.data) && s.dataIdx == old(s.dataIdx) && s.testSet == old(s.testSet)
    {
      if on {
        box[i].TurnOn();
      } else {
        box[i].TurnOff();
      }
      i := i + 1;
    }
  }

  class FileDataSensor {
    const info: ContextInfo
    const id: string
    var data: seq<Double>
    var dataIdx: nat
    var active: bool
    var testSet: Option<seq<bool>>

    /** The sensor getNew builds: cursor at 0, active, no test-set mask. */
    constructor (info: ContextInfo, id: string, data: seq<Double>)
      ensures this.info == info && this.id == id && this.data == data
      ensures dataIdx == 0 && active && testSet.None?
    {
      this.info := info;
      this.id := id;
      this.data := data;
      dataIdx := 0;
      active := true;
      testSet := None;
    }

    function SamplesCount(): (n: nat)
      reads this
      ensures n == |data|
    {
      |data|
    }

    /**
     * receiveData. `box` holds the sensors of the ambient agents named like
     * this sensor's agent (its "sensor box"): whenever the test-set mask
     * switches this sensor off or on, each of them is switched the same way.
     */
    method ReceiveData(now: int, box: seq<FileDataSensor>) returns (r: Result<ContextEntry>)
      modifies this, set s | s in box
      ensures (r, active) == Received(info, old(data), old(dataIdx), old(active), old(testSet), now)
      ensures data == old(data) && dataIdx == old(dataIdx) && testSet == old(testSet)
      ensures forall s :: s in box ==>
                s.active == (if MaskApplies(old(data), old(dataIdx), old(testSet)) then active else old(s.active))
      ensures forall s :: s in box ==> s.data == old(s.data) && s.dataIdx == old(s.dataIdx) && s.testSet == old(s.testSet)
    {
      var res := Received(info, data, dataIdx, active, testSet, now);
      var applies := MaskApplies(data, dataIdx, testSet);
      r, active := res.0, res.1;
      if applies {
        SwitchAll(box, res.1);
      }
    }

    method NextSample()
      modifies this
      ensures dataIdx == old(dataIdx) + 1
      ensures data == old(data) && active == old(active) && testSet == old(testSet)
    {
      dataIdx := dataIdx + 1;
    }

    method ResetDataIdx()
      modifies this
      ensures dataIdx == 0
      ensures data == old(data) && active == old(active) && testSet == old(testSet)
    {
      dataIdx := 0;
    }

    method GetCurrentData(offset: int) returns (r: Result<Double>)
      ensures r == ReadAt(data, dataIdx, offset)
    {
      r := ReadAt(data, dataIdx, offset);
    }

    method GetObservedData() returns (r: seq<Double>)
      ensures r == Observed(data, dataIdx)
    {
      r := Observed(data, dataIdx);
    }

    method TurnOn()
      modifies this
      ensures active && data == old(data) && dataIdx == old(dataIdx) && testSet == old(testSet)
    {
      active := true;
    }

    method TurnOff()
      modifies this
      ensures !active && data == old(data) && dataIdx == old(dataIdx) && testSet == old(testSet)
    {
      active := false;
    }

    method SetTestSet(mask: Option<seq<bool>>)
      modifies this
      ensures testSet == mask && data == old(data) && dataIdx == old(dataIdx) && active == old(active)
    {
      testSet := mask;
    }
  }

  /**
   * getNew: the sensor over the selected line, or the failure of the
   * selection.
   */
  method GetNew(info: ContextInfo, lines: seq<seq<string>>, agentId: string, parse: string -> Option<Double>) returns (r: Result<FileDataSensor>)
    ensures r.Ok? ==> fresh(r.value) && SelectData(lines, info, agentId, parse) == Ok(r.value.data)
    ensures r.Ok? ==> r.value.info == info && r.value.id == agentId && r.value.dataIdx == 0 && r.value.active
    ensures r.Err? <==> SelectData(lines, info, agentId, parse).Err?
  {
    var d := ReadSensorData(lines, info, agentId, parse);
    if d.Err? {
      return Err(d.error);
    }
    var s := new FileDataSensor(info, agentId, d.value);
    r := Ok(s);
  }

  /** The reading part of getNew: the identifier checks, then the line scan. */
  method ReadSensorData(lines: seq<seq<string>>, info: ContextInfo, agentId: string, parse: string -> Option<Double>)
    returns (r: Result<seq<Double>>)
    ensures r == SelectData(lines, info, agentId, parse)
  {
    if exists i :: 0 <= i < |lines| && |lines[i]| == 0 {
      return Err("ArrayIndexOutOfBoundsException");
    }
    if forall i :: 0 <= i < |lines| ==> lines[i][0] != agentId {
      return Err("IllegalArgumentException: sensor has not been found");
    }
    SelectDataScans(lines, info, agentId, parse);
    r := FindData(lines, info, agentId, parse);
  }

  /** Once every line has an identifier and one of them is the agent's, the selection is the line scan. */
  lemma SelectDataScans(lines: seq<seq<string>>, info: ContextInfo, agentId: string, parse: string -> Option<Double>)
    requires forall i :: 0 <= i < |lines| ==> |lines[i]| > 0
    requires !(forall i :: 0 <= i < |lines| ==> lines[i][0] != agentId)
    ensures SelectData(lines, info, agentId, parse) == SelectFrom(lines, info, agentId, parse, 0)
  {
  }

  /**
   * A sample that is not a number fails the selection: when every line
   * before the agent's line of the requested information is skipped and
   * that line has a column parseDouble rejects, getNew throws.
   */
  lemma UnparsableSampleFails(lines: seq<seq<string>>, info: ContextInfo, agentId: string, parse: string -> Option<Double>, i: nat)
    requires forall k :: 0 <= k < |lines| ==> |lines[k]| > 0
    requires i < |lines| && lines[i][0] == agentId && |lines[i]| >= DataStartColumn
    requires FromString(Trim(lines[i][DataTypeNameColumn])) == Ok(info) && !AllParse(lines[i], parse)
    requires forall j :: 0 <= j < i ==> LineData(lines[j], info, agentId, parse) == Ok(None)
    ensures SelectData(lines, info, agentId, parse).Err?
  {
    SelectDataScans(lines, info, agentId, parse);
    SkippedLines(lines, info, agentId, parse, 0, i);
  }

  /** Skipped lines do not change the outcome of the scan. */
  lemma {:induction false} SkippedLines(lines: seq<seq<string>>, info: ContextInfo, agentId: string, parse: string -> Option<Double>, k: nat, i: nat)
    requires forall j :: 0 <= j < |lines| ==> |lines[j]| > 0
    requires k <= i <= |lines|
    requires forall j :: k <= j < i ==> LineData(lines[j], info, agentId, parse) == Ok(None)
    ensures SelectFrom(lines, info, agentId, parse, k) == SelectFrom(lines, info, agentId, parse, i)
    decreases i - k
  {
    if k < i {
      var d := LineData(lines[k], info, agentId, parse);
      assert d == Ok(None);
      assert SelectFrom(lines, info, agentId, parse, k) == SelectFrom(lines, info, agentId, parse, k + 1);
      SkippedLines(lines, info, agentId, parse, k + 1, i);
    }
  }

  /** A sensor past its last sample keeps failing with EOF, however often it is read. */
  lemma EndOfFileIsPermanent(info: ContextInfo, data: seq<Double>, idx: nat, active: bool, mask: Option<seq<bool>>, now: int)
    requires idx >= |data|
    ensures Received(info, data, idx, active, mask, now).0.Err?
    ensures Received(info, data, idx + 1, active, mask, now).0.Err?
  {
  }

  /** The observed data grows by the current sample when the cursor moves on inside the data. */
  lemma ObservedGrows(data: seq<Double>, idx: nat)
    requires idx < |data|
    ensures Observed(data, idx + 1) == Observed(data, idx) + [data[idx]]
  {
  }
}
