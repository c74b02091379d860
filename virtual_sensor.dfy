/**
 * The stand-in sensor of an agent without real hardware
 * (src/sensors/VirtualDataSensor.java): a growing list of samples, filled
 * with +infinity as samples arrive and overwritten by estimates, and a cursor
 * that moves independently of the list.
 */
module VirtualSensors {
  import opened Wrappers
  import opened Numeric
  import opened ContextInfos
  import opened ContextEntries
  import opened DataSensors

  /** Integer.MAX_VALUE, the sample count this sensor reports. */
  const IntMaxValue: int := 0x7fff_ffff

  /** setEstimation(v, index) as a list update: only position `index` changes. */
  function WithEstimation(data: seq<Double>, v: Double, index: int): (r: Result<seq<Double>>)
    ensures r.Ok? <==> 0 <= index < |data|
    ensures r.Ok? ==> |r.value| == |data| && r.value[index] == v
    ensures r.Ok? ==> forall j :: 0 <= j < |data| && j != index ==> r.value[j] == data[j]
  {
    if 0 <= index < |data| then Ok(data[index := v]) else Err("IndexOutOfBoundsException")
  }

  class VirtualDataSensor {
    var observedSampleId: nat
    var data: seq<Double>

    /** The constructor ignores its id and info: both stay null. */
    constructor (id: string, info: ContextInfo)
      ensures observedSampleId == 0 && data == []
    {
      observedSampleId := 0;
      data := [];
    }

    /** getID: the identifier field is never assigned, so always null. */
    function Id(): (r: Option<string>)
      ensures r.None?
    {
      None
    }

    /**
     * getSupportedInfo: a second getter over a field of another type that is
     * likewise never assigned, so it is null too and reads the same as Id.
     */
    function SupportedInfo(): (r: Option<ContextInfo>)
      ensures r.None?
    {
      None
    }

    /**
     * receiveData appends +infinity and returns an empty entry. The entry's
     * info is the null supported info, written NULL here.
     */
    method ReceiveData(now: int) returns (e: ContextEntry)
      modifies this
      ensures data == old(data) + [PosInf] && observedSampleId == old(observedSampleId)
      ensures e.isEmpty && !e.isEstimation && e.value.NaN?
    {
      data := data + [PosInf];
      e := Empty(NULL, now);
    }

    function SamplesCount(): (n: int)
      ensures n == IntMaxValue
    {
      IntMaxValue
    }

    function IsActive(): (b: bool)
      ensures b
    {
      true
    }

    /** turnOn and turnOff do nothing. */
    method TurnOn()
    {
    }

    method TurnOff()
    {
    }

    method NextSample()
      modifies this
      ensures observedSampleId == old(observedSampleId) + 1 && data == old(data)
    {
      observedSampleId := observedSampleId + 1;
    }

    method ResetDataIdx()
      modifies this
      ensures observedSampleId == 0 && data == old(data)
    {
      observedSampleId := 0;
    }

    /** getCurrentData(): the last sample, whatever the cursor. */
    method GetLastData() returns (r: Result<Double>)
      ensures r.Ok? <==> |data| > 0
      ensures r.Ok? ==> r.value == data[|data| - 1]
    {
      if |data| == 0 {
        return Err("IndexOutOfBoundsException");
      }
      r := Ok(data[|data| - 1]);
    }

    method GetCurrentData(offset: int) returns (r: Result<Double>)
      ensures r == ReadAt(data, observedSampleId, offset)
    {
      r := ReadAt(data, observedSampleId, offset);
    }

    method SetEstimation(v: Double, index: int) returns (r: Result<()>)
      modifies this
      ensures r.Ok? <==> WithEstimation(old(data), v, index).Ok?
      ensures r.Ok? ==> data == WithEstimation(old(data), v, index).value
      ensures r.Err? ==> data == old(data)
      ensures observedSampleId == old(observedSampleId)
    {
      var w := WithEstimation(data, v, index);
      if w.Err? {
        return Err(w.error);
      }
      data := w.value;
      r := Ok(());
    }

    /** getObservedData: the whole list, independent of the cursor. */
    method GetObservedData() returns (r: seq<Double>)
      ensures r == data
    {
      r := data;
    }
  }

  /** Overwriting an estimate and reading it back at the same position gives the estimate. */
  lemma EstimationReadsBack(data: seq<Double>, v: Double, idx: int, offset: int)
    requires 0 <= idx - offset < |data|
    ensures WithEstimation(data, v, idx - offset).Ok?
    ensures ReadAt(WithEstimation(data, v, idx - offset).value, idx, offset) == Ok(v)
  {
  }

  /** An estimate at one position leaves every other reading alone. */
  lemma EstimationIsLocal(data: seq<Double>, v: Double, index: int, idx: int, offset: int)
    requires 0 <= index < |data| && idx - offset != index
    ensures ReadAt(WithEstimation(data, v, index).value, idx, offset) == ReadAt(data, idx, offset)
  {
  }
}
