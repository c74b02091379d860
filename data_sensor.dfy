/**
 * What every sensor offers the finders and agents (src/sensors/DataSensor.java):
 * a list of samples and a cursor into it.
 */
module DataSensors {
  import opened Wrappers
  import opened Numeric

  /**
   * getCurrentData(offset): the sample `offset` places before the cursor,
   * `data.get(idx - offset)`; the list lookup throws outside the data.
   */
  function ReadAt(data: seq<Double>, idx: int, offset: int): (r: Result<Double>)
    ensures r.Ok? <==> 0 <= idx - offset < |data|
    ensures r.Ok? ==> r.value == data[idx - offset]
  {
    if 0 <= idx - offset < |data| then Ok(data[idx - offset])
    else Err("IndexOutOfBoundsException")
  }

  /** Reading at offset k + 1 reads the sample just before the one at offset k. */
  lemma ReadAtShifts(data: seq<Double>, idx: int, k: int)
    requires ReadAt(data, idx, k + 1).Ok?
    ensures idx - k - 1 >= 0
    ensures ReadAt(data, idx - 1, k) == ReadAt(data, idx, k + 1)
  {
  }
}
