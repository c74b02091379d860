/**
 * The fixed-width context finder
 * (src/context/dynamicContext/FixedWidthContextFinder.java): the last
 * CONTEXT_SIZE samples up to the cursor, oldest first.
 */
module FixedWidthFinders {
  import opened Wrappers
  import opened Numeric
  import opened Seqs
  import opened ContextInfos
  import opened ContextEntries
  import opened Contexts
  import opened DataSensors

  const ContextSize: nat := 10

  /** The number of samples the finder collects: min(CONTEXT_SIZE, currentIdx), none when currentIdx <= 0. */
  function WindowSize(currentIdx: int): (n: nat)
    ensures n <= ContextSize
    ensures n == 0 <==> currentIdx <= 0
    ensures currentIdx > 0 ==> n == if currentIdx < ContextSize then currentIdx else ContextSize
  {
    if currentIdx <= 0 then 0 else if currentIdx < ContextSize then currentIdx else ContextSize
  }

  /**
   * The values the finder reads: the window of samples ending at the cursor,
   * or the out-of-range failure of its first (newest) read.
   */
  function WindowValues(data: seq<Double>, currentIdx: int): (r: Result<seq<Double>>)
    ensures r.Err? <==> WindowSize(currentIdx) > 0 && currentIdx >= |data|
    ensures r.Ok? ==> |r.value| == WindowSize(currentIdx)
    ensures r.Ok? ==> forall k :: 0 <= k < |r.value| ==>
      ReadAt(data, currentIdx, |r.value| - 1 - k) == Ok(r.value[k])
    ensures r.Ok? && |r.value| > 0 ==> r.value[|r.value| - 1] == data[currentIdx]
  {
    var n := WindowSize(currentIdx);
    if n == 0 then Ok([])
    else if currentIdx >= |data| then Err("IndexOutOfBoundsException")
    else Ok(data[currentIdx - n + 1 .. currentIdx + 1])
  }

  /**
   * getContext: reads the samples at offsets 0, 1, ... from the cursor and
   * pushes each one to the front, until CONTEXT_SIZE entries are held or the
   * start of the data is reached.
   */
  method GetContext(owner: AgentId, info: ContextInfo, data: seq<Double>, currentIdx: int, now: int) returns (r: Result<Context>)
    ensures r.Err? <==> WindowValues(data, currentIdx).Err?
    ensures r.Ok? ==> fresh(r.value) && r.value.owner == owner && r.value.info == info && r.value.finalDataIdx == 0
    ensures r.Ok? ==> ValuesOf(r.value.entries) == WindowValues(data, currentIdx).value
    ensures r.Ok? ==> forall k :: 0 <= k < |r.value.entries| ==>
      r.value.entries[k] == FromValue(info, now, r.value.entries[k].value)
  {
    var ctx := new Context(owner, info);
    var n := WindowSize(currentIdx);
    var i := 0;
    while |ctx.entries| < ContextSize && currentIdx - i > 0
      invariant 0 <= i <= n && |ctx.entries| == i
      invariant ctx.owner == owner && ctx.info == info && ctx.finalDataIdx == 0
      invariant i > 0 ==> currentIdx < |data|
      invariant forall k :: 0 <= k < i ==> ctx.entries[k] == FromValue(info, now, data[currentIdx - (i - 1 - k)])
      decreases ContextSize - i
    {
      var v := ReadAt(data, currentIdx, i);
      if v.Err? {
        return Err(v.error);
      }
      var entry := FromValue(info, now, v.value);
      assert Reverse([entry]) == [entry];
      ctx.ForceAddFirst([entry]);
      i := i + 1;
    }
    r := Ok(ctx);
    var w := WindowValues(data, currentIdx);
    if n > 0 {
      assert ValuesOf(ctx.entries) == w.value by {
        forall k | 0 <= k < n
          ensures ValuesOf(ctx.entries)[k] == w.value[k]
        {
        }
      }
    }
  }

  /** The window holds the newest sample last and each sample after its predecessor in the data. */
  lemma WindowIsChronological(data: seq<Double>, currentIdx: int, k: nat)
    requires WindowValues(data, currentIdx).Ok? && k + 1 < |WindowValues(data, currentIdx).value|
    ensures var w := WindowValues(data, currentIdx).value;
      exists j :: 0 <= j && j + 1 < |data| && w[k] == data[j] && w[k + 1] == data[j + 1]
  {
    var w := WindowValues(data, currentIdx).value;
    var j := currentIdx - (|w| - 1 - k);
    assert ReadAt(data, currentIdx, |w| - 1 - k) == Ok(w[k]);
    assert ReadAt(data, currentIdx, |w| - 1 - (k + 1)) == Ok(w[k + 1]);
    assert w[k] == data[j] && w[k + 1] == data[j + 1];
  }

  /** Past the first CONTEXT_SIZE samples the window is always full. */
  lemma FullWindowLater(data: seq<Double>, currentIdx: int)
    requires ContextSize <= currentIdx < |data|
    ensures WindowValues(data, currentIdx).Ok? && |WindowValues(data, currentIdx).value| == ContextSize
  {
  }
}
