/** The memory slice of the store: the chart's labels and percentages, the
    full samples behind them (used and total MB), the latest sample and the
    memory channel's connection status. */
module MemorySlice {
  import opened Js
  import opened Connection
  import opened Window

  /** One accepted reading. `usedMb` and `totalMemoryMb` come from
      `Number(x || 0)` and are NaN when the frame carried a non-numeric value. */
  datatype MemorySample = MemorySample(timestamp: string, percent: real, usedMb: Num, totalMemoryMb: Num)

  datatype MemoryState = MemoryState(
    labels: seq<string>,
    data: seq<real>,
    samples: seq<MemorySample>,
    latestSample: Option<MemorySample>,
    wsStatus: WsStatus)

  const Initial: MemoryState := MemoryState([], [], [], None, Disconnected)

  /** The chart lists and the sample list describe the same window of at most
      60 readings, position by position, and the latest sample is the last. */
  predicate Wellformed(s: MemoryState) {
    && |s.labels| == |s.data| == |s.samples| <= MaxDataPoints
    && (forall i :: 0 <= i < |s.samples| ==> s.labels[i] == s.samples[i].timestamp && s.data[i] == s.samples[i].percent)
    && s.latestSample == (if |s.samples| == 0 then None else Some(s.samples[|s.samples| - 1]))
  }

  /** The sample `addMemoryData` would build, or `None` when it ignores the
      frame: an empty timestamp or a percentage that converts to NaN. */
  function ReadSample(memoryUsage: Field, usedMb: Field, totalMemory: Field, timestamp: string): (r: Option<MemorySample>)
    ensures r.None? <==> timestamp == "" || ToNumber(memoryUsage).NaN?
    ensures r.Some? ==> r.value.timestamp == timestamp && Finite(r.value.percent) == ToNumber(memoryUsage)
    ensures r.Some? && !Truthy(usedMb) ==> r.value.usedMb == Finite(0.0)
    ensures r.Some? && !Truthy(totalMemory) ==> r.value.totalMemoryMb == Finite(0.0)
    ensures r.Some? && Truthy(usedMb) ==> r.value.usedMb == ToNumber(usedMb)
    ensures r.Some? && Truthy(totalMemory) ==> r.value.totalMemoryMb == ToNumber(totalMemory)
  {
    var percent := ToNumber(memoryUsage);
    if timestamp == "" || percent.NaN? then None
    else Some(MemorySample(timestamp, percent.value, ToNumber(OrZero(usedMb)), ToNumber(OrZero(totalMemory))))
  }

  /** `addMemoryData`: the sample list and the two chart lists each drop their
      oldest entry once they would exceed 60; the status becomes connected. */
  function AddMemoryData(s: MemoryState, memoryUsage: Field, usedMb: Field, totalMemory: Field, timestamp: string): (r: MemoryState)
    ensures ReadSample(memoryUsage, usedMb, totalMemory, timestamp).None? ==> r == s
    ensures ReadSample(memoryUsage, usedMb, totalMemory, timestamp).Some? ==>
      var x := ReadSample(memoryUsage, usedMb, totalMemory, timestamp).value;
      && r.samples == Push(s.samples, x)
      && r.labels == Push(s.labels, timestamp)
      && r.latestSample == Some(x)
      && r.wsStatus == Connected
  {
    match ReadSample(memoryUsage, usedMb, totalMemory, timestamp)
    case None => s
    case Some(x) =>
      var shift := |s.labels| + 1 > MaxDataPoints;
      MemoryState(Append(s.labels, timestamp, shift), Append(s.data, x.percent, shift),
                  Push(s.samples, x), Some(x), Connected)
  }

  /** `setWsStatus`. */
  function SetWsStatus(s: MemoryState, status: WsStatus): (r: MemoryState)
    ensures r.wsStatus == status && r.(wsStatus := s.wsStatus) == s
  {
    s.(wsStatus := status)
  }

  /** `clearMemoryData`: empties the chart and the samples, forgets the latest
      sample and leaves the status alone. */
  function ClearMemoryData(s: MemoryState): (r: MemoryState)
    ensures r.labels == [] && r.data == [] && r.samples == [] && r.latestSample.None?
    ensures r.wsStatus == s.wsStatus
  {
    MemoryState([], [], [], None, s.wsStatus)
  }

  lemma PushedWindowsAgree(s: MemoryState, x: MemorySample)
    requires Wellformed(s)
    ensures var shift := |s.labels| + 1 > MaxDataPoints;
      var labels, data, samples := Append(s.labels, x.timestamp, shift), Append(s.data, x.percent, shift), Push(s.samples, x);
      && |labels| == |data| == |samples| <= MaxDataPoints
      && forall i :: 0 <= i < |samples| ==> labels[i] == samples[i].timestamp && data[i] == samples[i].percent
  {
    var shift := |s.labels| + 1 > MaxDataPoints;
    var labels, data, samples := Append(s.labels, x.timestamp, shift), Append(s.data, x.percent, shift), Push(s.samples, x);
    forall i | 0 <= i < |samples| ensures labels[i] == samples[i].timestamp && data[i] == samples[i].percent {
      if shift {
        assert samples[i] == (s.samples + [x])[i + 1];
        assert labels[i] == (s.labels + [x.timestamp])[i + 1];
        assert data[i] == (s.data + [x.percent])[i + 1];
      } else {
        assert samples[i] == (s.samples + [x])[i];
        assert labels[i] == (s.labels + [x.timestamp])[i];
        assert data[i] == (s.data + [x.percent])[i];
      }
    }
  }

  /** Every action keeps the samples, labels and percentages in step, and
      the latest sample equal to the newest one in the window. */
  lemma WellformedKept(s: MemoryState, memoryUsage: Field, usedMb: Field, totalMemory: Field,
                                          timestamp: string, status: WsStatus)
    requires Wellformed(s)
    ensures Wellformed(AddMemoryData(s, memoryUsage, usedMb, totalMemory, timestamp))
    ensures Wellformed(SetWsStatus(s, status))
    ensures Wellformed(ClearMemoryData(s))
    ensures Wellformed(Initial)
  {
    var x := ReadSample(memoryUsage, usedMb, totalMemory, timestamp);
    if x.Some? {
      PushedWindowsAgree(s, x.value);
    }
  }
}
