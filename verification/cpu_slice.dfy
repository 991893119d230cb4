/** The CPU slice of the store: the chart's labels and values, a window of
    the last 60 samples, and the CPU channel's connection status. */
module CpuSlice {
  import opened Js
  import opened Connection
  import opened Window

  /** `labels` are sample timestamps; `data` the matching CPU percentages
      (the chart's single dataset). */
  datatype CpuState = CpuState(labels: seq<string>, data: seq<real>, wsStatus: WsStatus)

  const Initial: CpuState := CpuState([], [], Disconnected)

  /** Labels and values pair up, and the window holds at most 60 of them. */
  predicate Wellformed(s: CpuState) {
    |s.labels| == |s.data| <= MaxDataPoints
  }

  /** `addCpuData`: a missing (`null`/`undefined`) value or an empty timestamp
      is ignored; otherwise the sample is appended, both lists drop their
      oldest entry once the labels would exceed 60, and the status becomes
      connected. */
  function AddCpuData(s: CpuState, cpu: Option<real>, timestamp: string): (r: CpuState)
    ensures cpu.None? || timestamp == "" ==> r == s
    ensures cpu.Some? && timestamp != "" ==>
      && r.wsStatus == Connected
      && r.labels == Push(s.labels, timestamp)
      && (|s.data| == |s.labels| ==> |r.data| == |r.labels| && r.data[|r.data| - 1] == cpu.value)
  {
    if cpu.None? || timestamp == "" then s
    else
      var shift := |s.labels| + 1 > MaxDataPoints;
      CpuState(Append(s.labels, timestamp, shift), Append(s.data, cpu.value, shift), Connected)
  }

  /** `setWsStatus`. */
  function SetWsStatus(s: CpuState, status: WsStatus): (r: CpuState)
    ensures r.wsStatus == status && r.labels == s.labels && r.data == s.data
  {
    s.(wsStatus := status)
  }

  /** `clearCpuData`: empties the chart and leaves the status alone. */
  function ClearCpuData(s: CpuState): (r: CpuState)
    ensures r.labels == [] && r.data == [] && r.wsStatus == s.wsStatus
  {
    CpuState([], [], s.wsStatus)
  }

  /** Every action keeps labels and values paired and within the window. */
  lemma WellformedKept(s: CpuState, cpu: Option<real>, timestamp: string, status: WsStatus)
    requires Wellformed(s)
    ensures Wellformed(AddCpuData(s, cpu, timestamp))
    ensures Wellformed(SetWsStatus(s, status))
    ensures Wellformed(ClearCpuData(s))
    ensures Wellformed(Initial)
  {
  }

  /** On a well-formed slice the values window moves exactly like the labels
      window: the values are pushed through the same bounded window. */
  lemma AddCpuDataPushesValue(s: CpuState, cpu: real, timestamp: string)
    requires Wellformed(s) && timestamp != ""
    ensures AddCpuData(s, Some(cpu), timestamp).data == Push(s.data, cpu)
  {
  }

  /** Feeds valid samples, oldest first. */
  function Feed(s: CpuState, values: seq<real>, timestamp: string): CpuState
    decreases |values|
  {
    if |values| == 0 then s
    else Feed(AddCpuData(s, Some(values[0]), timestamp), values[1..], timestamp)
  }

  lemma {:induction false} FeedPushesAll(s: CpuState, values: seq<real>, timestamp: string)
    requires Wellformed(s) && timestamp != ""
    ensures Feed(s, values, timestamp).data == PushAll(s.data, values)
    ensures Wellformed(Feed(s, values, timestamp))
    decreases |values|
  {
    if |values| > 0 {
      var next := AddCpuData(s, Some(values[0]), timestamp);
      AddCpuDataPushesValue(s, values[0], timestamp);
      WellformedKept(s, Some(values[0]), timestamp, s.wsStatus);
      FeedPushesAll(next, values[1..], timestamp);
    }
  }

  /** After a clear, the chart holds exactly the last 60 values fed to it. */
  lemma ClearThenFeedKeepsLast(s: CpuState, values: seq<real>, timestamp: string)
    requires timestamp != ""
    ensures Feed(ClearCpuData(s), values, timestamp).data == Last(values, MaxDataPoints)
  {
    FeedPushesAll(ClearCpuData(s), values, timestamp);
    PushAllIsLast([], values);
    assert [] + values == values;
  }
}
