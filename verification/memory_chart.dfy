/** The memory chart: how its socket frames become store actions, how the
    latest percentage is graded, and how a megabyte figure is rendered. */
module MemoryChart {
  import opened Js
  import opened Frames
  import opened Store
  import opened Gauge
  import MemorySlice

  /** The frame reaches the reducer: monitoring was on at the last commit,
      the frame parsed to something other than `null`, and it does not
      switch monitoring off. */
  predicate Forwards(monitoringRef: bool, frame: Frame) {
    monitoringRef && !frame.Unparsable? && !frame.NullValue? && !Disables(frame)
  }

  /** `onMessage` of the memory socket. Flag handling is as in the CPU chart;
      past it, while the ref is on, the frame's four fields go to
      `addMemoryData` unchecked (a non-object frame has none of them), and
      the reducer decides whether they make a sample. */
  function OnMessage(monitoringRef: bool, frame: Frame): (r: seq<Action>)
    ensures Disables(frame) ==> r == [SetMonitoringEnabled(false), ClearMemoryData]
    ensures frame.Unparsable? || frame.NullValue? ==> r == []
    ensures (exists a :: a in r && a.AddMemoryData?) <==> Forwards(monitoringRef, frame)
    ensures Forwards(monitoringRef, frame) && frame.ObjectValue? ==>
      r[|r| - 1] == AddMemoryData(frame.memoryUsage, frame.usedMb, frame.totalMemory, frame.timestamp)
    ensures Forwards(monitoringRef, frame) && !frame.ObjectValue? && !frame.Empty? ==>
      r == [AddMemoryData(Missing, Missing, Missing, "")]
    ensures ClearMemoryData in r <==> Disables(frame)
    ensures SetMonitoringEnabled(true) in r <==> Enables(frame)
    ensures forall a :: a in r ==> a.SetMonitoringEnabled? || a.ClearMemoryData? || a.AddMemoryData?
  {
    var msg := if frame.Empty? then EmptyObject else frame;
    match msg
    case Unparsable => []
    case NullValue => []
    case ObjectValue(flag, _, usage, used, total, timestamp) =>
      var announced := if flag.Some? then [SetMonitoringEnabled(flag.value)] else [];
      if flag == Some(false) then announced + [ClearMemoryData]
      else if !monitoringRef then announced
      else
        var add := AddMemoryData(usage, used, total, timestamp);
        assert add in announced + [add];
        announced + [add]
    case Empty => []
    case ScalarValue | ArrayValue(_) =>
      var add := AddMemoryData(Missing, Missing, Missing, "");
      assert add in [add];
      if monitoringRef then [add] else []
  }

  /** A frame the reducer sees only as far as `addMemoryData` lets it: a
      non-object frame, or one without a timestamp or a numeric percentage,
      leaves the chart as it was. */
  lemma ForwardedGarbageIgnored(s: StoreState, monitoringRef: bool, frame: Frame)
    requires !frame.ObjectValue? || frame.timestamp == "" || ToNumber(frame.memoryUsage).NaN?
    requires !Disables(frame)
    ensures DispatchAll(s, OnMessage(monitoringRef, frame)).memory == s.memory
  {
    var msg := if frame.Empty? then EmptyObject else frame;
    var r := OnMessage(monitoringRef, frame);
    if msg.ObjectValue? && msg.flag.Some? {
      if monitoringRef {
        DispatchTwo(s, r[0], r[1]);
      } else {
        DispatchOne(s, r[0]);
      }
    } else if |r| == 1 {
      DispatchOne(s, r[0]);
    }
  }

  /** `getStatusColor`: strict thresholds at 85 and 65. */
  function StatusColour(percent: real): (r: Colour)
    ensures r == Red <==> percent > 85.0
    ensures r == Orange <==> 65.0 < percent <= 85.0
    ensures r == Green <==> percent <= 65.0
  {
    if percent > 85.0 then Red else if percent > 65.0 then Orange else Green
  }

  /** `getStatusText`: inclusive thresholds at 85, 65 and 40. */
  function StatusLevel(percent: real): (r: Level)
    ensures r == Critical <==> percent >= 85.0
    ensures r == High <==> 65.0 <= percent < 85.0
    ensures r == Medium <==> 40.0 <= percent < 65.0
    ensures r == Low <==> percent < 40.0
  {
    if percent >= 85.0 then Critical else if percent >= 65.0 then High else if percent >= 40.0 then Medium else Low
  }

  /** At the exact thresholds the text has moved up a tier while the colour
      has not; strictly above them both agree. */
  lemma ThresholdsDisagree()
    ensures StatusLevel(85.0) == Critical && StatusColour(85.0) == Orange
    ensures StatusLevel(65.0) == High && StatusColour(65.0) == Green
    ensures forall p :: StatusColour(p) == Red ==> StatusLevel(p) == Critical
    ensures forall p :: StatusColour(p) == Orange ==> StatusLevel(p) in {High, Critical}
  {
  }

  /** `Math.round`: the nearest integer, halves rounded up. */
  function Round(x: real): (r: int)
    ensures r as real - 0.5 <= x < r as real + 0.5
  {
    (x + 0.5).Floor
  }

  /** A rendered megabyte figure: a dash, gigabytes (the number before
      `toFixed`), or whole megabytes, where `None` is the text 'NaN'. */
  datatype MemoryText = Dash | Gigabytes(gb: real) | Megabytes(mb: Option<int>)

  /** `formatMemoryValue` of the chart: `null`/`undefined` is a dash, 1024 MB
      and more are shown in GB, anything else as rounded MB, NaN included. */
  function FormatMemoryValue(value: Option<Num>): (r: MemoryText)
    ensures value.None? <==> r.Dash?
    ensures r.Gigabytes? <==> value.Some? && value.value.Finite? && value.value.value >= 1024.0
    ensures r.Gigabytes? ==> r.gb * 1024.0 == value.value.value && r.gb >= 1.0
    ensures value == Some(NaN) ==> r == Megabytes(None)
    ensures r.Megabytes? && r.mb.Some? ==> r.mb.value as real - 0.5 <= value.value.value < r.mb.value as real + 0.5
  {
    match value
    case None => Dash
    case Some(NaN) => Megabytes(None)
    case Some(Finite(v)) => if v >= 1024.0 then Gigabytes(v / 1024.0) else Megabytes(Some(Round(v)))
  }
}
