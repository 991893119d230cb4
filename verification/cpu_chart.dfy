/** The CPU chart: how its socket frames become store actions, and how the
    latest value is graded for display. */
module CpuChart {
  import opened Js
  import opened Frames
  import opened Store
  import opened Connection
  import Window
  import CpuSlice
  import opened Gauge

  /** The frame carries a sample the chart takes: monitoring was on at the
      last commit, the frame does not switch it off, `cpu` is a number and
      the timestamp is non-empty. */
  predicate Accepts(monitoringRef: bool, frame: Frame) {
    monitoringRef && frame.ObjectValue? && !Disables(frame) && frame.cpu.Number? && frame.timestamp != ""
  }

  /** The actions one frame dispatches, and the load forwarded to the
      desktop shell, if any. */
  datatype Reaction = Reaction(actions: seq<Action>, forwarded: Option<real>)

  /** `onMessage` of the CPU socket. `monitoringRef` is the enabled flag the
      chart saw at its last commit; `hasShell` says whether the desktop shell
      exposes `sendCpuLoad`. A frame that announces the flag dispatches it;
      one that announces "off" also clears the chart and stops. Otherwise a
      sample is appended only while the ref is on, and only with a numeric
      `cpu` and a non-empty timestamp. Unparsable and `null` frames (the
      latter throws on the field access) are swallowed. */
  function OnMessage(monitoringRef: bool, frame: Frame, hasShell: bool): (r: Reaction)
    ensures Disables(frame) ==> r == Reaction([SetMonitoringEnabled(false), ClearCpuData], None)
    ensures frame.Unparsable? || frame.NullValue? ==> r == Reaction([], None)
    ensures forall c, t :: AddCpuData(c, t) in r.actions <==>
      Accepts(monitoringRef, frame) && frame.cpu == Number(c) && frame.timestamp == t
    ensures r.forwarded.Some? <==> hasShell && Accepts(monitoringRef, frame)
    ensures r.forwarded.Some? ==> AddCpuData(r.forwarded.value, frame.timestamp) in r.actions
    ensures ClearCpuData in r.actions <==> Disables(frame)
    ensures SetMonitoringEnabled(true) in r.actions <==> Enables(frame)
    ensures forall a :: a in r.actions ==> a.SetMonitoringEnabled? || a.ClearCpuData? || a.AddCpuData?
  {
    var msg := if frame.Empty? then EmptyObject else frame;
    match msg
    case ObjectValue(flag, cpu, _, _, _, timestamp) =>
      var announced := if flag.Some? then [SetMonitoringEnabled(flag.value)] else [];
      if flag == Some(false) then Reaction(announced + [ClearCpuData], None)
      else if !monitoringRef || !cpu.Number? || timestamp == "" then Reaction(announced, None)
      else Reaction(announced + [AddCpuData(cpu.value, timestamp)], if hasShell then Some(cpu.value) else None)
    case _ => Reaction([], None)
  }

  /** A frame changes only the monitoring flag and the CPU slice: it sets the
      flag it announces, and otherwise the chart either gains exactly the
      frame's sample or stays as it was. */
  lemma OnMessageEffect(s: StoreState, monitoringRef: bool, frame: Frame, hasShell: bool)
    requires CpuSlice.Wellformed(s.cpu)
    ensures var r := DispatchAll(s, OnMessage(monitoringRef, frame, hasShell).actions);
      && r.memory == s.memory && r.processes == s.processes && r.loading == s.loading
      && r.monitoring.enabled == (if frame.ObjectValue? && frame.flag.Some? then frame.flag.value else s.monitoring.enabled)
      && (Disables(frame) ==> r.cpu.data == [] && r.cpu.labels == [])
      && (!Disables(frame) && !Accepts(monitoringRef, frame) ==> r.cpu == s.cpu)
      && (Accepts(monitoringRef, frame) ==>
            r.cpu.data == Window.Push(s.cpu.data, frame.cpu.value) && r.cpu.wsStatus == Connected)
  {
    var msg := if frame.Empty? then EmptyObject else frame;
    if msg.ObjectValue? {
      var cpu, t := msg.cpu, msg.timestamp;
      if msg.flag == Some(false) {
        DispatchTwo(s, SetMonitoringEnabled(false), ClearCpuData);
      } else if msg.flag.Some? {
        if Accepts(monitoringRef, frame) {
          DispatchTwo(s, SetMonitoringEnabled(true), AddCpuData(cpu.value, t));
          CpuSlice.AddCpuDataPushesValue(s.cpu, cpu.value, t);
        } else {
          DispatchOne(s, SetMonitoringEnabled(true));
        }
      } else if Accepts(monitoringRef, frame) {
        DispatchOne(s, AddCpuData(cpu.value, t));
        CpuSlice.AddCpuDataPushesValue(s.cpu, cpu.value, t);
      }
    }
  }

  /** `getStatusColor`: strict thresholds at 80 and 60. */
  function StatusColour(load: real): (r: Colour)
    ensures r == Red <==> load > 80.0
    ensures r == Orange <==> 60.0 < load <= 80.0
    ensures r == Green <==> load <= 60.0
  {
    if load > 80.0 then Red else if load > 60.0 then Orange else Green
  }

  /** `getStatusText`: inclusive thresholds at 80 and 40. */
  function StatusLevel(load: real): (r: Level)
    ensures r != Critical
    ensures r == High <==> load >= 80.0
    ensures r == Medium <==> 40.0 <= load < 80.0
    ensures r == Low <==> load < 40.0
  {
    if load >= 80.0 then High else if load >= 40.0 then Medium else Low
  }

  /** The colour and the text disagree at the boundary: at exactly 80 the
      text already says high while the colour is still orange, and between
      40 and 60 the text says medium under a green colour. */
  lemma ThresholdsDisagree()
    ensures StatusLevel(80.0) == High && StatusColour(80.0) == Orange
    ensures StatusLevel(50.0) == Medium && StatusColour(50.0) == Green
    ensures forall load :: StatusColour(load) == Red ==> StatusLevel(load) == High
  {
  }
}
