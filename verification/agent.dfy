/** The agent's realtime side: the monitoring switch with its cache-refresh
    loop, the per-topic caches the loop fills, and the frame each socket
    writes on its tick. Goroutines, locks, tickers and socket deadlines are
    not modelled: each tick is one event, and starting or cancelling the
    loop takes effect at once. */
module Agent {
  import opened Js
  import opened ProcessRecords
  import opened MemoryMetrics
  import opened Frames
  import Store
  import CpuChart

  /** The cached CPU reading; the zero value (empty timestamp) means none yet. */
  datatype CpuPayload = CpuPayload(cpu: real, timestamp: string)

  /** The cached memory reading; the zero value means none yet. */
  datatype MemoryPayload = MemoryPayload(memoryUsage: real, usedMb: nat, totalMemory: nat, timestamp: string)

  /** The monitoring flag, the number of cache loops running, and the three
      caches. The process cache is `None` while it is still a nil slice. */
  datatype AgentState = AgentState(
    monitoringEnabled: bool,
    liveLoops: nat,
    cpuCache: CpuPayload,
    memCache: MemoryPayload,
    procsCache: Option<seq<ProcessRecord>>)

  /** Monitoring starts switched off, with no loop and empty caches. */
  const Initial: AgentState :=
    AgentState(false, 0, CpuPayload(0.0, ""), MemoryPayload(0.0, 0, 0, ""), None)

  /** `SetMonitoringEnabled`: the flag always takes the new value; a
      false-to-true edge starts a cache loop, a true-to-false edge cancels
      it, and a call that does not change the flag does neither. The caches
      are kept. */
  function SetMonitoringEnabled(a: AgentState, enabled: bool): (r: AgentState)
    ensures r.monitoringEnabled == enabled
    ensures enabled && !a.monitoringEnabled ==> r.liveLoops == a.liveLoops + 1
    ensures !enabled && a.monitoringEnabled ==> r.liveLoops == (if a.liveLoops > 0 then a.liveLoops - 1 else 0)
    ensures enabled == a.monitoringEnabled ==> r == a
    ensures r.cpuCache == a.cpuCache && r.memCache == a.memCache && r.procsCache == a.procsCache
  {
    var was := a.monitoringEnabled;
    var loops := if enabled && !was then a.liveLoops + 1
                 else if !enabled && was && a.liveLoops > 0 then a.liveLoops - 1
                 else a.liveLoops;
    a.(monitoringEnabled := enabled, liveLoops := loops)
  }

  /** `GetMonitoringEnabled`. */
  function GetMonitoringEnabled(a: AgentState): (r: bool)
    ensures LoopMatchesFlag(a) ==> (r <==> a.liveLoops > 0)
  {
    a.monitoringEnabled
  }

  /** A cache loop runs exactly while monitoring is on. */
  predicate LoopMatchesFlag(a: AgentState) {
    a.liveLoops == (if a.monitoringEnabled then 1 else 0)
  }

  /** The switch keeps one loop per period of monitoring, never two, and the
      getter reports the last value set. */
  lemma SwitchKeepsOneLoop(a: AgentState, enabled: bool)
    requires LoopMatchesFlag(a)
    ensures LoopMatchesFlag(SetMonitoringEnabled(a, enabled))
    ensures GetMonitoringEnabled(SetMonitoringEnabled(a, enabled)) == enabled
  {
  }

  /** Any sequence of switch calls from the start keeps the loop count in
      step with the flag. */
  function SwitchAll(a: AgentState, calls: seq<bool>): (r: AgentState)
    decreases |calls|
  {
    if |calls| == 0 then a else SwitchAll(SetMonitoringEnabled(a, calls[0]), calls[1..])
  }

  lemma {:induction false} SwitchAllKeepsOneLoop(a: AgentState, calls: seq<bool>)
    requires LoopMatchesFlag(a)
    ensures LoopMatchesFlag(SwitchAll(a, calls))
    ensures |calls| > 0 ==> SwitchAll(a, calls).monitoringEnabled == calls[|calls| - 1]
    decreases |calls|
  {
    if |calls| > 0 {
      SwitchKeepsOneLoop(a, calls[0]);
      SwitchAllKeepsOneLoop(SetMonitoringEnabled(a, calls[0]), calls[1..]);
      if |calls| > 1 {
        assert calls[1..][|calls[1..]| - 1] == calls[|calls| - 1];
      }
    }
  }

  /** One tick of one of the loop's tickers, with what the reading returned
      (`None` for a failed CPU or process reading). */
  datatype Tick =
    | CpuTick(cpu: Option<real>)
    | MemoryTick(reading: Reading)
    | ProcessTick(procs: Option<seq<ProcessRecord>>)

  /** The loop's tick: it refreshes that topic's cache only if a loop is
      running and monitoring is on at that moment, and only with a
      successful reading. `now` is the formatted clock. */
  function OnTick(a: AgentState, t: Tick, now: string): (r: AgentState)
    ensures !a.monitoringEnabled || a.liveLoops == 0 ==> r == a
    ensures r.monitoringEnabled == a.monitoringEnabled && r.liveLoops == a.liveLoops
    ensures !t.CpuTick? ==> r.cpuCache == a.cpuCache
    ensures !t.MemoryTick? ==> r.memCache == a.memCache
    ensures !t.ProcessTick? ==> r.procsCache == a.procsCache
    ensures a.monitoringEnabled && a.liveLoops > 0 && t.CpuTick? && t.cpu.Some? ==> r.cpuCache == CpuPayload(t.cpu.value, now)
    ensures a.monitoringEnabled && a.liveLoops > 0 && t.MemoryTick? && t.reading.Read? ==>
      var u := UsageMemory(t.reading);
      r.memCache == MemoryPayload(u.percent, u.usedMib, u.totalMib, now)
    ensures a.monitoringEnabled && a.liveLoops > 0 && t.ProcessTick? && t.procs.Some? ==> r.procsCache == t.procs
  {
    if !a.monitoringEnabled || a.liveLoops == 0 then a
    else match t
      case CpuTick(c) => if c.Some? then a.(cpuCache := CpuPayload(c.value, now)) else a
      case MemoryTick(reading) =>
        var u := UsageMemory(reading);
        if u.err.None? then a.(memCache := MemoryPayload(u.percent, u.usedMib, u.totalMib, now)) else a
      case ProcessTick(procs) => if procs.Some? then a.(procsCache := procs) else a
  }

  /** A frame one of the sockets writes. */
  datatype AgentFrame =
    | MonitoringOff
    | CpuCollecting(now: string)
    | CpuData(cpuPayload: CpuPayload)
    | MemoryCollecting(at: string)
    | MemoryData(memoryPayload: MemoryPayload)
    | ProcessList(list: Option<seq<ProcessRecord>>)

  /** `writeCPU`: the "monitoring off" status when off; a collecting
      placeholder with a zero load when nothing is cached yet; otherwise the
      cached reading. */
  function WriteCpu(a: AgentState, now: string): (r: AgentFrame)
    ensures r == MonitoringOff <==> !a.monitoringEnabled
    ensures r.CpuCollecting? <==> a.monitoringEnabled && a.cpuCache.timestamp == ""
    ensures r.CpuData? ==> r.cpuPayload == a.cpuCache && r.cpuPayload.timestamp != ""
  {
    if !a.monitoringEnabled then MonitoringOff
    else if a.cpuCache.timestamp == "" then CpuCollecting(now)
    else CpuData(a.cpuCache)
  }

  /** `writeMemory`: as `writeCPU`, for the memory cache. */
  function WriteMemory(a: AgentState, now: string): (r: AgentFrame)
    ensures r == MonitoringOff <==> !a.monitoringEnabled
    ensures r.MemoryCollecting? <==> a.monitoringEnabled && a.memCache.timestamp == ""
    ensures r.MemoryData? ==> r.memoryPayload == a.memCache && r.memoryPayload.timestamp != ""
  {
    if !a.monitoringEnabled then MonitoringOff
    else if a.memCache.timestamp == "" then MemoryCollecting(now)
    else MemoryData(a.memCache)
  }

  /** `writeProcesses`: the status when off, and otherwise the cache as it
      is, with no placeholder, even before the first reading. */
  function WriteProcesses(a: AgentState): (r: AgentFrame)
    ensures r == MonitoringOff <==> !a.monitoringEnabled
    ensures a.monitoringEnabled ==> r == ProcessList(a.procsCache)
  {
    if !a.monitoringEnabled then MonitoringOff else ProcessList(a.procsCache)
  }

  /** The first frame of a connection: the regular write when on and the
      status when off. */
  function FirstCpuFrame(a: AgentState, now: string): (r: AgentFrame)
    ensures r == WriteCpu(a, now)
  {
    if a.monitoringEnabled then WriteCpu(a, now) else MonitoringOff
  }

  function FirstMemoryFrame(a: AgentState, now: string): (r: AgentFrame)
    ensures r == WriteMemory(a, now)
  {
    if a.monitoringEnabled then WriteMemory(a, now) else MonitoringOff
  }

  function FirstProcessesFrame(a: AgentState): (r: AgentFrame)
    ensures r == WriteProcesses(a)
  {
    if a.monitoringEnabled then WriteProcesses(a) else MonitoringOff
  }

  /** What the dashboard's `JSON.parse` makes of a frame. The status frame
      carries `monitoringEnabled: false`, the placeholders `true` and zero
      figures, the cached readings no flag; a nil process cache is `null`. */
  function Parse(f: AgentFrame): (r: Frame)
    ensures f == MonitoringOff <==> Disables(r)
    ensures f.CpuCollecting? || f.MemoryCollecting? <==> Enables(r)
    ensures f.ProcessList? ==> (f.list.None? <==> r.NullValue?)
  {
    match f
    case MonitoringOff => ObjectValue(Some(false), Missing, Missing, Missing, Missing, "")
    case CpuCollecting(now) => ObjectValue(Some(true), Number(0.0), Missing, Missing, Missing, now)
    case CpuData(p) => ObjectValue(None, Number(p.cpu), Missing, Missing, Missing, p.timestamp)
    case MemoryCollecting(now) => ObjectValue(Some(true), Missing, Number(0.0), Number(0.0), Number(0.0), now)
    case MemoryData(p) =>
      ObjectValue(None, Missing, Number(p.memoryUsage), Number(p.usedMb as real), Number(p.totalMemory as real), p.timestamp)
    case ProcessList(l) => if l.Some? then ArrayValue(l.value) else NullValue
  }

  /** While the agent is off, every socket tells the dashboard so on every
      tick, whatever its caches hold. */
  lemma OffFramesDisable(a: AgentState, now: string)
    requires !a.monitoringEnabled
    ensures Disables(Parse(WriteCpu(a, now))) && Disables(Parse(WriteMemory(a, now))) && Disables(Parse(WriteProcesses(a)))
  {
  }

  /** Switching off keeps the caches, so switching back on sends the old
      readings at once, before the loop's first refresh. */
  lemma ReenableSendsStaleCache(a: AgentState, now: string)
    requires a.monitoringEnabled && a.cpuCache.timestamp != ""
    ensures var b := SetMonitoringEnabled(SetMonitoringEnabled(a, false), true);
      WriteCpu(b, now) == CpuData(a.cpuCache)
  {
  }

  /** Right after monitoring is switched on the CPU socket sends its
      placeholder, and a chart whose ref is already on plots it as a 0 %
      reading. */
  lemma PlaceholderChartedAsZero(a: AgentState, now: string, hasShell: bool)
    requires a.monitoringEnabled && a.cpuCache.timestamp == "" && now != ""
    ensures Store.AddCpuData(0.0, now) in CpuChart.OnMessage(true, Parse(WriteCpu(a, now)), hasShell).actions
  {
  }
}
