/** The three realtime views working against one store: the CPU chart, the
    memory chart and the process table, each with its own socket, all
    reading the same monitoring flag. React's effects are one explicit
    `Commit` event, and the process table's 300 ms timers a queue of pending
    snapshots. */
module Dashboard {
  import opened Js
  import opened Connection
  import opened Frames
  import opened Store
  import opened ProcessRecords
  import CpuChart
  import MemoryChart
  import ProcessesFeed
  import MonitoringSlice

  datatype Topic = CpuTopic | MemoryTopic | ProcessesTopic

  /** The store; the enabled flag as the views saw it at the last commit (the
      three `monitoringEnabledRef`s, which the same effects keep equal);
      snapshots waiting for their timer, oldest first; loads forwarded to the
      desktop shell. */
  datatype Dashboard = Dashboard(
    store: StoreState,
    monitoringRef: bool,
    pending: seq<seq<ProcessRecord>>,
    shellLoads: seq<real>)

  const Initial: Dashboard := Dashboard(Store.Initial, false, [], [])

  datatype Event =
    | FrameArrives(topic: Topic, frame: Frame, hasShell: bool)
    | StatusChanges(statusTopic: Topic, status: WsStatus)
    | ProcessesSocketOpens
    | ProcessesSocketErrs
    | SnapshotTimerFires
    | MonitoringRequestSettles(outcome: MonitoringSlice.RequestOutcome)
    | Commit

  /** One event. A commit after the flag changed runs the views' effects:
      every ref takes the new value and, when monitoring went off, each view
      clears its data. */
  function Step(d: Dashboard, e: Event): (r: Dashboard)
    ensures e.Commit? ==> r.monitoringRef == d.store.monitoring.enabled && r.pending == d.pending
    ensures !e.Commit? ==> r.monitoringRef == d.monitoringRef
    ensures e.SnapshotTimerFires? ==> r.pending == (if |d.pending| == 0 then [] else d.pending[1..])
  {
    match e
    case FrameArrives(CpuTopic, f, shell) =>
      var reaction := CpuChart.OnMessage(d.monitoringRef, f, shell);
      var loads := if reaction.forwarded.Some? then d.shellLoads + [reaction.forwarded.value] else d.shellLoads;
      d.(store := DispatchAll(d.store, reaction.actions), shellLoads := loads)
    case FrameArrives(MemoryTopic, f, _) =>
      d.(store := DispatchAll(d.store, MemoryChart.OnMessage(d.monitoringRef, f)))
    case FrameArrives(ProcessesTopic, f, _) =>
      var reaction := ProcessesFeed.OnMessage(d.monitoringRef, f);
      var pending := if reaction.delayed.Some? then d.pending + [reaction.delayed.value] else d.pending;
      d.(store := DispatchAll(d.store, reaction.actions), pending := pending)
    case StatusChanges(t, st) =>
      var a := match t case CpuTopic => SetCpuStatus(st) case MemoryTopic => SetMemoryStatus(st)
                       case ProcessesTopic => SetProcessesStatus(st);
      d.(store := Dispatch(d.store, a))
    case ProcessesSocketOpens => d.(store := DispatchAll(d.store, ProcessesFeed.OnOpen()))
    case ProcessesSocketErrs => d.(store := DispatchAll(d.store, ProcessesFeed.OnError()))
    case SnapshotTimerFires =>
      if |d.pending| == 0 then d
      else d.(store := DispatchAll(d.store, ProcessesFeed.OnDelayedSnapshot(d.pending[0])), pending := d.pending[1..])
    case MonitoringRequestSettles(o) => d.(store := Dispatch(d.store, MonitoringRequest(o)))
    case Commit =>
      if d.store.monitoring.enabled == d.monitoringRef then d
      else if d.store.monitoring.enabled then d.(monitoringRef := true)
      else d.(monitoringRef := false, store := DispatchAll(d.store, [ClearCpuData, ClearMemoryData, ClearProcesses]))
  }

  /** Runs the events in order. */
  function Run(d: Dashboard, events: seq<Event>): Dashboard
    decreases |events|
  {
    if |events| == 0 then d else Run(Step(d, events[0]), events[1..])
  }

  /** Monitoring is off, every view has seen it, no snapshot is waiting and
      no view shows data. */
  predicate Quiet(d: Dashboard) {
    !d.store.monitoring.enabled && !d.monitoringRef && d.pending == [] && NoLiveData(d.store)
  }

  /** An event that turns monitoring back on: a frame saying so, or the
      monitoring request answering that it is on. */
  predicate Enabling(e: Event) {
    (e.FrameArrives? && Enables(e.frame)) || e == MonitoringRequestSettles(MonitoringSlice.Fulfilled(Some(true)))
  }

  /** While monitoring is off and settled, nothing but an enabling frame or
      an enabling answer to the monitoring request can bring data back: data
      frames are dropped or cleared away. */
  lemma QuietKept(d: Dashboard, e: Event)
    requires Quiet(d) && !Enabling(e)
    ensures Quiet(Step(d, e))
  {
    match e
    case FrameArrives(CpuTopic, f, shell) =>
      var actions := CpuChart.OnMessage(d.monitoringRef, f, shell).actions;
      DispatchAllKeepsEmpty(d.store, actions);
      DispatchAllKeepsDisabled(d.store, actions);
    case FrameArrives(MemoryTopic, f, _) =>
      var actions := MemoryChart.OnMessage(d.monitoringRef, f);
      DispatchAllKeepsEmpty(d.store, actions);
      DispatchAllKeepsDisabled(d.store, actions);
    case FrameArrives(ProcessesTopic, f, _) =>
      var actions := ProcessesFeed.OnMessage(d.monitoringRef, f).actions;
      DispatchAllKeepsEmpty(d.store, actions);
      DispatchAllKeepsDisabled(d.store, actions);
    case StatusChanges(_, _) =>
    case ProcessesSocketOpens =>
      DispatchAllKeepsEmpty(d.store, ProcessesFeed.OnOpen());
      DispatchAllKeepsDisabled(d.store, ProcessesFeed.OnOpen());
    case ProcessesSocketErrs =>
      DispatchAllKeepsEmpty(d.store, ProcessesFeed.OnError());
      DispatchAllKeepsDisabled(d.store, ProcessesFeed.OnError());
    case SnapshotTimerFires =>
    case MonitoringRequestSettles(_) =>
    case Commit =>
  }

  /** The header toggle switches monitoring on without any frame: once its
      request answers `enabled: true` and the views commit, every view
      accepts data again. */
  lemma ToggleEnables(d: Dashboard)
    requires Quiet(d)
    ensures var r := Run(d, [MonitoringRequestSettles(MonitoringSlice.Fulfilled(Some(true))), Commit]);
      && r.store.monitoring.enabled && r.monitoringRef
      && NoLiveData(r.store) && r.pending == []
  {
    var e := MonitoringRequestSettles(MonitoringSlice.Fulfilled(Some(true)));
    var d1 := Step(d, e);
    RunSteps(d, e, [Commit]);
    RunSteps(d1, Commit, []);
  }

  /** A whole run without enabling frames keeps a quiet dashboard quiet. */
  lemma {:induction false} QuietRun(d: Dashboard, events: seq<Event>)
    requires Quiet(d)
    requires forall i :: 0 <= i < |events| ==> !Enabling(events[i])
    ensures Quiet(Run(d, events))
    decreases |events|
  {
    if |events| > 0 {
      QuietKept(d, events[0]);
      QuietRun(Step(d, events[0]), events[1..]);
    }
  }

  /** A frame that switches monitoring off turns the store's flag off on
      any topic, and schedules no snapshot. */
  lemma DisablingFrame(d: Dashboard, t: Topic, f: Frame, shell: bool)
    requires Disables(f)
    ensures var r := Step(d, FrameArrives(t, f, shell));
      !r.store.monitoring.enabled && r.pending == d.pending && r.monitoringRef == d.monitoringRef
  {
    match t
    case CpuTopic => DispatchTwo(d.store, SetMonitoringEnabled(false), ClearCpuData);
    case MemoryTopic => DispatchTwo(d.store, SetMonitoringEnabled(false), ClearMemoryData);
    case ProcessesTopic => DispatchTwo(d.store, SetMonitoringEnabled(false), ClearProcesses);
  }

  /** The commit after the flag went off empties all three views. */
  lemma CommitOff(d: Dashboard)
    requires !d.store.monitoring.enabled && d.monitoringRef
    ensures var r := Step(d, Commit);
      && NoLiveData(r.store) && !r.store.monitoring.enabled && !r.monitoringRef
      && r.pending == d.pending
  {
    assert [ClearCpuData, ClearMemoryData, ClearProcesses][1..] == [ClearMemoryData, ClearProcesses];
    DispatchTwo(Dispatch(d.store, ClearCpuData), ClearMemoryData, ClearProcesses);
  }

  /** Running a list of events is stepping through them one by one. */
  lemma RunSteps(d: Dashboard, e: Event, rest: seq<Event>)
    ensures Run(d, [e] + rest) == Run(Step(d, e), rest)
  {
    assert ([e] + rest)[1..] == rest;
  }

  /** A frame on any topic that switches monitoring off, followed by the
      commit, empties all three views. */
  lemma DisableClearsEverything(d: Dashboard, t: Topic, f: Frame, shell: bool)
    requires d.monitoringRef && Disables(f)
    ensures var r := Run(d, [FrameArrives(t, f, shell), Commit]);
      && NoLiveData(r.store) && !r.store.monitoring.enabled && !r.monitoringRef
      && r.pending == d.pending
      && (d.pending == [] ==> Quiet(r))
  {
    var d1 := Step(d, FrameArrives(t, f, shell));
    DisablingFrame(d, t, f, shell);
    CommitOff(d1);
    RunSteps(d, FrameArrives(t, f, shell), [Commit]);
    RunSteps(d1, Commit, []);
  }

  /** A snapshot accepted just before monitoring is switched off is stored
      when its timer fires, after the commit has cleared the list: the
      process table shows processes while monitoring is off and every view
      has seen that. */
  lemma StaleSnapshotRepopulates(d: Dashboard, p: ProcessRecord, f: Frame)
    requires d.store.monitoring.enabled && d.monitoringRef && d.pending == [] && Disables(f)
    ensures var r := Run(d, [FrameArrives(ProcessesTopic, ArrayValue([p]), false),
                             FrameArrives(CpuTopic, f, false), Commit, SnapshotTimerFires]);
      && !r.store.monitoring.enabled && !r.monitoringRef
      && r.store.processes.processes == [p]
  {
    var e1, e2 := FrameArrives(ProcessesTopic, ArrayValue([p]), false), FrameArrives(CpuTopic, f, false);
    var d1 := Step(d, e1);
    assert d1.pending == [[p]] && d1.monitoringRef;
    var d2 := Step(d1, e2);
    DisablingFrame(d1, CpuTopic, f, false);
    var d3 := Step(d2, Commit);
    CommitOff(d2);
    var d4 := Step(d3, SnapshotTimerFires);
    ProcessesFeed.DelayedSnapshotStored(d3.store, [p]);
    assert [e1, e2, Commit, SnapshotTimerFires] == [e1] + [e2, Commit, SnapshotTimerFires];
    RunSteps(d, e1, [e2, Commit, SnapshotTimerFires]);
    RunSteps(d1, e2, [Commit, SnapshotTimerFires]);
    RunSteps(d2, Commit, [SnapshotTimerFires]);
    RunSteps(d3, SnapshotTimerFires, []);
  }

  /** The views read the flag from their refs, not from the frame that just
      set it: a frame that switches monitoring on and carries a sample is
      not charted until the commit, after which the same frame would be. */
  lemma RefLagsBehindFlag(d: Dashboard, c: real, t: string)
    requires Quiet(d) && t != ""
    ensures var f := ObjectValue(Some(true), Number(c), Missing, Missing, Missing, t);
      var d1 := Step(d, FrameArrives(CpuTopic, f, false));
      && d1.store.monitoring.enabled && d1.store.cpu.data == []
      && Step(Step(d1, Commit), FrameArrives(CpuTopic, f, false)).store.cpu.data == [c]
  {
    var f := ObjectValue(Some(true), Number(c), Missing, Missing, Missing, t);
    var d1 := Step(d, FrameArrives(CpuTopic, f, false));
    DispatchOne(d.store, SetMonitoringEnabled(true));
    var d2 := Step(d1, Commit);
    assert d2.monitoringRef;
    DispatchTwo(d2.store, SetMonitoringEnabled(true), AddCpuData(c, t));
  }
}
