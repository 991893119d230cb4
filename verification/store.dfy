/** The part of the Redux store the realtime views write to, the actions
    they dispatch, and the root reducer that routes each action to its slice. */
module Store {
  import opened Js
  import opened Connection
  import opened ProcessRecords
  import CpuSlice
  import MemorySlice
  import ProcessesSlice
  import MonitoringSlice
  import LoadingProgress

  datatype StoreState = StoreState(
    monitoring: MonitoringSlice.MonitoringState,
    cpu: CpuSlice.CpuState,
    memory: MemorySlice.MemoryState,
    processes: ProcessesSlice.ProcessesState,
    loading: LoadingProgress.LoadingState)

  const Initial: StoreState := StoreState(MonitoringSlice.Initial, CpuSlice.Initial, MemorySlice.Initial,
                                          ProcessesSlice.Initial, LoadingProgress.Initial)

  datatype Action =
    | SetMonitoringEnabled(enabled: bool)
    | MonitoringRequest(outcome: MonitoringSlice.RequestOutcome)
    | AddCpuData(cpu: real, timestamp: string)
    | SetCpuStatus(cpuStatus: WsStatus)
    | ClearCpuData
    | AddMemoryData(memoryUsage: Field, usedMb: Field, totalMemory: Field, memoryTimestamp: string)
    | SetMemoryStatus(memoryStatus: WsStatus)
    | ClearMemoryData
    | SetProcesses(snapshot: seq<ProcessRecord>)
    | SetProcessesStatus(processesStatus: WsStatus)
    | SetInitialLoading(initialLoading: bool)
    | ClearProcesses
    | StartLoading
    | SetStepProgress(step: LoadingProgress.Step, progress: real)
    | CompleteLoading
    | ResetLoading

  /** The settled monitoring request whose answer switches monitoring on:
      the header toggle's `setMonitoringStatus(true)` or the initial
      `fetchMonitoringStatus()` reporting `enabled: true`. */
  const EnablingAnswer: Action := MonitoringRequest(MonitoringSlice.Fulfilled(Some(true)))

  /** Routes one action to the reducer of its slice; the other slices are
      left as they are. */
  function Dispatch(s: StoreState, a: Action): (r: StoreState)
    ensures a.SetMonitoringEnabled? ==> r == s.(monitoring := MonitoringSlice.SetMonitoringEnabled(s.monitoring, a.enabled))
    ensures a.MonitoringRequest? ==> r == s.(monitoring := MonitoringSlice.OnRequest(s.monitoring, a.outcome))
    ensures a.AddCpuData? || a.SetCpuStatus? || a.ClearCpuData? ==> r.(cpu := s.cpu) == s
    ensures a.AddMemoryData? || a.SetMemoryStatus? || a.ClearMemoryData? ==> r.(memory := s.memory) == s
    ensures a.SetProcesses? || a.SetProcessesStatus? || a.SetInitialLoading? || a.ClearProcesses? ==>
      r.(processes := s.processes) == s
    ensures a.StartLoading? || a.SetStepProgress? || a.CompleteLoading? || a.ResetLoading? ==>
      r.(loading := s.loading) == s
  {
    match a
    case SetMonitoringEnabled(e) => s.(monitoring := MonitoringSlice.SetMonitoringEnabled(s.monitoring, e))
    case MonitoringRequest(o) => s.(monitoring := MonitoringSlice.OnRequest(s.monitoring, o))
    case AddCpuData(c, t) => s.(cpu := CpuSlice.AddCpuData(s.cpu, Some(c), t))
    case SetCpuStatus(st) => s.(cpu := CpuSlice.SetWsStatus(s.cpu, st))
    case ClearCpuData => s.(cpu := CpuSlice.ClearCpuData(s.cpu))
    case AddMemoryData(u, m, t, ts) => s.(memory := MemorySlice.AddMemoryData(s.memory, u, m, t, ts))
    case SetMemoryStatus(st) => s.(memory := MemorySlice.SetWsStatus(s.memory, st))
    case ClearMemoryData => s.(memory := MemorySlice.ClearMemoryData(s.memory))
    case SetProcesses(p) => s.(processes := ProcessesSlice.SetProcesses(s.processes, p))
    case SetProcessesStatus(st) => s.(processes := ProcessesSlice.SetWsStatus(s.processes, st))
    case SetInitialLoading(b) => s.(processes := ProcessesSlice.SetInitialLoading(s.processes, b))
    case ClearProcesses => s.(processes := ProcessesSlice.ClearProcesses(s.processes))
    case StartLoading => s.(loading := LoadingProgress.StartLoading(s.loading))
    case SetStepProgress(st, p) => s.(loading := LoadingProgress.SetStepProgress(s.loading, st, p))
    case CompleteLoading => s.(loading := LoadingProgress.CompleteLoading(s.loading))
    case ResetLoading => s.(loading := LoadingProgress.ResetLoading(s.loading))
  }

  /** Dispatches the actions in order. */
  function DispatchAll(s: StoreState, actions: seq<Action>): (r: StoreState)
    ensures |actions| == 0 ==> r == s
    ensures !s.monitoring.enabled && SetMonitoringEnabled(true) !in actions && EnablingAnswer !in actions ==>
      !r.monitoring.enabled
    decreases |actions|
  {
    if |actions| == 0 then s
    else
      assert forall a :: a in actions[1..] ==> a in actions;
      DispatchAll(Dispatch(s, actions[0]), actions[1..])
  }

  lemma DispatchOne(s: StoreState, a: Action)
    ensures DispatchAll(s, [a]) == Dispatch(s, a)
  {
    assert [a][1..] == [];
  }

  lemma DispatchTwo(s: StoreState, a: Action, b: Action)
    ensures DispatchAll(s, [a, b]) == Dispatch(Dispatch(s, a), b)
  {
    assert [a, b][1..] == [b];
    DispatchOne(Dispatch(s, a), b);
  }

  /** No live data: the two charts and the process list are empty. */
  predicate NoLiveData(s: StoreState) {
    s.cpu.data == [] && s.cpu.labels == [] && s.memory.data == [] && s.memory.labels == []
    && s.memory.samples == [] && s.processes.processes == []
  }

  /** An action that adds no data keeps a store without live data empty. */
  predicate AddsNoData(a: Action) {
    !a.AddCpuData? && !a.AddMemoryData? && !a.SetProcesses?
  }

  lemma {:induction false} DispatchAllKeepsEmpty(s: StoreState, actions: seq<Action>)
    requires NoLiveData(s)
    requires forall i :: 0 <= i < |actions| ==> AddsNoData(actions[i])
    ensures NoLiveData(DispatchAll(s, actions))
    decreases |actions|
  {
    if |actions| > 0 {
      DispatchAllKeepsEmpty(Dispatch(s, actions[0]), actions[1..]);
    }
  }

  /** Actions that do not switch monitoring on keep it off. */
  lemma {:induction false} DispatchAllKeepsDisabled(s: StoreState, actions: seq<Action>)
    requires !s.monitoring.enabled
    requires SetMonitoringEnabled(true) !in actions && EnablingAnswer !in actions
    ensures !DispatchAll(s, actions).monitoring.enabled
    decreases |actions|
  {
    if |actions| > 0 {
      assert actions[0] in actions;
      assert forall a :: a in actions[1..] ==> a in actions;
      DispatchAllKeepsDisabled(Dispatch(s, actions[0]), actions[1..]);
    }
  }

  lemma {:induction false} DispatchAllConcat(s: StoreState, a: seq<Action>, b: seq<Action>)
    ensures DispatchAll(s, a + b) == DispatchAll(DispatchAll(s, a), b)
    decreases |a|
  {
    if |a| > 0 {
      assert (a + b)[1..] == a[1..] + b;
      DispatchAllConcat(Dispatch(s, a[0]), a[1..], b);
    } else {
      assert a + b == b;
    }
  }
}
