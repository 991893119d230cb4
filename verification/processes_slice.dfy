/** The processes slice of the store: the latest snapshot, the processes
    channel status, the first-load flag and the error of the last kill
    request. */
module ProcessesSlice {
  import opened Js
  import opened Connection
  import opened ProcessRecords

  datatype ProcessesState = ProcessesState(
    processes: seq<ProcessRecord>,
    wsStatus: WsStatus,
    isInitialLoading: bool,
    error: Option<string>)

  const Initial: ProcessesState := ProcessesState([], Disconnected, true, None)

  /** `setProcesses`: stores the snapshot and marks the channel connected;
      only a non-empty snapshot ends the first load. */
  function SetProcesses(s: ProcessesState, snapshot: seq<ProcessRecord>): (r: ProcessesState)
    ensures r.processes == snapshot && r.wsStatus == Connected && r.error == s.error
    ensures r.isInitialLoading == (s.isInitialLoading && |snapshot| == 0)
  {
    ProcessesState(snapshot, Connected, if |snapshot| > 0 then false else s.isInitialLoading, s.error)
  }

  /** `setWsStatus`. */
  function SetWsStatus(s: ProcessesState, status: WsStatus): (r: ProcessesState)
    ensures r.wsStatus == status && r.(wsStatus := s.wsStatus) == s
  {
    s.(wsStatus := status)
  }

  /** `setInitialLoading`. */
  function SetInitialLoading(s: ProcessesState, loading: bool): (r: ProcessesState)
    ensures r.isInitialLoading == loading && r.(isInitialLoading := s.isInitialLoading) == s
  {
    s.(isInitialLoading := loading)
  }

  /** `clearError`. */
  function ClearError(s: ProcessesState): (r: ProcessesState)
    ensures r.error.None? && r.(error := s.error) == s
  {
    s.(error := None)
  }

  /** `clearProcesses`: empties the list and touches nothing else. */
  function ClearProcesses(s: ProcessesState): (r: ProcessesState)
    ensures r.processes == [] && r.(processes := s.processes) == s
  {
    s.(processes := [])
  }

  /** How the kill request settled. */
  datatype KillOutcome = KillPending | KillFulfilled | KillRejected(message: string)

  /** The kill request's lifecycle: pending and fulfilled clear the error, a
      rejection records the message it was rejected with. */
  function OnKill(s: ProcessesState, o: KillOutcome): (r: ProcessesState)
    ensures r.error == (if o.KillRejected? then Some(o.message) else None)
    ensures r.(error := s.error) == s
  {
    match o
    case KillRejected(m) => s.(error := Some(m))
    case _ => s.(error := None)
  }

  /** An empty snapshot never ends the first load; once ended, no snapshot
      starts it again. */
  lemma InitialLoadingMonotone(s: ProcessesState, snapshot: seq<ProcessRecord>)
    ensures !s.isInitialLoading ==> !SetProcesses(s, snapshot).isInitialLoading
    ensures |snapshot| == 0 ==> SetProcesses(s, snapshot).isInitialLoading == s.isInitialLoading
  {
  }

  /** A retried kill that succeeds leaves no error behind, whatever failed before. */
  lemma KillRetryClearsError(s: ProcessesState, m: string)
    ensures OnKill(OnKill(OnKill(s, KillRejected(m)), KillPending), KillFulfilled).error.None?
    ensures OnKill(OnKill(s, KillPending), KillRejected(m)).error == Some(m)
  {
  }
}
