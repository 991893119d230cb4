/** The process table's socket handlers: mount, open, error and message,
    with the 300 ms delay before a snapshot is stored made explicit. */
module ProcessesFeed {
  import opened Js
  import opened Frames
  import opened Store
  import opened ProcessRecords
  import LoadingProgress

  /** The actions a handler dispatches now, and the snapshot it leaves to a
      timer, if any. */
  datatype Reaction = Reaction(actions: seq<Action>, delayed: Option<seq<ProcessRecord>>)

  /** Mounting the table starts the loading bar at 10 % of the socket step. */
  function OnMount(): (r: seq<Action>)
    ensures StartLoading in r && SetInitialLoading(true) in r
    ensures r[|r| - 1] == SetStepProgress(LoadingProgress.Websocket, 10.0)
  {
    [StartLoading, SetInitialLoading(true), SetStepProgress(LoadingProgress.Websocket, 10.0)]
  }

  /** `onOpen`: the socket step completes and the data step starts at 10 %. */
  function OnOpen(): (r: seq<Action>)
    ensures |r| == 2 && r[0].SetStepProgress? && r[0].step == LoadingProgress.Websocket && r[0].progress >= 100.0
    ensures r[1] == SetStepProgress(LoadingProgress.Api, 10.0)
  {
    [SetStepProgress(LoadingProgress.Websocket, 100.0), SetStepProgress(LoadingProgress.Api, 10.0)]
  }

  /** `onError`: the loading bar is reset. */
  function OnError(): (r: seq<Action>)
    ensures r == [ResetLoading]
  {
    [ResetLoading]
  }

  /** `onMessage` of the processes socket. An object frame only reports the
      monitoring flag (clearing the list when it is off); `null` and scalars
      are ignored; an array is a snapshot, cleared away while the ref says
      monitoring is off and otherwise stored after the delay, the data step
      completing at once. A frame that does not parse resets the loading bar
      and ends the first load. */
  function OnMessage(monitoringRef: bool, frame: Frame): (r: Reaction)
    ensures frame.ObjectValue? ==> r.delayed.None?
    ensures Disables(frame) ==> r.actions == [SetMonitoringEnabled(false), ClearProcesses]
    ensures frame.ObjectValue? && frame.flag.None? ==> r == Reaction([], None)
    ensures frame.NullValue? || frame.ScalarValue? ==> r == Reaction([], None)
    ensures frame.Unparsable? ==> r == Reaction([ResetLoading, SetInitialLoading(false)], None)
    ensures frame.ArrayValue? && !monitoringRef ==> r == Reaction([ClearProcesses], None)
    ensures frame.ArrayValue? && monitoringRef ==> r.delayed == Some(frame.items)
    ensures frame.Empty? && monitoringRef ==> r.delayed == Some([])
    ensures r.delayed.Some? <==> monitoringRef && (frame.ArrayValue? || frame.Empty?)
    ensures forall a :: a in r.actions ==> AddsNoData(a)
    ensures SetMonitoringEnabled(true) in r.actions <==> Enables(frame)
  {
    var msg := if frame.Empty? then ArrayValue([]) else frame;
    match msg
    case Unparsable => Reaction([ResetLoading, SetInitialLoading(false)], None)
    case ObjectValue(flag, _, _, _, _, _) =>
      if flag.None? then Reaction([], None)
      else if flag.value then Reaction([SetMonitoringEnabled(true)], None)
      else Reaction([SetMonitoringEnabled(false), ClearProcesses], None)
    case ArrayValue(items) =>
      if !monitoringRef then Reaction([ClearProcesses], None)
      else Reaction([SetStepProgress(LoadingProgress.Api, 100.0)], Some(items))
    case _ => Reaction([], None)
  }

  /** The delayed timer body: store the snapshot, complete the loading bar
      and end the first load. It does not look at the monitoring flag again. */
  function OnDelayedSnapshot(snapshot: seq<ProcessRecord>): (r: seq<Action>)
    ensures |r| > 0 && r[0] == SetProcesses(snapshot)
    ensures CompleteLoading in r && SetInitialLoading(false) in r
  {
    [SetProcesses(snapshot), CompleteLoading, SetInitialLoading(false)]
  }

  /** The delayed snapshot replaces the list wholesale and ends loading, so
      the list is exactly the snapshot whatever came before. */
  lemma DelayedSnapshotStored(s: StoreState, snapshot: seq<ProcessRecord>)
    ensures var r := DispatchAll(s, OnDelayedSnapshot(snapshot));
      && r.processes.processes == snapshot
      && !r.processes.isInitialLoading
      && r.loading.progress == 100.0 && !r.loading.isLoading
      && r.monitoring == s.monitoring && r.cpu == s.cpu && r.memory == s.memory
  {
    var a := OnDelayedSnapshot(snapshot);
    var s1 := Dispatch(s, a[0]);
    var s2 := Dispatch(s1, a[1]);
    DispatchTwo(s1, a[1], a[2]);
    assert a[1..] == [a[1], a[2]];
  }
}
