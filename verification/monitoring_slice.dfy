/** The monitoring slice of the store: whether the agent collects metrics,
    and the state of the request that reads or sets that flag. */
module MonitoringSlice {
  import opened Js

  datatype MonitoringState = MonitoringState(enabled: bool, loading: bool, error: Option<string>)

  const Initial: MonitoringState := MonitoringState(false, false, None)

  /** `setMonitoringEnabled`: the flag a socket frame carried. */
  function SetMonitoringEnabled(s: MonitoringState, enabled: bool): (r: MonitoringState)
    ensures r.enabled == enabled && r.(enabled := s.enabled) == s
  {
    s.(enabled := enabled)
  }

  /** How a read or write of the flag settled. A fulfilled request carries the
      response's `enabled` field, `None` when it is absent or `null`; a
      rejected one carries the action's error message. */
  datatype RequestOutcome = Pending | Fulfilled(enabled: Option<bool>) | Rejected(message: string)

  /** Both thunks (`fetchMonitoringStatus`, `setMonitoringStatus`) share these
      reducers: pending starts loading and clears the error; fulfilled stops
      loading and takes `enabled || false`; rejected stops loading and records
      the error, keeping the flag. */
  function OnRequest(s: MonitoringState, o: RequestOutcome): (r: MonitoringState)
    ensures r.loading <==> o.Pending?
    ensures o.Pending? ==> r.error.None? && r.enabled == s.enabled
    ensures o.Fulfilled? ==> r.enabled == (o.enabled == Some(true)) && r.error == s.error
    ensures o.Rejected? ==> r.error == Some(o.message) && r.enabled == s.enabled
  {
    match o
    case Pending => s.(loading := true, error := None)
    case Fulfilled(e) => s.(loading := false, enabled := e.GetOr(false))
    case Rejected(m) => s.(loading := false, error := Some(m))
  }

  /** A completed request always ends loading: a success sets the flag from
      the response and leaves no error; a failure keeps the previous flag. */
  lemma RequestRoundTrip(s: MonitoringState, e: Option<bool>, m: string)
    ensures var r := OnRequest(OnRequest(s, Pending), Fulfilled(e));
      !r.loading && r.error.None? && (r.enabled <==> e == Some(true))
    ensures var r := OnRequest(OnRequest(s, Pending), Rejected(m));
      !r.loading && r.error == Some(m) && r.enabled == s.enabled
  {
  }
}
