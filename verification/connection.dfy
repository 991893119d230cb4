/** The connection status each realtime slice keeps, and how a chart or the
    process table presents it once monitoring is taken into account. */
module Connection {

  /** The `wsStatus` strings: the initial 'disconnected', the three the
      realtime socket reports, and 'error', which the views test for. */
  datatype WsStatus = Disconnected | Connecting | Connected | Reconnecting | Error

  /** The status a view shows: a connected socket reads as disconnected
      while monitoring is off; any other status is shown as it is. */
  function EffectiveStatus(monitoringEnabled: bool, s: WsStatus): (r: WsStatus)
    ensures !monitoringEnabled ==> r != Connected
    ensures monitoringEnabled ==> r == s
    ensures s != Connected ==> r == s
  {
    if !monitoringEnabled && s == Connected then Disconnected else s
  }

  /** The views treat the server as offline on an error, on a closed socket,
      or whenever monitoring is off. */
  function IsServerOffline(monitoringEnabled: bool, s: WsStatus): (r: bool)
    ensures !r <==> monitoringEnabled && s in {Connecting, Connected, Reconnecting}
  {
    s == Error || s == Disconnected || !monitoringEnabled
  }

  /** The shown status is live only when the server is not considered offline. */
  lemma EffectiveStatusConsistent(monitoringEnabled: bool, s: WsStatus)
    ensures EffectiveStatus(monitoringEnabled, s) == Connected ==> !IsServerOffline(monitoringEnabled, s)
    ensures EffectiveStatus(monitoringEnabled, s) == Disconnected ==> IsServerOffline(monitoringEnabled, s)
  {
  }
}
