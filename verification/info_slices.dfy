/** The host-info and device-info slices: each holds the fields of one
    request's response and that request's loading flag and error. */
module InfoSlices {
  import opened Js

  /** How the request settled: a fulfilled request carries the response, a
      rejected one the rejection value. */
  datatype Outcome<T> = Pending | Fulfilled(value: T) | Rejected(message: string)

  datatype HostInfo = HostInfo(username: Option<string>, hostname: Option<string>)

  datatype HostState = HostState(info: HostInfo, loading: bool, error: Option<string>)

  const InitialHost: HostState := HostState(HostInfo(None, None), false, None)

  /** `fetchHostInfo` reducers: pending starts loading and clears the error,
      fulfilled stores the user and host names, rejected keeps the old names
      and records the error. */
  function OnHostRequest(s: HostState, o: Outcome<HostInfo>): (r: HostState)
    ensures r.loading <==> o.Pending?
    ensures r.error == (if o.Rejected? then Some(o.message) else None)
    ensures r.info == (if o.Fulfilled? then o.value else s.info)
  {
    match o
    case Pending => s.(loading := true, error := None)
    case Fulfilled(v) => HostState(v, false, None)
    case Rejected(m) => s.(loading := false, error := Some(m))
  }

  /** `clearError` of the host-info slice. */
  function ClearHostError(s: HostState): (r: HostState)
    ensures r.error.None? && r.(error := s.error) == s
  {
    s.(error := None)
  }

  datatype DeviceInfo = DeviceInfo(processname: Option<string>, cores: Option<int>)

  datatype DeviceState = DeviceState(info: DeviceInfo, loading: bool, error: Option<string>)

  const InitialDevice: DeviceState := DeviceState(DeviceInfo(None, None), false, None)

  /** `fetchDeviceInfo` reducers, the same lifecycle for the CPU model name
      and core count. */
  function OnDeviceRequest(s: DeviceState, o: Outcome<DeviceInfo>): (r: DeviceState)
    ensures r.loading <==> o.Pending?
    ensures r.error == (if o.Rejected? then Some(o.message) else None)
    ensures r.info == (if o.Fulfilled? then o.value else s.info)
  {
    match o
    case Pending => s.(loading := true, error := None)
    case Fulfilled(v) => DeviceState(v, false, None)
    case Rejected(m) => s.(loading := false, error := Some(m))
  }

  /** `clearError` of the device-info slice. */
  function ClearDeviceError(s: DeviceState): (r: DeviceState)
    ensures r.error.None? && r.(error := s.error) == s
  {
    s.(error := None)
  }

  /** A failed fetch never loses data already shown, and a later success
      replaces the error with the new data. */
  lemma FailureKeepsData(h: HostState, d: DeviceState, hv: HostInfo, dv: DeviceInfo, m: string)
    ensures OnHostRequest(OnHostRequest(h, Pending), Rejected(m)).info == h.info
    ensures OnDeviceRequest(OnDeviceRequest(d, Pending), Rejected(m)).info == d.info
    ensures OnHostRequest(OnHostRequest(OnHostRequest(h, Rejected(m)), Pending), Fulfilled(hv)) == HostState(hv, false, None)
    ensures OnDeviceRequest(OnDeviceRequest(OnDeviceRequest(d, Rejected(m)), Pending), Fulfilled(dv)) == DeviceState(dv, false, None)
  {
  }
}
