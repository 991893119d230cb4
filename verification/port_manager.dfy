/** The network connections page: the LISTEN filter over the connection
    list, the launch form's validation and request payload, what a launch
    response does to the page, and the loading-bar reports around a fetch
    of the list. */
module PortManager {
  import opened Js
  import opened Text
  import opened Seqs
  import opened Notify
  import opened Store
  import LoadingProgress

  /** One row of `/api/listening-ports`. */
  datatype PortEntry = PortEntry(localAddr: string, remoteAddr: string, protocol: string, status: string, pid: int)

  const ListenStatus: string := "LISTEN"

  function IsListening(e: PortEntry): bool { e.status == ListenStatus }

  /** `filteredPorts`: only listening sockets when the switch is on, the whole
      list otherwise. */
  function FilteredPorts(ports: seq<PortEntry>, onlyListening: bool): (r: seq<PortEntry>)
    ensures !onlyListening ==> r == ports
    ensures onlyListening ==> forall e :: e in r <==> e in ports && e.status == ListenStatus
    ensures onlyListening ==> forall e :: multiset(r)[e] == if e.status == ListenStatus then multiset(ports)[e] else 0
    ensures IsSubseq(r, ports)
  {
    KeepIsSubseq(ports, IsListening);
    KeepCount(ports, IsListening);
    SubseqRefl(ports);
    if onlyListening then Keep(ports, IsListening) else ports
  }

  /** The launch form's three fields. */
  datatype Form = Form(command: string, args: string, cwd: string)

  const EmptyForm: Form := Form("", "", "")

  /** The request body; `cwd` is absent unless the field is filled in. */
  datatype LaunchPayload = LaunchPayload(command: string, args: string, timestamp: string, cwd: Option<string>)

  const MissingCommandText: string := "Укажите команду для запуска"

  /** What submitting the form does: an error notification and no request,
      or a request. */
  datatype Submission = Refused(notice: Payload) | Request(payload: LaunchPayload)

  /** `handleSubmit` up to the request: a command that is blank after
      trimming is refused; otherwise the fields are sent as typed, with the
      clock's ISO time and the working directory only if one was given. */
  function Submit(form: Form, timestamp: string): (r: Submission)
    ensures r.Refused? <==> AllSpace(form.command)
    ensures r.Refused? ==> r.notice == NotifyError(MissingCommandText)
    ensures r.Request? ==> r.payload.command == form.command && r.payload.args == form.args
    ensures r.Request? ==> r.payload.timestamp == timestamp
    ensures r.Request? ==> (r.payload.cwd.Some? <==> form.cwd != "")
    ensures r.Request? && r.payload.cwd.Some? ==> r.payload.cwd.value == form.cwd
  {
    TrimEmptyIffAllSpace(form.command);
    if Trim(form.command) == "" then Refused(NotifyError(MissingCommandText))
    else Request(LaunchPayload(form.command, form.args, timestamp, if form.cwd != "" then Some(form.cwd) else None))
  }

  /** The outcome of the launch request: the started process as the agent
      reports it, or a failure with the response body ("" when there is
      none) and the error message. */
  datatype LaunchResponse = Started(pid: int, command: string, args: string) | Failed(body: string, message: string)

  const UnknownErrorText: string := "Неизвестная ошибка"

  /** The page state a launch response touches. */
  datatype Page = Page(isModalOpen: bool, form: Form, notices: seq<Payload>, refetchScheduled: bool)

  /** `error.response?.data || error.message || 'Неизвестная ошибка'`. */
  function FailureText(body: string, message: string): (r: string)
    ensures r != ""
    ensures body != "" ==> r == body
    ensures body == "" && message != "" ==> r == message
  {
    if body != "" then body else if message != "" then message else UnknownErrorText
  }

  function StartedText(pid: int, command: string, args: string): string {
    "Процесс запущен!\nPID: " + IntToString(pid) + "\nКоманда: " + command + " " + args
  }

  /** The rest of `handleSubmit`. Success announces the process, closes the
      dialog, clears the form and schedules a refetch of the list a second
      later. Failure announces the error and leaves the dialog and form as
      they were; its notification is built by `notifySuccess`, so it is
      shown as a success. */
  function OnLaunchResponse(p: Page, response: LaunchResponse): (r: Page)
    ensures |r.notices| == |p.notices| + 1 && r.notices[..|p.notices|] == p.notices
    ensures r.notices[|p.notices|].kind == Success
    ensures response.Started? ==> !r.isModalOpen && r.form == EmptyForm && r.refetchScheduled
    ensures response.Failed? ==> r.(notices := p.notices) == p
    ensures response.Failed? ==> r.notices[|p.notices|].message == "Ошибка:\n" + FailureText(response.body, response.message)
  {
    match response
    case Started(pid, command, args) =>
      Page(false, EmptyForm, p.notices + [NotifySuccess(StartedText(pid, command, args))], true)
    case Failed(body, message) =>
      p.(notices := p.notices + [NotifySuccess("Ошибка:\n" + FailureText(body, message))])
  }

  /** A failed launch cannot be told from a successful one by the kind of
      notification it raises. */
  lemma FailureLooksLikeSuccess(p: Page, pid: int, command: string, args: string, body: string, message: string)
    ensures OnLaunchResponse(p, Failed(body, message)).notices[|p.notices|].kind
         == OnLaunchResponse(p, Started(pid, command, args)).notices[|p.notices|].kind
         == NotifySuccess("").kind
  {
  }

  /** The loading-bar reports of `fetchPorts`: the API step climbs to 50 when
      the request succeeds, skips 30 and 50 when it fails, and the `finally`
      block always finishes the bar. */
  function FetchPortsActions(succeeded: bool): (r: seq<Action>)
    ensures |r| > 0 && r[0] == StartLoading && r[|r| - 1] == CompleteLoading
    ensures SetStepProgress(LoadingProgress.Api, 50.0) in r <==> succeeded
  {
    var api := (p: real) => SetStepProgress(LoadingProgress.Api, p);
    [StartLoading, api(10.0)]
      + (if succeeded then [api(30.0), api(50.0)] else [])
      + [api(70.0), api(100.0), CompleteLoading]
  }

  /** Whether or not the request succeeds, a fetch leaves the bar complete
      and hidden, and touches no other part of the store. */
  lemma FetchPortsFinishes(s: StoreState, succeeded: bool)
    ensures var r := DispatchAll(s, FetchPortsActions(succeeded));
      && !r.loading.isLoading && r.loading.progress == 100.0
      && r.(loading := s.loading) == s
  {
    var actions := FetchPortsActions(succeeded);
    var init := actions[..|actions| - 1];
    assert actions == init + [CompleteLoading];
    DispatchAllConcat(s, init, [CompleteLoading]);
    LoadingOnly(s, init);
    DispatchOne(DispatchAll(s, init), CompleteLoading);
  }

  /** Loading-bar actions change nothing but the bar. */
  lemma {:induction false} LoadingOnly(s: StoreState, actions: seq<Action>)
    requires forall i :: 0 <= i < |actions| ==> actions[i].StartLoading? || actions[i].SetStepProgress? || actions[i].CompleteLoading?
    ensures DispatchAll(s, actions).(loading := s.loading) == s
    decreases |actions|
  {
    if |actions| > 0 {
      DispatchOne(s, actions[0]);
      LoadingOnly(Dispatch(s, actions[0]), actions[1..]);
    }
  }
}
