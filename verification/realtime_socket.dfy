/** The reconnecting WebSocket wrapper every realtime view uses. The browser
    socket, its events and the timer are explicit: operations return the new
    wrapper state and the effects they cause, in order. */
module RealtimeSocket {
  import opened Js
  import opened Connection

  /** The default cap on the reconnect delay, in milliseconds. */
  const DefaultMaxDelayMs: nat := 10000

  /** The first reconnect delay, in milliseconds. */
  const BaseDelayMs: nat := 1000

  datatype ReadyState = SocketConnecting | SocketOpen | SocketClosing | SocketClosed

  /** The browser socket the wrapper holds. `stop` detaches its handlers and
      drops the reference together, so a held socket always has them. */
  datatype Ws = Ws(readyState: ReadyState)

  datatype SocketState = SocketState(
    maxDelayMs: nat,
    ws: Option<Ws>,
    attempts: nat,
    timer: Option<nat>,
    isStopped: bool)

  /** What an operation does outside the wrapper: a status report, a user
      handler call, a socket close or send, or a timer armed for a delay. */
  datatype Effect =
    | ReportStatus(status: WsStatus)
    | CallOnOpen | CallOnMessage | CallOnError | CallOnClose
    | CloseSocket | SendData
    | ArmTimer(delayMs: nat)

  datatype Step = Step(state: SocketState, effects: seq<Effect>)

  /** The constructor, before `start`. */
  function Create(maxDelayMs: Option<nat>): (s: SocketState)
    ensures s.ws.None? && s.attempts == 0 && s.timer.None? && !s.isStopped
    ensures s.maxDelayMs == maxDelayMs.GetOr(DefaultMaxDelayMs)
  {
    SocketState(maxDelayMs.GetOr(DefaultMaxDelayMs), None, 0, None, false)
  }

  function Pow2(n: nat): (r: nat)
    ensures r >= 1
  {
    if n == 0 then 1 else 2 * Pow2(n - 1)
  }

  /** `Math.min(1000 * 2 ** attempts, maxDelayMs)`. */
  function Backoff(attempts: nat, maxDelayMs: nat): (r: nat)
    ensures r <= maxDelayMs
    ensures r <= BaseDelayMs * Pow2(attempts)
    ensures r == maxDelayMs || r == BaseDelayMs * Pow2(attempts)
  {
    if BaseDelayMs * Pow2(attempts) <= maxDelayMs then BaseDelayMs * Pow2(attempts) else maxDelayMs
  }

  /** `_scheduleReconnect`: unless stopped, reports reconnecting, arms the
      timer for the current backoff and counts the attempt. */
  function ScheduleReconnect(s: SocketState): (r: Step)
    ensures s.isStopped ==> r == Step(s, [])
    ensures !s.isStopped ==>
      && r.state == s.(attempts := s.attempts + 1, timer := Some(Backoff(s.attempts, s.maxDelayMs)))
      && r.effects == [ReportStatus(Reconnecting), ArmTimer(Backoff(s.attempts, s.maxDelayMs))]
  {
    if s.isStopped then Step(s, [])
    else
      var delay := Backoff(s.attempts, s.maxDelayMs);
      Step(s.(attempts := s.attempts + 1, timer := Some(delay)), [ReportStatus(Reconnecting), ArmTimer(delay)])
  }

  /** `connect`: unless stopped, reports connecting and opens a new socket
      with the handlers installed; when the socket constructor throws, it
      schedules a reconnect instead and keeps the previous socket reference. */
  function Connect(s: SocketState, constructorThrows: bool): (r: Step)
    ensures s.isStopped ==> r == Step(s, [])
    ensures !s.isStopped && !constructorThrows ==>
      r == Step(s.(ws := Some(Ws(SocketConnecting))), [ReportStatus(Connecting)])
    ensures !s.isStopped && constructorThrows ==>
      && r.state.ws == s.ws
      && r.state.attempts == s.attempts + 1
      && r.state.timer == Some(Backoff(s.attempts, s.maxDelayMs))
      && r.effects == [ReportStatus(Connecting), ReportStatus(Reconnecting), ArmTimer(Backoff(s.attempts, s.maxDelayMs))]
  {
    if s.isStopped then Step(s, [])
    else if constructorThrows then
      var next := ScheduleReconnect(s);
      Step(next.state, [ReportStatus(Connecting)] + next.effects)
    else
      Step(s.(ws := Some(Ws(SocketConnecting))), [ReportStatus(Connecting)])
  }

  /** `start`: clears the stopped flag and connects, even after `stop`. */
  function Start(s: SocketState, constructorThrows: bool): (r: Step)
    ensures !r.state.isStopped
    ensures |r.effects| > 0 && r.effects[0] == ReportStatus(Connecting)
    ensures !constructorThrows ==>
      && r.state == s.(isStopped := false, ws := Some(Ws(SocketConnecting)))
      && r.effects == [ReportStatus(Connecting)]
    ensures constructorThrows ==>
      && r.state.ws == s.ws
      && r.state.attempts == s.attempts + 1
      && r.state.timer == Some(Backoff(s.attempts, s.maxDelayMs))
      && r.effects == [ReportStatus(Connecting), ReportStatus(Reconnecting), ArmTimer(Backoff(s.attempts, s.maxDelayMs))]
  {
    Connect(s.(isStopped := false), constructorThrows)
  }

  /** `stop`: marks the wrapper stopped, cancels a pending reconnect, detaches
      the handlers, closes a socket that is open or still connecting, and
      drops the socket reference. */
  function Stop(s: SocketState): (r: Step)
    ensures r.state == s.(isStopped := true, timer := None, ws := None)
    ensures r.effects == (if s.ws.Some? && s.ws.value.readyState in {SocketOpen, SocketConnecting} then [CloseSocket] else [])
  {
    var closes := s.ws.Some? && s.ws.value.readyState in {SocketOpen, SocketConnecting};
    Step(s.(isStopped := true, timer := None, ws := None), if closes then [CloseSocket] else [])
  }

  /** `send`: only an open socket transmits; otherwise the data is dropped. */
  function Send(s: SocketState): (r: Step)
    ensures r.state == s
    ensures r.effects == [SendData] <==> s.ws.Some? && s.ws.value.readyState == SocketOpen
    ensures r.effects == [] <==> !(s.ws.Some? && s.ws.value.readyState == SocketOpen)
  {
    if s.ws.Some? && s.ws.value.readyState == SocketOpen then Step(s, [SendData]) else Step(s, [])
  }

  /** The browser events of the current socket. */
  datatype SocketEvent = Opened | MessageArrived | Errored | Closed

  /** Whether the wrapper's handlers hear events of a current socket. */
  predicate Listening(s: SocketState) {
    s.ws.Some?
  }

  /** The installed handlers: open reports connected and resets the attempt
      count; an error reports reconnecting; a close calls the user handler
      and, unless stopped, schedules a reconnect. An absent socket
      delivers nothing. */
  function OnSocketEvent(s: SocketState, e: SocketEvent): (r: Step)
    ensures !Listening(s) ==> r == Step(s, [])
    ensures Listening(s) && e == Opened ==>
      && r.state == s.(ws := Some(Ws(SocketOpen)), attempts := 0)
      && r.effects == [ReportStatus(Connected), CallOnOpen]
    ensures Listening(s) && e == Errored ==> r == Step(s, [ReportStatus(Reconnecting), CallOnError])
    ensures Listening(s) && e == MessageArrived ==> r == Step(s, [CallOnMessage])
    ensures Listening(s) && e == Closed ==>
      |r.effects| > 0 && r.effects[0] == CallOnClose && (s.isStopped <==> |r.effects| == 1)
    ensures Listening(s) && e == Closed && s.isStopped ==>
      r == Step(s.(ws := Some(Ws(SocketClosed))), [CallOnClose])
    ensures Listening(s) && e == Closed && !s.isStopped ==>
      && r.state == s.(ws := Some(Ws(SocketClosed)), attempts := s.attempts + 1,
                       timer := Some(Backoff(s.attempts, s.maxDelayMs)))
      && r.effects == [CallOnClose, ReportStatus(Reconnecting), ArmTimer(Backoff(s.attempts, s.maxDelayMs))]
  {
    if !Listening(s) then Step(s, [])
    else
      match e
      case Opened =>
        Step(s.(ws := Some(Ws(SocketOpen)), attempts := 0), [ReportStatus(Connected), CallOnOpen])
      case MessageArrived => Step(s, [CallOnMessage])
      case Errored => Step(s, [ReportStatus(Reconnecting), CallOnError])
      case Closed =>
        var closed := s.(ws := Some(Ws(SocketClosed)));
        var next := ScheduleReconnect(closed);
        Step(next.state, [CallOnClose] + next.effects)
  }

  /** The reconnect timer fires: it is forgotten and `connect` runs. */
  function OnTimer(s: SocketState, constructorThrows: bool): (r: Step)
    requires s.timer.Some?
    ensures s.isStopped ==> r.effects == []
    ensures !s.isStopped && !constructorThrows ==>
      && r.state == s.(timer := None, ws := Some(Ws(SocketConnecting)))
      && r.effects == [ReportStatus(Connecting)]
    ensures !s.isStopped && constructorThrows ==>
      && r.state.ws == s.ws
      && r.state.attempts == s.attempts + 1
      && r.state.timer == Some(Backoff(s.attempts, s.maxDelayMs))
      && r.effects == [ReportStatus(Connecting), ReportStatus(Reconnecting), ArmTimer(Backoff(s.attempts, s.maxDelayMs))]
  {
    Connect(s.(timer := None), constructorThrows)
  }

  /** Once stopped, the wrapper holds no socket and no pending reconnect. */
  ghost predicate Quiescent(s: SocketState) {
    s.isStopped ==> s.ws.None? && s.timer.None?
  }

  /** Every operation keeps a stopped wrapper quiescent, and a stopped
      wrapper does nothing at all until started again. */
  lemma StoppedStaysSilent(s: SocketState, throws: bool, e: SocketEvent)
    requires Quiescent(s)
    ensures Quiescent(Stop(s).state)
    ensures Quiescent(Connect(s, throws).state)
    ensures Quiescent(Start(s, throws).state)
    ensures Quiescent(OnSocketEvent(s, e).state)
    ensures Quiescent(Send(s).state)
    ensures s.isStopped ==> Connect(s, throws).effects == [] && OnSocketEvent(s, e).effects == []
    ensures Connect(Stop(s).state, throws) == Step(Stop(s).state, [])
    ensures OnSocketEvent(Stop(s).state, e) == Step(Stop(s).state, [])
  {
  }

  /** Stopping twice is stopping once: the second call finds no socket and
      no timer, and closes nothing. */
  lemma StopIdempotent(s: SocketState)
    ensures Stop(Stop(s).state) == Step(Stop(s).state, [])
  {
  }

  /** The delay never shrinks as failed attempts accumulate. */
  lemma {:induction false} BackoffMonotone(n: nat, m: nat, maxDelayMs: nat)
    requires n <= m
    ensures Backoff(n, maxDelayMs) <= Backoff(m, maxDelayMs)
    decreases m - n
  {
    if n < m {
      BackoffMonotone(n + 1, m, maxDelayMs);
      assert Pow2(n + 1) == 2 * Pow2(n);
    }
  }

  /** With the default cap the delays run 1, 2, 4, 8 seconds and then stay at 10. */
  lemma {:induction false} DefaultSchedule(n: nat)
    ensures Backoff(0, DefaultMaxDelayMs) == 1000 && Backoff(1, DefaultMaxDelayMs) == 2000
    ensures Backoff(2, DefaultMaxDelayMs) == 4000 && Backoff(3, DefaultMaxDelayMs) == 8000
    ensures n >= 4 ==> Backoff(n, DefaultMaxDelayMs) == DefaultMaxDelayMs
  {
    assert Pow2(4) == 16 by {
      assert Pow2(1) == 2 && Pow2(2) == 4 && Pow2(3) == 8;
    }
    if n >= 4 {
      BackoffMonotone(4, n, DefaultMaxDelayMs);
    }
  }

  /** A failed connection whose close is followed by a reconnect that opens
      starts the next failure's backoff from one second again. */
  lemma OpenResetsBackoff(s: SocketState)
    requires !s.isStopped && Listening(s)
    ensures var closed := OnSocketEvent(s, Closed).state;
      var reconnected := OnTimer(closed, false).state;
      var live := OnSocketEvent(reconnected, Opened).state;
      && closed.timer == Some(Backoff(s.attempts, s.maxDelayMs))
      && closed.attempts == s.attempts + 1
      && live.attempts == 0
      && OnSocketEvent(live, Closed).state.timer == Some(Backoff(0, live.maxDelayMs))
  {
  }
}
