/** The loading-progress slice: a percentage built from two weighted steps,
    the socket (70) and the first data (30). */
module LoadingProgress {
  import opened Js

  const WebsocketWeight: real := 70.0
  const ApiWeight: real := 30.0

  datatype Step = Websocket | Api | OtherStep

  datatype LoadingState = LoadingState(progress: real, isLoading: bool, websocketDone: bool, apiDone: bool)

  const Initial: LoadingState := LoadingState(0.0, false, false, false)

  /** The progress bar never leaves 0..100. */
  predicate InRange(s: LoadingState) {
    0.0 <= s.progress <= 100.0
  }

  /** `startLoading`. */
  function StartLoading(s: LoadingState): (r: LoadingState)
    ensures r.isLoading && r.progress == 0.0 && !r.websocketDone && !r.apiDone
  {
    LoadingState(0.0, true, false, false)
  }

  /** `setStepProgress`: a step is done at 100 %; the socket step fills up to
      70, the data step fills the remaining 30 on top of 70; an unknown step
      changes nothing. */
  function SetStepProgress(s: LoadingState, step: Step, p: real): (r: LoadingState)
    ensures step == OtherStep ==> r == s
    ensures step == Websocket ==>
      && r.websocketDone == (p >= 100.0)
      && r.progress <= WebsocketWeight
      && (p <= 100.0 ==> r.progress * 100.0 == p * WebsocketWeight)
      && (p >= 100.0 ==> r.progress == WebsocketWeight)
      && r.(progress := s.progress, websocketDone := s.websocketDone) == s
    ensures step == Api ==>
      && r.apiDone == (p >= 100.0)
      && r.progress <= 100.0
      && (p <= 100.0 ==> (r.progress - WebsocketWeight) * 100.0 == p * ApiWeight)
      && (p >= 100.0 ==> r.progress == 100.0)
      && r.(progress := s.progress, apiDone := s.apiDone) == s
  {
    match step
    case Websocket => s.(websocketDone := p >= 100.0, progress := Min(p * WebsocketWeight / 100.0, 70.0))
    case Api => s.(apiDone := p >= 100.0, progress := Min(70.0 + p * ApiWeight / 100.0, 100.0))
    case OtherStep => s
  }

  /** `setProgress`: the value clamped to 0..100. */
  function SetProgress(s: LoadingState, p: real): (r: LoadingState)
    ensures InRange(r)
    ensures 0.0 <= p <= 100.0 ==> r.progress == p
    ensures p < 0.0 ==> r.progress == 0.0
    ensures p > 100.0 ==> r.progress == 100.0
    ensures r.(progress := s.progress) == s
  {
    s.(progress := Min(Max(p, 0.0), 100.0))
  }

  /** `completeLoading`. */
  function CompleteLoading(s: LoadingState): (r: LoadingState)
    ensures !r.isLoading && r.progress == 100.0 && r.websocketDone && r.apiDone
  {
    LoadingState(100.0, false, true, true)
  }

  /** `resetLoading`. */
  function ResetLoading(s: LoadingState): (r: LoadingState)
    ensures r == Initial
  {
    LoadingState(0.0, false, false, false)
  }

  /** Step reports from 0 to 100 keep the bar in range, and the two steps in
      order reach exactly 100 when both complete. */
  lemma StepsStayInRange(s: LoadingState, step: Step, p: real)
    requires InRange(s) && 0.0 <= p
    ensures InRange(SetStepProgress(s, step, p))
    ensures SetStepProgress(SetStepProgress(StartLoading(s), Websocket, 100.0), Api, 100.0).progress == 100.0
    ensures SetStepProgress(StartLoading(s), Websocket, 100.0).progress == WebsocketWeight
  {
  }

  /** The bar only moves forward within the socket step and within the data
      step as their percentages grow. */
  lemma StepMonotone(s: LoadingState, step: Step, p: real, q: real)
    requires step != OtherStep && p <= q
    ensures SetStepProgress(s, step, p).progress <= SetStepProgress(s, step, q).progress
  {
  }
}
