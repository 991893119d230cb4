/** The notification builders: each fills in a kind, a default title and a
    default display time (milliseconds) for a message. */
module Notify {
  import opened Js

  datatype Kind = Success | Failure | Warning | Info

  /** What a builder returns and the notifications slice stores. */
  datatype Payload = Payload(kind: Kind, title: string, message: string, duration: int)

  /** The title a builder uses when none is passed. */
  function DefaultTitle(k: Kind): string {
    match k
    case Success => "Успешно"
    case Failure => "Ошибка"
    case Warning => "Предупреждение"
    case Info => "Информация"
  }

  /** The display time a builder uses when none is passed. */
  function DefaultDuration(k: Kind): int {
    match k
    case Success => 3000
    case Failure => 5000
    case Warning => 4000
    case Info => 4000
  }

  /** A builder of kind `k`. A parameter default applies only to an argument
      that is not passed (`undefined`); an empty title is kept as it is. */
  function Build(k: Kind, message: string, title: Option<string>, duration: Option<int>): (r: Payload)
    ensures r.kind == k && r.message == message
    ensures title.Some? ==> r.title == title.value
    ensures duration.Some? ==> r.duration == duration.value
  {
    Payload(k, title.GetOr(DefaultTitle(k)), message, duration.GetOr(DefaultDuration(k)))
  }

  /** `notifySuccess`. */
  function NotifySuccess(message: string, title: Option<string> := None, duration: Option<int> := None): (r: Payload)
    ensures r.kind == Success && r.message == message
    ensures r.title == (if title.Some? then title.value else "Успешно")
    ensures r.duration == (if duration.Some? then duration.value else 3000)
  {
    Build(Success, message, title, duration)
  }

  /** `notifyError`. */
  function NotifyError(message: string, title: Option<string> := None, duration: Option<int> := None): (r: Payload)
    ensures r.kind == Failure && r.message == message
    ensures r.title == (if title.Some? then title.value else "Ошибка")
    ensures r.duration == (if duration.Some? then duration.value else 5000)
  {
    Build(Failure, message, title, duration)
  }

  /** `notifyWarning`. */
  function NotifyWarning(message: string, title: Option<string> := None, duration: Option<int> := None): (r: Payload)
    ensures r.kind == Warning && r.message == message
    ensures r.title == (if title.Some? then title.value else "Предупреждение")
    ensures r.duration == (if duration.Some? then duration.value else 4000)
  {
    Build(Warning, message, title, duration)
  }

  /** `notifyInfo`. */
  function NotifyInfo(message: string, title: Option<string> := None, duration: Option<int> := None): (r: Payload)
    ensures r.kind == Info && r.message == message
    ensures r.title == (if title.Some? then title.value else "Информация")
    ensures r.duration == (if duration.Some? then duration.value else 4000)
  {
    Build(Info, message, title, duration)
  }

  /** Passing a payload's own title and display time back to the builder of
      its kind rebuilds that payload: explicit arguments always win over the
      defaults. */
  lemma BuildRoundTrip(p: Payload)
    ensures Build(p.kind, p.message, Some(p.title), Some(p.duration)) == p
  {
  }

  /** With the defaults, errors stay longest and successes shortest, and
      every builder tags its payload with a distinct kind. */
  lemma DefaultsOrdered(m: string)
    ensures NotifySuccess(m).duration < NotifyWarning(m).duration == NotifyInfo(m).duration < NotifyError(m).duration
    ensures NotifySuccess(m) != NotifyError(m) && NotifyWarning(m) != NotifyInfo(m)
  {
  }
}
