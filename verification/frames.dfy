/** What `JSON.parse` can make of a socket frame, as far as the three frame
    handlers look at it. */
module Frames {
  import opened Js
  import opened ProcessRecords

  /** A parsed frame. `Empty` is a frame with no data, which each handler
      parses as its own default text (`'{}'` for the charts, `'[]'` for the
      process list). An object's absent `timestamp` (or any falsy one) is the
      empty string. */
  datatype Frame =
    | Unparsable
    | Empty
    | NullValue
    | ScalarValue
    | ArrayValue(items: seq<ProcessRecord>)
    | ObjectValue(flag: Option<bool>, cpu: Field, memoryUsage: Field, usedMb: Field, totalMemory: Field, timestamp: string)

  /** The object an empty chart frame parses to. */
  const EmptyObject: Frame := ObjectValue(None, Missing, Missing, Missing, Missing, "")

  /** A frame that announces monitoring is off. */
  predicate Disables(f: Frame) {
    f.ObjectValue? && f.flag == Some(false)
  }

  /** A frame that announces monitoring is on. */
  predicate Enables(f: Frame) {
    f.ObjectValue? && f.flag == Some(true)
  }
}
