/** The headline figure both charts show next to the graph: the newest
    value, a colour and a load level. */
module Gauge {

  /** The newest value of a series, or 0 when it is empty (`latestCPU`,
      `latestMemoryPercent`). */
  function Latest(data: seq<real>): (r: real)
    ensures |data| == 0 ==> r == 0.0
    ensures |data| > 0 ==> r == data[|data| - 1]
  {
    if |data| > 0 then data[|data| - 1] else 0.0
  }

  datatype Colour = Red | Orange | Green

  datatype Level = Low | Medium | High | Critical
}
