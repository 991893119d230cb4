/** The process details dialog: the CPU and memory figures it shows and its
    three formatters (start time, megabytes, byte counts). A formatted value
    is the number handed to `toFixed` with its digit count and unit; the
    digits themselves and the locale date text are not modelled. */
module ProcessDetails {
  import opened Js
  import opened ProcessRecords

  /** A formatted figure: the dash for "no value", or a number with the
      number of decimals `toFixed` prints and its unit. */
  datatype Shown = Dash | Fixed(value: real, digits: nat, unit: string)

  /** The CPU and memory figures: 0 without a process or without the
      corresponding getter; otherwise the table's own derivations. */
  function Figures(process: Option<ProcessRecord>, hasCpuGetter: bool, hasMemoryGetter: bool): (r: (real, real))
    ensures process.None? ==> r == (0.0, 0.0)
    ensures process.Some? && hasCpuGetter ==> r.0 == CpuPercent(process.value)
    ensures process.Some? && hasMemoryGetter ==> r.1 == MemoryMb(process.value)
    ensures !hasCpuGetter ==> r.0 == 0.0
    ensures !hasMemoryGetter ==> r.1 == 0.0
    ensures r.0 >= 0.0 && r.1 >= 0.0
  {
    match process
    case None => (0.0, 0.0)
    case Some(p) =>
      (if hasCpuGetter then CpuPercent(p) else 0.0, if hasMemoryGetter then MemoryMb(p) else 0.0)
  }

  /** Timestamps below this many units are taken to be seconds. */
  const SecondsCutoff: real := 1000000000000.0

  /** The largest time value a `Date` holds, in milliseconds (section 21.4.1.1
      of ECMA-262: 8.64e15). */
  const MaxTimeMs: real := 8640000000000000.0

  /** A start time as shown: a dash, or the instant in milliseconds that the
      locale string renders. */
  datatype DateText = NoDate | Instant(ms: real)

  /** `formatDate`: falsy and non-numeric values are a dash; numbers below
      1e12 are seconds and are scaled to milliseconds; a value outside the
      range of `Date` is a dash. */
  function FormatDate(timestamp: Field): (r: DateText)
    ensures !Truthy(timestamp) ==> r == NoDate
    ensures timestamp.NonNumeric? ==> r == NoDate
    ensures r.Instant? ==> timestamp.Number? && timestamp.value != 0.0 && -MaxTimeMs <= r.ms <= MaxTimeMs
    ensures r.Instant? && timestamp.value < SecondsCutoff ==> r.ms == timestamp.value * 1000.0
    ensures r.Instant? && timestamp.value >= SecondsCutoff ==> r.ms == timestamp.value
    ensures timestamp.Number? && timestamp.value != 0.0 && -MaxTimeMs <= ToMillis(timestamp.value) <= MaxTimeMs ==> r.Instant?
  {
    if !Truthy(timestamp) then NoDate
    else match ToNumber(timestamp)
      case NaN => NoDate
      case Finite(ts) =>
        var ms := ToMillis(ts);
        if ms < -MaxTimeMs || ms > MaxTimeMs then NoDate else Instant(ms)
  }

  /** The seconds-or-milliseconds heuristic. */
  function ToMillis(ts: real): real {
    if ts < SecondsCutoff then ts * 1000.0 else ts
  }

  /** A start time given in seconds and the same time given in milliseconds
      show the same instant, for every time from 2001-09-09 (1e12 ms) to
      the end of the `Date` range. */
  lemma SecondsAndMillisAgree(seconds: real)
    requires SecondsCutoff / 1000.0 <= seconds < SecondsCutoff
    requires seconds * 1000.0 <= MaxTimeMs
    ensures FormatDate(Number(seconds)) == FormatDate(Number(seconds * 1000.0)) == Instant(seconds * 1000.0)
  {
  }

  /** The heuristic misreads millisecond timestamps before 2001-09-09: one
      millisecond after the epoch is shown as one second after it. */
  lemma EarlyMillisReadAsSeconds()
    ensures FormatDate(Number(1.0)) == Instant(1000.0)
  {
  }

  /** `formatMemoryValue` of the dialog: 0 and NaN are a dash; 1024 MB and
      more are gigabytes with no decimals from 10 GB on and one below; less
      is megabytes with one decimal. */
  function FormatMemoryValue(mb: Num): (r: Shown)
    ensures r == Dash <==> !NumTruthy(mb)
    ensures r.Fixed? && r.unit == "ГБ" <==> mb.Finite? && mb.value >= 1024.0
    ensures r.Fixed? && r.unit == "ГБ" ==> r.value * 1024.0 == mb.value && r.value >= 1.0
    ensures r.Fixed? && r.unit == "ГБ" ==> (r.digits == 0 <==> r.value >= 10.0)
    ensures r.Fixed? && r.unit == "МБ" ==> r.value == mb.value && r.value < 1024.0 && r.digits == 1
  {
    if !NumTruthy(mb) then Dash
    else if mb.value >= 1024.0 then
      var gb := mb.value / 1024.0;
      Fixed(gb, if gb >= 10.0 then 0 else 1, "ГБ")
    else Fixed(mb.value, 1, "МБ")
  }

  /** The byte units, smallest first. */
  const Units: seq<string> := ["Б", "КБ", "МБ", "ГБ", "ТБ"]

  /** The last unit index. */
  const LargestUnit: nat := 4

  function Pow1024(n: nat): (r: real)
    ensures r >= 1.0
  {
    if n == 0 then 1.0 else 1024.0 * Pow1024(n - 1)
  }

  /** The unit loop as a reference: divide by 1024 while the value is at
      least 1024 and a larger unit remains; the scaled value and the unit. */
  function Scale(value: real, unit: nat): (r: (real, nat))
    requires unit <= LargestUnit
    decreases LargestUnit - unit
  {
    if value >= 1024.0 && unit < LargestUnit then Scale(value / 1024.0, unit + 1) else (value, unit)
  }

  /** The scaled value times 1024 per step taken is the input, the unit is
      at most terabytes, and the loop stopped because the value dropped
      below 1024 or the units ran out. */
  lemma {:induction false} ScaleSpec(value: real, unit: nat)
    requires unit <= LargestUnit
    ensures var (v, u) := Scale(value, unit);
      && unit <= u <= LargestUnit
      && v * Pow1024(u - unit) == value
      && (v < 1024.0 || u == LargestUnit)
      && (u > unit ==> v >= 1.0)
    decreases LargestUnit - unit
  {
    if value >= 1024.0 && unit < LargestUnit {
      ScaleSpec(value / 1024.0, unit + 1);
      var (v, u) := Scale(value / 1024.0, unit + 1);
      assert Pow1024(u - unit) == 1024.0 * Pow1024(u - (unit + 1));
      if u == unit + 1 {
        assert v == value / 1024.0;
      }
    }
  }

  /** `v` in unit `u` is `original` bytes, in the smallest unit that keeps it
      below 1024 (or terabytes). */
  predicate ScaledFrom(v: real, u: nat, original: real) {
    && v * Pow1024(u) == original
    && (v < 1024.0 || u == LargestUnit)
    && (u > 0 ==> v >= 1.0)
  }

  /** `formatBytes`: 0 and NaN are a dash; otherwise the scaled value with no
      decimals from 10 on and one below, in the unit the loop reached. */
  method FormatBytes(bytes: Num) returns (r: Shown)
    ensures r == Dash <==> !NumTruthy(bytes)
    ensures r.Fixed? ==> exists u :: 0 <= u <= LargestUnit && r.unit == Units[u] && ScaledFrom(r.value, u, bytes.value)
    ensures r.Fixed? ==> (r.digits == 0 <==> r.value >= 10.0)
    ensures r.Fixed? ==> r == ShownScaled(Scale(bytes.value, 0))
  {
    if !NumTruthy(bytes) {
      return Dash;
    }
    var value := bytes.value;
    var unit := 0;
    while value >= 1024.0 && unit < |Units| - 1
      invariant 0 <= unit <= LargestUnit
      invariant Scale(value, unit) == Scale(bytes.value, 0)
      decreases LargestUnit - unit
    {
      value := value / 1024.0;
      unit := unit + 1;
    }
    ScaleSpec(bytes.value, 0);
    r := Fixed(value, if value >= 10.0 then 0 else 1, Units[unit]);
    assert Scale(value, unit) == (value, unit);
  }

  /** The shown figure for a scaled value and unit. */
  function ShownScaled(scaled: (real, nat)): Shown
    requires scaled.1 <= LargestUnit
  {
    Fixed(scaled.0, if scaled.0 >= 10.0 then 0 else 1, Units[scaled.1])
  }
}
