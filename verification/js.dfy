/** JavaScript value semantics that the frontend code relies on: optional
    values, numbers that may be NaN, raw JSON fields and their truthiness and
    `Number(...)` conversion. */
module Js {

  /** `undefined`/`null` versus a present value. */
  datatype Option<+T> = None | Some(value: T) {
    /** The value, or `default` when absent (the `??` / `||` fallback). */
    function GetOr(default: T): T {
      match this
      case Some(v) => v
      case None => default
    }
  }

  /** A JavaScript number as it can arise here: a finite value or NaN.
      Infinities never come out of JSON and are not modelled. */
  datatype Num = Finite(value: real) | NaN {
    predicate IsNaN() { NaN? }
  }

  /** A raw field of a parsed JSON frame: absent (`undefined`), `null`, a
      number, or some other truthy value that `Number(...)` maps to NaN (a
      non-numeric string, an object). */
  datatype Field = Missing | Null | Number(value: real) | NonNumeric

  /** JavaScript truthiness of a field (`!!x`). */
  predicate Truthy(f: Field) {
    match f
    case Missing => false
    case Null => false
    case Number(v) => v != 0.0
    case NonNumeric => true
  }

  /** `Number(x)`: `undefined` and non-numeric values become NaN, `null` becomes 0. */
  function ToNumber(f: Field): (r: Num)
    ensures r.NaN? <==> (f.Missing? || f.NonNumeric?)
    ensures f.Null? ==> r == Finite(0.0)
    ensures f.Number? ==> r == Finite(f.value)
  {
    match f
    case Missing => NaN
    case Null => Finite(0.0)
    case Number(v) => Finite(v)
    case NonNumeric => NaN
  }

  /** `x || 0`: a falsy field is replaced by the number 0. */
  function OrZero(f: Field): (r: Field)
    ensures Truthy(f) ==> r == f
    ensures !Truthy(f) ==> r == Number(0.0)
  {
    if Truthy(f) then f else Number(0.0)
  }

  /** Truthiness of a JavaScript number: 0 and NaN are falsy. */
  predicate NumTruthy(n: Num) {
    n.Finite? && n.value != 0.0
  }

  function Min(a: real, b: real): real { if a <= b then a else b }

  function Max(a: real, b: real): real { if a >= b then a else b }
}
