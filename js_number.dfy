/**
 * JavaScript numbers without rounding: a finite number is a real, and the
 * three non-finite values are kept apart because the guards of the source
 * (`Number.isFinite`, `x > 0`, `x <= 0`, `x || y`) treat them differently.
 * Negative zero is not distinguished from zero.
 */
module JsNumber {

  datatype Number = Fin(v: real) | PosInf | NegInf | NaN

  /** `Number.isFinite(n)` for a value whose type is number. */
  predicate IsFinite(n: Number) { n.Fin? }

  /** How `if (n)`, `!n` and `n || …` see a number: 0 and NaN are falsy. */
  predicate Truthy(n: Number) {
    match n
    case Fin(x) => x != 0.0
    case NaN => false
    case _ => true
  }

  /** `n > 0` */
  predicate Positive(n: Number) { (n.Fin? && n.v > 0.0) || n.PosInf? }

  /** `n <= 0`, which is false for NaN. */
  predicate AtMostZero(n: Number) { (n.Fin? && n.v <= 0.0) || n.NegInf? }

  /** `n >= 0`, which is false for NaN. */
  predicate AtLeastZero(n: Number) { (n.Fin? && n.v >= 0.0) || n.PosInf? }

  function Neg(a: Number): Number {
    match a
    case Fin(x) => Fin(-x)
    case PosInf => NegInf
    case NegInf => PosInf
    case NaN => NaN
  }

  /** `a + b` */
  function Add(a: Number, b: Number): (r: Number)
    ensures a.Fin? && b.Fin? ==> r == Fin(a.v + b.v)
    ensures r.NaN? <==> a.NaN? || b.NaN? || (a.PosInf? && b.NegInf?) || (a.NegInf? && b.PosInf?)
  {
    match (a, b)
    case (Fin(x), Fin(y)) => Fin(x + y)
    case (NaN, _) => NaN
    case (_, NaN) => NaN
    case (Fin(_), _) => b
    case (_, Fin(_)) => a
    case _ => if a == b then a else NaN
  }

  /** `a - b` */
  function Sub(a: Number, b: Number): (r: Number)
    ensures a.Fin? && b.Fin? ==> r == Fin(a.v - b.v)
  {
    Add(a, Neg(b))
  }

  /** The sign of a number that is not NaN. */
  function Sign(a: Number): int
    requires !a.NaN?
  {
    match a
    case Fin(x) => if x > 0.0 then 1 else if x < 0.0 then -1 else 0
    case PosInf => 1
    case NegInf => -1
  }

  /** `a * b`: an infinity times zero is NaN. */
  function Mul(a: Number, b: Number): (r: Number)
    ensures a.Fin? && b.Fin? ==> r == Fin(a.v * b.v)
    ensures a.NaN? || b.NaN? ==> r.NaN?
  {
    if a.NaN? || b.NaN? then NaN
    else if a.Fin? && b.Fin? then Fin(a.v * b.v)
    else
      var s := Sign(a) * Sign(b);
      if s == 0 then NaN else if s > 0 then PosInf else NegInf
  }

  /**
   * `a / b`, for the only divisors the model ever divides by: finite and
   * non-zero.
   */
  function Div(a: Number, b: Number): (r: Number)
    requires b.Fin? && b.v != 0.0
    ensures a.Fin? ==> r == Fin(a.v / b.v)
    ensures a.NaN? <==> r.NaN?
  {
    match a
    case Fin(x) => Fin(x / b.v)
    case NaN => NaN
    case PosInf => if b.v > 0.0 then PosInf else NegInf
    case NegInf => if b.v > 0.0 then NegInf else PosInf
  }

  /**
   * A numeric field of a stored record: a number, or missing (undefined or
   * null; for a stored task also any value whose type is not number).
   */
  datatype NumField = Present(n: Number) | Missing

  /** `Number.isFinite(f)` */
  predicate FieldIsFinite(f: NumField) { f.Present? && f.n.Fin? }

  /** `Number.isFinite(f) && f > 0` */
  predicate FieldIsPositiveFinite(f: NumField) { f.Present? && f.n.Fin? && f.n.v > 0.0 }

  /** Truthiness of a field: missing values, 0 and NaN are falsy. */
  predicate FieldTruthy(f: NumField) { f.Present? && Truthy(f.n) }

  /**
   * `typeof f === 'number' ? f : d`, which on these fields is also `f ?? d`.
   */
  function OrIfMissing(f: NumField, d: Number): (r: Number)
    ensures f.Present? ==> r == f.n
    ensures f.Missing? ==> r == d
  {
    if f.Present? then f.n else d
  }

  /** `f || d` */
  function FieldOr(f: NumField, d: Number): (r: Number)
    ensures FieldTruthy(f) ==> r == f.n
    ensures !FieldTruthy(f) ==> r == d
  {
    if FieldTruthy(f) then f.n else d
  }
}
