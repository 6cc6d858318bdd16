/**
 * Untyped JavaScript values as they arrive in request bodies and in
 * notification messages, with the operators the routes apply to them.
 */
module JsValue {
  import opened Wrappers
  import opened JsNumber

  /** An object or array is represented by its identity only. */
  datatype JsValue =
    | JUndefined
    | JNull
    | JBool(b: bool)
    | JNum(n: Number)
    | JStr(s: string)
    | JObject(ref: nat)

  /** How `if (x)`, `!x` and `x || y` see a value. */
  predicate Truthy(x: JsValue) {
    match x
    case JUndefined => false
    case JNull => false
    case JBool(b) => b
    case JNum(n) => JsNumber.Truthy(n)
    case JStr(s) => s != ""
    case JObject(_) => true
  }

  /** `x === y`: structural for primitives, except that NaN equals nothing. */
  predicate StrictEq(x: JsValue, y: JsValue) {
    x == y && x != JNum(NaN)
  }

  /** `x || y` */
  function Or(x: JsValue, y: JsValue): (r: JsValue)
    ensures Truthy(x) ==> r == x
    ensures !Truthy(x) ==> r == y
  {
    if Truthy(x) then x else y
  }

  /** `x ?? y` */
  function Coalesce(x: JsValue, y: JsValue): (r: JsValue)
    ensures (x == JUndefined || x == JNull) ==> r == y
    ensures !(x == JUndefined || x == JNull) ==> r == x
  {
    if x == JUndefined || x == JNull then y else x
  }

  /** `s || d` for a string field that may be missing. */
  function StrOr(s: Option<string>, d: string): (r: string)
    ensures s.Some? && s.value != "" ==> r == s.value
    ensures !(s.Some? && s.value != "") ==> r == d
  {
    if s.Some? && s.value != "" then s.value else d
  }

  function Min(a: int, b: int): int { if a <= b then a else b }
  function Max(a: int, b: int): int { if a >= b then a else b }

  /** Where `String.prototype.slice` puts an index: negative counts from the end. */
  function SliceIndex(len: nat, k: int): (r: nat)
    ensures r <= len
  {
    if k < 0 then Max(len + k, 0) else Min(k, len)
  }

  /** `s.slice(start, end)`; `s.slice(start)` is `Slice(s, start, |s|)`. */
  function Slice(s: string, start: int, end: int): (r: string)
    ensures |r| <= |s|
  {
    var from := SliceIndex(|s|, start);
    var to := SliceIndex(|s|, end);
    if from < to then s[from..to] else ""
  }

  /** `s.slice(0, n)` is the first `n` characters, or all of a shorter `s`. */
  lemma SliceHead(s: string, n: nat)
    ensures Slice(s, 0, n) == s[..Min(n, |s|)]
  {
  }

  /** `s.slice(-n)` is the last `n` characters, or all of a shorter `s`. */
  lemma SliceTail(s: string, n: nat)
    requires n > 0
    ensures Slice(s, -(n as int), |s|) == s[Max(|s| - n, 0)..]
  {
  }
}
