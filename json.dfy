/**
 * JSON values as the browser client and the Flask server exchange them, with
 * the two truthiness rules the code relies on: JavaScript's (`if (x)`, `x || y`)
 * and Python's (`if not x`).
 */
module Json {

  datatype Option<+T> = None | Some(value: T)

  /** A parsed JSON value. Arrays and non-integral numbers are not modelled. */
  datatype Value =
    | Null
    | Bool(b: bool)
    | Num(n: int)
    | Str(s: string)
    | Obj(fields: map<string, Value>)

  /** JavaScript truthiness of a value read from parsed JSON; every object is truthy. */
  predicate JsTruthy(v: Value) {
    match v
    case Null => false
    case Bool(b) => b
    case Num(n) => n != 0
    case Str(s) => s != ""
    case Obj(_) => true
  }

  /** JavaScript truthiness of a property read, where `None` is `undefined`. */
  predicate Truthy(p: Option<Value>) {
    p.Some? && JsTruthy(p.value)
  }

  /** Python truthiness of a decoded JSON value; an empty dict is falsy. */
  predicate PyTruthy(v: Value) {
    match v
    case Null => false
    case Bool(b) => b
    case Num(n) => n != 0
    case Str(s) => s != ""
    case Obj(m) => m != map[]
  }

  /**
   * JavaScript `v.key` on a parsed JSON value that is not `null` (reading a
   * property of `null` throws, and callers model that case themselves).
   * Primitives have none of the keys this application reads.
   */
  function Prop(v: Value, key: string): (r: Option<Value>)
    requires !v.Null?
    ensures r.Some? <==> v.Obj? && key in v.fields
    ensures r.Some? ==> r.value == v.fields[key]
  {
    if v.Obj? && key in v.fields then Some(v.fields[key]) else None
  }

  /** Python `d.get(key)`: `None` both for a missing key and for a JSON `null`. */
  function PyGet(m: map<string, Value>, key: string): (r: Option<Value>)
    ensures r.None? <==> key !in m || m[key] == Null
    ensures r.Some? ==> r.value == m[key]
  {
    if key in m && m[key] != Null then Some(m[key]) else None
  }

  /** JavaScript `a || b` on two property reads. */
  function JsOr(a: Option<Value>, b: Option<Value>): (r: Option<Value>)
    ensures Truthy(a) ==> r == a
    ensures !Truthy(a) ==> r == b
  {
    if Truthy(a) then a else b
  }

  function DigitChar(d: nat): (c: char)
    requires d < 10
    ensures '0' <= c <= '9'
  {
    "0123456789"[d]
  }

  /** Decimal digits of a natural number, most significant first. */
  function NatToString(n: nat): (r: string)
    ensures |r| >= 1
    ensures forall i :: 0 <= i < |r| ==> '0' <= r[i] <= '9'
    ensures r[0] == '0' ==> n == 0
  {
    if n < 10 then [DigitChar(n)] else NatToString(n / 10) + [DigitChar(n % 10)]
  }

  /** JavaScript `String(n)` for an integer. */
  function IntToString(n: int): (r: string)
    ensures r != ""
    ensures r[0] == '-' <==> n < 0
  {
    if n < 0 then "-" + NatToString(-n) else NatToString(n)
  }

  /** JavaScript `String(v)`. */
  function ToJsString(v: Value): (r: string)
    ensures JsTruthy(v) ==> r != ""
    ensures v.Str? ==> r == v.s
  {
    match v
    case Null => "null"
    case Bool(b) => if b then "true" else "false"
    case Num(n) => IntToString(n)
    case Str(s) => s
    case Obj(_) => "[object Object]"
  }

  /**
   * The `message` of `new Error(x)`: the empty string when `x` is
   * `undefined`, and `String(x)` otherwise.
   */
  function ErrorMessage(x: Option<Value>): (r: string)
    ensures x.None? ==> r == ""
    ensures Truthy(x) ==> r != ""
  {
    match x
    case None => ""
    case Some(v) => ToJsString(v)
  }
}
