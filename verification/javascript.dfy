/** The fragments of JavaScript semantics the web client relies on, applied
    to values decoded from JSON. `None` stands for `undefined`. */
module JavaScript {
  import opened Outcomes
  import opened Wire

  /** The only exception the client's code can raise here. */
  datatype JsError = TypeError

  /** `v.key`: reading a property of null or undefined throws; an object
      yields its field or undefined; any other value has none of the
      properties the client reads. */
  function Prop(v: Option<Json>, key: string): (r: Result<Option<Json>, JsError>)
    ensures r.Err? <==> v == None || v == Some(Null)
    ensures r.Ok? && r.value.Some? <==> v.Some? && v.value.Obj? && key in v.value.fields
    ensures r.Ok? && r.value.Some? ==> r.value.value == v.value.fields[key]
  {
    match v
    case None => Err(TypeError)
    case Some(Null) => Err(TypeError)
    case Some(Obj(fields)) => Ok(if key in fields then Some(fields[key]) else None)
    case Some(_) => Ok(None)
  }

  /** JavaScript truthiness (a decoded number is never NaN). */
  predicate Truthy(v: Option<Json>)
  {
    match v
    case None => false
    case Some(Null) => false
    case Some(Bool(b)) => b
    case Some(Num(n)) => n != 0.0
    case Some(Str(s)) => s != []
    case Some(_) => true
  }

  /** Numeric coercion as arithmetic applies it, where it yields a real:
      null is 0, booleans are 0 and 1, numbers are themselves. `None` covers
      undefined (NaN) and strings, arrays and objects, whose coercion the
      model does not follow. */
  function ToNumber(v: Option<Json>): Option<real>
  {
    match v
    case Some(Null) => Some(0.0)
    case Some(Bool(b)) => Some(if b then 1.0 else 0.0)
    case Some(Num(n)) => Some(n)
    case _ => None
  }

  /** `Math.round`: the nearest integer, halves rounded up. */
  function Round(x: real): (n: int)
    ensures n as real - 0.5 <= x < n as real + 0.5
  {
    (x + 0.5).Floor
  }

  /** The integer part of a real, rounded toward zero. */
  function Trunc(x: real): int
  {
    if x >= 0.0 then x.Floor else -((-x).Floor)
  }

  /** `x % m` on numbers: the remainder of truncating division, which takes
      the sign of `x`. */
  function Rem(x: real, m: real): real
    requires m != 0.0
  {
    x - m * Trunc(x / m) as real
  }
}
