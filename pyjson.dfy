/**
  A parsed JSON document as the request handler sees it after Flask has
  decoded the body: a Python value built from None, bool, int/float, str,
  list and dict.  The functions here give the few pieces of Python semantics
  the handler relies on: truthiness (`if not data`), `dict.get` with a
  default, and which values may stand on the left of `/ 100`.
 */
module PyJson {

  datatype Option<+T> = None | Some(value: T)

  /** JSON values; numbers are kept as exact reals (ints and floats alike). */
  datatype Json =
    | JNull
    | JBool(b: bool)
    | JNum(n: real)
    | JStr(s: string)
    | JArr(items: seq<Json>)
    | JObj(fields: map<string, Json>)

  /** Python's `bool(v)`: null, false, zero and empty containers are falsy. */
  predicate Truthy(v: Json) {
    match v
    case JNull => false
    case JBool(b) => b
    case JNum(n) => n != 0.0
    case JStr(s) => |s| > 0
    case JArr(items) => |items| > 0
    case JObj(fields) => |fields| > 0
  }

  /** The six falsy JSON values, listed independently of Truthy. */
  predicate IsFalsyLiteral(v: Json) {
    v == JNull || v == JBool(false) || v == JNum(0.0) || v == JStr("")
    || v == JArr([]) || v == JObj(map[])
  }

  /** A JSON value is falsy exactly when it is one of the six empty literals. */
  lemma FalsyIffEmptyLiteral(v: Json)
    ensures !Truthy(v) <==> IsFalsyLiteral(v)
  {
    if v.JObj? && |v.fields| == 0 {
      assert v.fields == map[];
    }
  }

  /**
    The value `v / 100` can be computed from: ints and floats as they are,
    and bools as 0 and 1 (Python's bool is a subclass of int).  Every other
    value makes `/` raise a TypeError, here None.
   */
  function AsNumber(v: Json): (r: Option<real>)
    ensures r.Some? <==> v.JNum? || v.JBool?
    ensures v.JNum? ==> r == Some(v.n)
    ensures v.JBool? ==> r == Some(if v.b then 1.0 else 0.0)
    // a number is truthy exactly when it is non-zero, bools included
    ensures r.Some? ==> (Truthy(v) <==> r.value != 0.0)
  {
    match v
    case JNum(n) => Some(n)
    case JBool(b) => Some(if b then 1.0 else 0.0)
    case _ => None
  }

  /** Python's `d.get(key, default)` on a dict. */
  function GetOr(fields: map<string, Json>, key: string, default: Json): Json {
    if key in fields then fields[key] else default
  }

  /** The member `key` of an object; None for a missing key or a non-object. */
  function Field(v: Json, key: string): Option<Json> {
    if v.JObj? && key in v.fields then Some(v.fields[key]) else None
  }
}
