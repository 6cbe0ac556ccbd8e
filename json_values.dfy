/** JSON values as the HTTP client decodes them, with Python's truthiness. */
module JsonValues {
  import Outcomes

  datatype Json =
    | JNull
    | JBool(b: bool)
    | JNum(n: real)
    | JStr(s: string)
    | JArr(items: seq<Json>)
    | JObj(fields: map<string, Json>)

  /** Python's `bool(x)` on a decoded JSON value. */
  predicate Truthy(j: Json)
    ensures !Truthy(j) <==> j in {JNull, JBool(false), JNum(0.0), JStr(""), JArr([]), JObj(map[])}
  {
    match j
    case JNull => false
    case JBool(b) => b
    case JNum(n) => n != 0.0
    case JStr(s) => s != ""
    case JArr(items) => items != []
    case JObj(fields) => fields != map[]
  }

  /** The numeric value Python arithmetic sees (`bool` is a subclass of `int`). */
  function Numeric(j: Json): (r: Outcomes.Option<real>)
    ensures r.Some? <==> j.JNum? || j.JBool?
  {
    match j
    case JNum(n) => Outcomes.Some(n)
    case JBool(b) => Outcomes.Some(if b then 1.0 else 0.0)
    case _ => Outcomes.None
  }
}
