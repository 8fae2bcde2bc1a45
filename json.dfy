/**
 * JSON values as the checkout's JavaScript sees them once parsed, with the two
 * language rules the code relies on: truthiness (`if (x)`, `x || y`) and
 * optional member access (`x?.key`). Numbers are integers here; fractional
 * numbers play no part in the modelled branches.
 */
module Json {
  import opened Wrappers

  datatype Json =
    | JNull
    | JBool(b: bool)
    | JNumber(n: int)
    | JString(s: string)
    | JArray(elems: seq<Json>)
    | JObject(fields: map<string, Json>)

  /** The outcome of `JSON.parse` / `response.json()`: a value, or the runtime's syntax error message. */
  datatype Parsed = Value(json: Json) | SyntaxError(message: string)

  /** JavaScript truthiness of a value; `None` stands for `undefined`. */
  predicate Truthy(v: Option<Json>)
    ensures Truthy(v) ==> v.Some? && !v.value.JNull?
    ensures v.Some? && (v.value.JObject? || v.value.JArray?) ==> Truthy(v)
    ensures v.Some? && v.value.JString? ==> (Truthy(v) <==> v.value.s != "")
  {
    match v
    case None => false
    case Some(JNull) => false
    case Some(JBool(b)) => b
    case Some(JNumber(n)) => n != 0
    case Some(JString(s)) => s != ""
    case Some(JArray(_)) => true
    case Some(JObject(_)) => true
  }

  /** `v?.key`: the member of an object, `undefined` for anything else or a missing key. */
  function Member(v: Option<Json>, key: string): (r: Option<Json>)
    ensures r.Some? <==> v.Some? && v.value.JObject? && key in v.value.fields
    ensures r.Some? ==> r.value == v.value.fields[key]
  {
    match v
    case Some(JObject(fields)) => if key in fields then Some(fields[key]) else None
    case _ => None
  }

  /** A string member that is truthy, i.e. present and non-empty. */
  function NonEmptyString(v: Option<Json>): (r: Option<string>)
    ensures r.Some? <==> v.Some? && v.value.JString? && v.value.s != ""
    ensures r.Some? ==> Truthy(v) && Some(JString(r.value)) == v
  {
    match v
    case Some(JString(s)) => if s != "" then Some(s) else None
    case _ => None
  }
}
