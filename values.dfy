/** Values shared by the browser client and the server: an optional value
    (JavaScript's null/undefined, Python's None) and JSON documents. */
module Values {

  datatype Option<+T> = None | Some(value: T)

  /** A JSON document as it travels in a request or response body. */
  datatype Json =
    | JNull
    | JBool(b: bool)
    | JNumber(n: real)
    | JString(s: string)
    | JArray(items: seq<Json>)
    | JObject(fields: map<string, Json>)

  /** JavaScript truthiness of a parsed JSON value: null, false, 0 and ""
      are falsy; every array and every object is truthy. */
  predicate Truthy(j: Json) {
    match j
    case JNull => false
    case JBool(b) => b
    case JNumber(n) => n != 0.0
    case JString(s) => s != ""
    case JArray(_) => true
    case JObject(_) => true
  }

  /** Truthiness of a value read from the browser's key-value store:
      `getItem` yields null for a missing key, and "" is falsy. */
  predicate TruthyText(v: Option<string>) {
    v.Some? && v.value != ""
  }

  /** JavaScript property access `j.key`: undefined unless `j` is an object
      that has the key. */
  function Field(j: Json, key: string): (r: Option<Json>)
    ensures r.Some? <==> j.JObject? && key in j.fields
    ensures r.Some? ==> r.value == j.fields[key]
  {
    if j.JObject? && key in j.fields then Some(j.fields[key]) else None
  }

  /** What a template literal `${v}` produces for a nullable string. */
  function Interpolate(v: Option<string>): (r: string)
    ensures v.Some? ==> r == v.value
    ensures v.None? ==> r == "null"
  {
    match v
    case Some(s) => s
    case None => "null"
  }
}
