/** JSON values as the program sees them after `JSON.parse`, together with the
    JavaScript truthiness and loose-null tests the program applies to them.
    The JSON grammar itself is not modelled: parsing and printing are
    collaborators passed in as functions. */
module Json {
  import opened Results

  /** A JSON value. Numbers are real numbers (the parser's double rounding is
      not modelled); objects are maps because key order is irrelevant here. */
  datatype Json =
    | JNull
    | JBool(b: bool)
    | JNumber(n: real)
    | JString(s: string)
    | JArray(items: seq<Json>)
    | JObject(fields: map<string, Json>)

  /** The underlying cause an error carries (a `SyntaxError` from the JSON
      parser, an exception from the signer, a network error). Only its text is
      kept; the model never inspects it. */
  datatype Cause = Cause(message: string)

  /** `JSON.parse`: text to a value, or the syntax error it throws. */
  type Parser = string -> Result<Json, Cause>

  /** `JSON.stringify` without indentation. */
  type Printer = Json -> string

  /** JavaScript truthiness of a parsed JSON value: `null`, `false`, `0`, `-0`
      and `""` are falsy; every array and object, even an empty one, is truthy. */
  predicate Truthy(v: Json) {
    match v
    case JNull => false
    case JBool(b) => b
    case JNumber(n) => n != 0.0
    case JString(s) => |s| > 0
    case JArray(_) => true
    case JObject(_) => true
  }

  /** Truthiness of a possibly-`undefined` value; `undefined` is falsy. */
  predicate TruthyOpt(v: Option<Json>) {
    v.Some? && Truthy(v.value)
  }

  /** `v != null` in JavaScript's loose sense: neither `undefined` nor `null`. */
  predicate NotNullish(v: Option<Json>) {
    v.Some? && v.value != JNull
  }

  /** Property access `o[k]` on a JSON object; a missing key is `undefined`. */
  function Field(o: map<string, Json>, k: string): (r: Option<Json>)
    ensures r.Some? <==> k in o
    ensures r.Some? ==> r.value == o[k]
  {
    if k in o then Some(o[k]) else None
  }
}
