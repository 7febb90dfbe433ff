/** Decoded JSON values: what the queues, the cache and the bucket hold, and what message bodies are made of. */
module JsonValues {
  import opened Strings

  /**
   * A decoded JSON value. A float is kept as `mantissa * 10^exponent`
   * (0.25 is JFloat(25, -2)); no arithmetic is done on it anywhere.
   */
  datatype Json =
    | JNull
    | JBool(b: bool)
    | JInt(i: int)
    | JFloat(mantissa: int, exponent: int)
    | JString(s: string)
    | JArray(items: seq<Json>)
    | JObject(fields: map<string, Json>)

  /** Python's truth value of the decoded value (`if value:`). */
  predicate Truthy(j: Json) {
    match j
    case JNull => false
    case JBool(b) => b
    case JInt(i) => i != 0
    case JFloat(m, _) => m != 0
    case JString(s) => s != ""
    case JArray(items) => items != []
    case JObject(fields) => fields != map[]
  }

  /** `d.get(key, default)`. */
  function GetOr(d: map<string, Json>, key: string, default: Json): Json {
    if key in d then d[key] else default
  }

  /**
   * `str(value)` for the scalars that get formatted into messages and keys:
   * a string as itself, an integer in decimal, `True`/`False`, `None`.
   * Floats, lists and dicts are rendered as the empty text.
   */
  function PyStr(j: Json): string {
    match j
    case JString(s) => s
    case JInt(i) => IntToString(i)
    case JBool(b) => if b then "True" else "False"
    case JNull => "None"
    case _ => ""
  }
}
