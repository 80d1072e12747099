/** The values `json.load` produces and the two Python operations the
    application applies to them: truthiness (`if x`, `x or default`) and
    `str(x)` (every f-string that formats a setting or a reply). */
module JsonValues {
  import Text

  datatype Json =
    | JNull
    | JBool(b: bool)
    | JInt(i: int)
      /** A JSON float is kept opaque: its Python text and whether it is zero. */
    | JFloat(text: string, isZero: bool)
    | JStr(s: string)
    | JArr(items: seq<Json>)
    | JObj(fields: map<string, Json>)

  datatype Option<T> = None | Some(value: T)

  /** Python truthiness of a decoded JSON value. */
  predicate Truthy(j: Json) {
    match j
    case JNull => false
    case JBool(b) => b
    case JInt(i) => i != 0
    case JFloat(_, zero) => !zero
    case JStr(s) => s != []
    case JArr(a) => a != []
    case JObj(m) => m != map[]
  }

  /** Python's `a or b`. */
  function Or(a: Json, b: Json): Json {
    if Truthy(a) then a else b
  }

  /** Whether Python's `len()` accepts the value. */
  predicate Sized(j: Json) {
    j.JStr? || j.JArr? || j.JObj?
  }

  /** Python's `str()` of a decoded JSON value, as an f-string renders it.
      Lists and dicts are rendered as a fixed placeholder. */
  function PyStr(j: Json): string {
    match j
    case JNull => "None"
    case JBool(b) => if b then "True" else "False"
    case JInt(i) => Text.IntToString(i)
    case JFloat(t, _) => t
    case JStr(s) => s
    case JArr(_) => "[...]"
    case JObj(_) => "{...}"
  }
}
