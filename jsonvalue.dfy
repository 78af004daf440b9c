/** JSON documents as the pipeline reads them (parsed configuration files, narrative schemas,
    settings files), with Python's truthiness and `dict.get` on them. */
module JsonValue {
  import opened Wrappers

  /** A parsed JSON value. Numbers are reals: the model does not tell Python's `int` from
      `float`. */
  datatype Json =
    | JNull
    | JBool(b: bool)
    | JNum(n: real)
    | JStr(s: string)
    | JArr(items: seq<Json>)
    | JObj(fields: map<string, Json>)

  /** Python's `bool(v)`. */
  predicate Truthy(v: Json) {
    match v
    case JNull => false
    case JBool(b) => b
    case JNum(n) => n != 0.0
    case JStr(s) => s != ""
    case JArr(items) => items != []
    case JObj(fields) => fields != map[]
  }

  /** `v.get(key)` when `v` is a dict; `None` for a missing key. */
  function Get(v: Json, key: string): Option<Json> {
    if v.JObj? && key in v.fields then Some(v.fields[key]) else None
  }

  /** `v.get(key, default)` when `v` is a dict. */
  function GetOr(v: Json, key: string, default: Json): Json {
    if v.JObj? && key in v.fields then v.fields[key] else default
  }

  /** `f"{v}"` for a string, `None` or a boolean. Other values are rendered as the empty
      string: Python's `str` of a number, list or dict is not modelled. */
  function Display(v: Json): string {
    match v
    case JStr(s) => s
    case JNull => "None"
    case JBool(b) => if b then "True" else "False"
    case _ => ""
  }

  /** The string held by an optional value, or `""` when it is absent or not a string. */
  function StrOr(v: Option<Json>, default: string): string {
    if v.Some? && v.value.JStr? then v.value.s else default
  }

  /** The elements of an optional list value; anything else counts as an empty list. */
  function Items(v: Option<Json>): seq<Json> {
    if v.Some? && v.value.JArr? then v.value.items else []
  }
}
