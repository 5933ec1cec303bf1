/** Decoded JSON values as Python holds them, and the Python primitives over them that
    this model leaves uninterpreted. */
module PyJson {
  import opened Wrappers

  /** A value produced by `json.loads`: `None`, a bool, a number, a string, a list or a
      dict.  Python's int/float distinction is not kept; both are numbers. */
  datatype Json =
    | JNull
    | JBool(b: bool)
    | JNum(n: real)
    | JStr(s: string)
    | JList(items: seq<Json>)
    | JObj(fields: map<string, Json>)

  /** The Python runtime functions whose details are out of scope, passed in as values:
      `json.loads` (None when it raises JSONDecodeError), `float()` on a string (None
      when it raises ValueError), and `str()` of a number, list or dict. */
  datatype Py = Py(
    loads: string -> Option<Json>,
    floatOf: string -> Option<real>,
    render: Json -> string)

  /** `d.get(key, default)` on a dict. */
  function Get(d: map<string, Json>, key: string, default: Json): Json {
    if key in d then d[key] else default
  }

  /** Python's `float(value)`: None when it raises (TypeError or ValueError). */
  function FloatOf(v: Json, py: Py): Option<real> {
    match v
    case JNull => None
    case JBool(b) => Some(if b then 1.0 else 0.0)
    case JNum(n) => Some(n)
    case JStr(s) => py.floatOf(s)
    case JList(_) => None
    case JObj(_) => None
  }

  /** Python's `str(value)`. */
  function Str(v: Json, py: Py): string {
    match v
    case JStr(s) => s
    case JNull => "None"
    case JBool(b) => if b then "True" else "False"
    case _ => py.render(v)
  }
}
