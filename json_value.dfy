/**
 * Decoded JSON values as Python's `json.loads` produces them, with the Python
 * operations the agent applies to them: truthiness, `dict.get` and `type(x).__name__`.
 */
module JsonValue {
  import opened Wrappers

  datatype Json =
    | JNull
    | JBool(b: bool)
    | JInt(i: int)
    | JFloat(r: real)
    | JStr(s: string)
    | JArr(items: seq<Json>)
    | JObj(fields: map<string, Json>)

  /** Python truthiness (`bool(x)`) of a decoded value. */
  predicate Truthy(j: Json) {
    match j
    case JNull => false
    case JBool(b) => b
    case JInt(i) => i != 0
    case JFloat(r) => r != 0.0
    case JStr(s) => |s| > 0
    case JArr(items) => |items| > 0
    case JObj(fields) => |fields| > 0
  }

  /** Values that can serve as a dict key or `in dict` operand (lists and dicts raise TypeError). */
  predicate Hashable(j: Json) {
    !j.JArr? && !j.JObj?
  }

  /** `obj.get(key, default)` on a decoded object. */
  function Get(fields: map<string, Json>, key: string, default: Json): (r: Json)
    ensures key in fields ==> r == fields[key]
    ensures key !in fields ==> r == default
  {
    if key in fields then fields[key] else default
  }

  /** `type(x).__name__` of a decoded value. */
  function TypeName(j: Json): (r: string)
    ensures |r| > 0
  {
    match j
    case JNull => "NoneType"
    case JBool(_) => "bool"
    case JInt(_) => "int"
    case JFloat(_) => "float"
    case JStr(_) => "str"
    case JArr(_) => "list"
    case JObj(_) => "dict"
  }

  const EmptyObject: Json := JObj(map[])

  /** The AttributeError `x.get(...)` raises on a decoded value that is not a dict. */
  function NoGet(v: Json): string {
    "'" + TypeName(v) + "' object has no attribute 'get'"
  }

  /**
   * The Python runtime's JSON codec and `str()`, which the model treats as given:
   * `loads` is `json.loads` (Err carries the JSONDecodeError text), `dumps` is
   * `json.dumps`, `show` is `str(x)` of a decoded value.
   */
  datatype Codec = Codec(loads: string -> Result<Json>, dumps: Json -> string, show: Json -> string)

  /** The text an f-string interpolates for a decoded value: the string itself, or `str(x)`. */
  function TextOf(codec: Codec, j: Json): (r: string)
    ensures j.JStr? ==> r == j.s
  {
    if j.JStr? then j.s else codec.show(j)
  }
}
