/**
 * The value `json.loads` produces from `smartctl -j` output, and the few
 * Python operations smartfix.py applies to it. Every lookup that would raise
 * in Python (AttributeError, KeyError, TypeError, IndexError) yields None.
 */
module Json {
  import opened Wrappers

  datatype Json =
    | JNull
    | JBool(b: bool)
    | JInt(n: int)
    | JFloat(r: real)          // a JSON number with a fraction or exponent
    | JString(s: string)
    | JArray(items: seq<Json>)
    | JObject(fields: map<string, Json>)

  const EmptyObject: Json := JObject(map[])

  /** Python truthiness, as in `if not data`. */
  predicate Truthy(j: Json) {
    match j
    case JNull => false
    case JBool(b) => b
    case JInt(n) => n != 0
    case JFloat(r) => r != 0.0
    case JString(s) => s != []
    case JArray(items) => items != []
    case JObject(fields) => fields != map[]
  }

  /** `isinstance(j, int)`, with the integer it denotes; Python's bool is an int. */
  function AsInt(j: Json): (r: Option<int>)
    ensures r.Some? <==> j.JInt? || j.JBool?
  {
    match j
    case JInt(n) => Some(n)
    case JBool(b) => Some(if b then 1 else 0)
    case _ => None
  }

  /** Python's `j == n` for an integer literal `n`. */
  predicate EqualsInt(j: Json, n: int) {
    match j
    case JInt(m) => m == n
    case JBool(b) => (if b then 1 else 0) == n
    case JFloat(r) => r == n as real
    case _ => false
  }

  /** `j.get(key, default)`; None when `j` is not a dict. */
  function Get(j: Json, key: string, default: Json): (r: Option<Json>)
    ensures r.Some? <==> j.JObject?
  {
    if j.JObject? then Some(if key in j.fields then j.fields[key] else default) else None
  }

  /** `j[key]` for a string key; None on KeyError or TypeError. */
  function Field(j: Json, key: string): Option<Json> {
    if j.JObject? && key in j.fields then Some(j.fields[key]) else None
  }

  /** `j[k1][k2]...` */
  function Path(j: Json, keys: seq<string>): Option<Json>
    decreases |keys|
  {
    if keys == [] then Some(j)
    else match Field(j, keys[0])
      case None => None
      case Some(v) => Path(v, keys[1..])
  }

  /** `j[0]`; None on IndexError, KeyError or TypeError. */
  function Index0(j: Json): Option<Json> {
    match j
    case JArray(items) => if items != [] then Some(items[0]) else None
    case JString(s) => if s != [] then Some(JString([s[0]])) else None
    case _ => None
  }

  /**
   * The elements `for x in j` visits, when every one of them is of use to a
   * loop that calls `x.get(...)`: only a list qualifies, since iterating a
   * string or a dict yields strings (whose `.get` raises at once) and any
   * other value is not iterable.
   */
  function ListItems(j: Json): Option<seq<Json>> {
    if j.JArray? then Some(j.items) else None
  }
}
