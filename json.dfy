/**
 * Parsed JSON as Python's `json.load` returns it, and the handful of Python
 * operations the pipeline applies to such values: truthiness, `dict.get`,
 * subscripting with a string key, the `in` operator, and reading a value as
 * an integer (Python's `bool` is an `int` subclass, so `True` reads as 1).
 */
module PyJson {
  import opened Wrappers
  import Text

  /** A parsed JSON document. Objects are Python dicts; key order is not kept. */
  datatype Json =
    | Null
    | Bool(b: bool)
    | Int(i: int)
    | Real(r: real)           // a JSON number with a fraction or exponent (a Python float)
    | Str(s: string)
    | Arr(items: seq<Json>)
    | Obj(fields: map<string, Json>)

  /** A Python dict loaded from a JSON object. */
  type Dict = map<string, Json>

  /** Python's truth value of a JSON value (`if x:`). */
  predicate Truthy(j: Json)
  {
    match j
    case Null => false
    case Bool(b) => b
    case Int(i) => i != 0
    case Real(r) => r != 0.0
    case Str(s) => s != ""
    case Arr(a) => a != []
    case Obj(m) => m != map[]
  }

  /** The integer a value stands for when Python formats or compares it as one. */
  function AsInt(j: Json): (r: Option<int>)
    ensures r.Some? <==> j.Int? || j.Bool?
  {
    match j
    case Int(i) => Some(i)
    case Bool(b) => Some(if b then 1 else 0)
    case _ => None
  }

  /** The number a value stands for in Python arithmetic (`/`, comparisons); `None` where that raises. */
  function AsNumber(j: Json): (r: Option<real>)
    ensures r.Some? <==> j.Int? || j.Bool? || j.Real?
    ensures AsInt(j).Some? ==> r == Some(AsInt(j).value as real)
  {
    match j
    case Int(i) => Some(i as real)
    case Bool(b) => Some(if b then 1.0 else 0.0)
    case Real(x) => Some(x)
    case _ => None
  }

  /** `d.get(k, default)`. */
  function GetOr(d: Dict, k: string, default: Json): (r: Json)
    ensures k in d ==> r == d[k]
    ensures k !in d ==> r == default
  {
    if k in d then d[k] else default
  }

  /** `key in container` for a string key; `None` where Python raises `TypeError`. */
  function Contains(container: Json, key: string): (r: Option<bool>)
    ensures container.Obj? ==> r == Some(key in container.fields)
    ensures r.None? <==> !(container.Obj? || container.Arr? || container.Str?)
  {
    match container
    case Obj(m) => Some(key in m)
    case Arr(a) => Some(Str(key) in a)
    case Str(s) => Some(Text.IsSubstring(key, s))
    case _ => None
  }

  /** `container[key]` for a string key; `None` where Python raises. */
  function Subscript(container: Json, key: string): (r: Option<Json>)
    ensures r.Some? <==> container.Obj? && key in container.fields
    ensures r.Some? ==> r.value == container.fields[key]
  {
    if container.Obj? && key in container.fields then Some(container.fields[key]) else None
  }

  /** Python's `a or b`: `a` when it is truthy, otherwise `b`. */
  function Or(a: Json, b: Json): (r: Json)
    ensures Truthy(r) <==> Truthy(a) || Truthy(b)
    ensures Truthy(a) ==> r == a
  {
    if Truthy(a) then a else b
  }

  /**
   * `str(j)`. Floats, lists and dicts are printed by Python's own `repr`
   * rules, which are given as `show`.
   */
  function PyStr(j: Json, show: Json -> string): (r: string)
    ensures j.Str? ==> r == j.s
    ensures j.Int? ==> r == Text.IntToString(j.i)
  {
    match j
    case Null => "None"
    case Bool(b) => if b then "True" else "False"
    case Int(i) => Text.IntToString(i)
    case Str(s) => s
    case _ => show(j)
  }

  /**
   * The elements a `for` loop visits; `None` where that loop raises on its
   * first element (the keys of a dict and the characters of a string are
   * strings, which every loop here subscripts with a string) or where the
   * value is not iterable.
   */
  function Elements(j: Json): Option<seq<Json>>
  {
    match j
    case Arr(items) => Some(items)
    case Obj(m) => if m == map[] then Some([]) else None
    case Str(s) => if s == "" then Some([]) else None
    case _ => None
  }
}
