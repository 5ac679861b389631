/**
 * JSON documents as the system handles them: `json.loads` output, request bodies and the
 * recipe documents stored in the recipe table are Python dicts, lists, strings and numbers.
 */
module Json {
  import opened Text

  datatype Value =
    | Null
    | Bool(b: bool)
    | Int(i: int)
    | Float(f: real)
    | Str(s: string)
    | Arr(items: seq<Value>)
    | Obj(fields: map<string, Value>)

  /** A JSON object (a Python `dict` with string keys). */
  type Object = map<string, Value>

  /** Python's `bool(v)`: None, False, 0, 0.0, "", [] and {} are false, everything else true. */
  predicate Truthy(v: Value) {
    match v
    case Null => false
    case Bool(b) => b
    case Int(i) => i != 0
    case Float(f) => f != 0.0
    case Str(s) => s != []
    case Arr(items) => items != []
    case Obj(fields) => fields != map[]
  }

  /** `d.get(key, default)`. */
  function Get(o: Object, key: string, default: Value): (r: Value)
    ensures key in o ==> r == o[key]
    ensures key !in o ==> r == default
  {
    if key in o then o[key] else default
  }

  /** Python's `type(v).__name__`, as it appears in the text of a TypeError or AttributeError. */
  function TypeName(v: Value): string {
    match v
    case Null => "NoneType"
    case Bool(_) => "bool"
    case Int(_) => "int"
    case Float(_) => "float"
    case Str(_) => "str"
    case Arr(_) => "list"
    case Obj(_) => "dict"
  }

  /** A value that pydantic accepts for an `Optional[str]` field: absent, None or a string. */
  predicate OptionalStr(o: Object, key: string) {
    key !in o || o[key].Null? || o[key].Str?
  }

  /** A JSON list whose every element is a string. */
  predicate StrList(v: Value) {
    v.Arr? && forall i :: 0 <= i < |v.items| ==> v.items[i].Str?
  }

  /**
   * Python's `str(v)` as an f-string prints it: exact for None, booleans, integers and strings;
   * floats, lists and dicts are printed by a placeholder naming their type.
   */
  function Display(v: Value): (r: string)
    ensures v.Str? ==> r == v.s
  {
    match v
    case Null => "None"
    case Bool(b) => if b then "True" else "False"
    case Int(i) => IntToDecimal(i)
    case Str(s) => s
    case Float(_) => "<float>"
    case Arr(_) => "<list>"
    case Obj(_) => "<dict>"
  }
}
