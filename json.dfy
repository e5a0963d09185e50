/** JSON values as the backend's dictionaries hold them, with Python's truthiness. */
module Json {

  /** A decoded JSON value; `Null` also stands for Python's `None`. Numbers are integers. */
  datatype Value =
    | Null
    | Bool(b: bool)
    | Num(n: int)
    | Str(s: string)
    | Arr(items: seq<Value>)
    | Obj(fields: map<string, Value>)

  /** A JSON object: a Python `dict` with string keys. */
  type Object = map<string, Value>

  /** Python's `bool(v)`: `None`, `False`, `0`, and empty strings, lists and dicts are false. */
  predicate Truthy(v: Value) {
    match v
    case Null => false
    case Bool(b) => b
    case Num(n) => n != 0
    case Str(s) => s != ""
    case Arr(items) => items != []
    case Obj(fields) => fields != map[]
  }

  /** `d.get(key)`: the value under `key`, or `None` when it is absent. */
  function Get(d: Object, key: string): Value {
    if key in d then d[key] else Null
  }

  /** The contents of a text file as `json.loads` sees them. */
  datatype JsonFile = Parsed(value: Value) | Unparsable
}
