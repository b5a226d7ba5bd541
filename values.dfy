/** Python values as the system passes them around: JSON-shaped dictionaries,
    lists and scalars, plus the outcome of a call that may raise. */
module Values {

  datatype Option<+T> = None | Some(value: T)

  /** A value a Python dict payload can hold (what `json.loads` produces). */
  datatype Json =
    | JNull
    | JBool(b: bool)
    | JInt(i: int)
    | JFloat(f: real)
    | JStr(s: string)
    | JArr(items: seq<Json>)
    | JObj(fields: map<string, Json>)

  /** A Python `Dict[str, Any]`. Key order is not modelled. */
  type Dict = map<string, Json>

  /** The outcome of a Python call: a returned value, or an exception with its `str(e)`. */
  datatype Outcome<+T> = Returned(value: T) | Raised(message: string)

  /** `d.get(key, default)` */
  function Get(d: Dict, key: string, default: Json): (r: Json)
    ensures key in d ==> r == d[key]
    ensures key !in d ==> r == default
  {
    if key in d then d[key] else default
  }

  /** `d[key] == v`, the key being present. */
  predicate Has(d: Dict, key: string, v: Json)
  {
    key in d && d[key] == v
  }

  /** Python truthiness, as used by `if not result.get("success", False)`. */
  predicate Truthy(j: Json)
  {
    match j
    case JNull => false
    case JBool(b) => b
    case JInt(i) => i != 0
    case JFloat(f) => f != 0.0
    case JStr(s) => s != ""
    case JArr(a) => a != []
    case JObj(m) => m != map[]
  }

  /** The Python class name of a value, as it appears in exception messages. */
  function TypeName(j: Json): string
  {
    match j
    case JNull => "NoneType"
    case JBool(_) => "bool"
    case JInt(_) => "int"
    case JFloat(_) => "float"
    case JStr(_) => "str"
    case JArr(_) => "list"
    case JObj(_) => "dict"
  }

  /** `str(e)` of the AttributeError raised by `value.get(...)` on a non-dict. */
  function NoGetAttribute(j: Json): string
  {
    "'" + TypeName(j) + "' object has no attribute 'get'"
  }

  /** `str(e)` of the KeyError raised by `d[key]` on a missing key. */
  function KeyErrorText(key: string): string
  {
    "'" + key + "'"
  }

  /** Calling `.get` on a value: only a dict has it. */
  function AsDict(j: Json): (r: Outcome<Dict>)
    ensures r.Returned? <==> j.JObj?
    ensures j.JObj? ==> r.value == j.fields
    ensures !j.JObj? ==> r == Raised(NoGetAttribute(j))
  {
    if j.JObj? then Returned(j.fields) else Raised(NoGetAttribute(j))
  }

  /** `str(value)` (and f-string rendering): a string renders as itself; every
      other value through `repr`, Python's rendering, which is not modelled. */
  function Str(j: Json, repr: Json -> string): (r: string)
    ensures j.JStr? ==> r == j.s
  {
    if j.JStr? then j.s else repr(j)
  }
}
