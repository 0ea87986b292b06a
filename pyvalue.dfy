/**
 * JSON-like Python values (what `json.loads` and the request parsers hand the service),
 * with Python truthiness and insertion-ordered dictionaries.
 */
module PyValue {
  import opened Wrappers
  import opened OrderedDict
  import opened PyStr

  datatype Value =
    | Null
    | Bool(b: bool)
    | Int(i: int)
    | Float(r: real)
    | Str(s: string)
    | Array(items: seq<Value>)
    | Object(entries: Dict)

  /** A dict in insertion order; a key's value is its first binding. */
  type Dict = seq<(string, Value)>

  /** `bool(v)` */
  predicate Truthy(v: Value) {
    match v
    case Null => false
    case Bool(b) => b
    case Int(i) => i != 0
    case Float(r) => r != 0.0
    case Str(s) => |s| > 0
    case Array(items) => |items| > 0
    case Object(entries) => |entries| > 0
  }

  /** `isinstance(v, numbers.Number)`: bool is a number in Python. */
  predicate IsNumber(v: Value) {
    v.Bool? || v.Int? || v.Float?
  }

  /** The numeric value of a number (`True == 1`). */
  function NumberOf(v: Value): real
    requires IsNumber(v)
  {
    match v
    case Bool(b) => if b then 1.0 else 0.0
    case Int(i) => i as real
    case Float(r) => r
  }

  /**
   * `str(v)` for the values whose text the model spells out: None, booleans, integers and
   * strings. The text of floats, lists and dicts is not modelled.
   */
  function StrOf(v: Value): (r: Option<string>)
    ensures r.Some? <==> !(v.Float? || v.Array? || v.Object?)
    ensures v.Str? ==> r == Some(v.s)
  {
    match v
    case Null => Some("None")
    case Bool(b) => Some(if b then "True" else "False")
    case Int(i) => Some(IntToString(i))
    case Str(s) => Some(s)
    case _ => None
  }

  /** `int(v)`, or the exception it raises: a float is truncated toward zero; text must be a plain decimal. */
  function IntOf(v: Value): Result<int, string> {
    match v
    case Int(i) => Ok(i)
    case Bool(b) => Ok(if b then 1 else 0)
    case Float(r) => Ok(if r >= 0.0 then r.Floor else -((-r).Floor))
    case Str(s) => if ParseInt(s).Some? then Ok(ParseInt(s).value) else Err("ValueError")
    case _ => Err("TypeError")
  }
}
