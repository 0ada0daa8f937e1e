/**
 * JSON values as the Python code sees them once decoded, with the two
 * Python built-ins the data-access layer applies to them: truthiness
 * and `len`.
 */
module Json {
  import opened Wrappers

  datatype Value =
    | Null
    | Bool(b: bool)
    | Int(i: int)
    | Str(s: string)
    | Arr(items: seq<Value>)
    | Obj(fields: map<string, Value>)

  /** A wire row: column name to value, as a Python dict. */
  type Row = map<string, Value>

  /** Python truthiness: None, False, 0 and empty containers are false. */
  predicate Truthy(v: Value) {
    match v
    case Null => false
    case Bool(b) => b
    case Int(i) => i != 0
    case Str(s) => s != ""
    case Arr(items) => items != []
    case Obj(fields) => fields != map[]
  }

  /**
   * Python's `len`: defined on strings, lists and dicts, a TypeError
   * (None here) on None, booleans and numbers.  Where it is defined,
   * a positive length is the same as truthiness.
   */
  function Len(v: Value): (n: Option<nat>)
    ensures n.Some? <==> (v.Str? || v.Arr? || v.Obj?)
    ensures n.Some? ==> (n.value > 0 <==> Truthy(v))
  {
    match v
    case Str(s) => Some(|s|)
    case Arr(items) => Some(|items|)
    case Obj(fields) =>
      assert fields != map[] ==> exists k :: k in fields;
      Some(|fields|)
    case _ => None
  }
}
