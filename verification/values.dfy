/**
 * Dynamically typed values, as they appear in the dictionaries the agents pass to
 * `setattr`-style updates and store as task results.
 */
module Values {
  import opened Wrappers

  datatype Value =
    | Null
    | Bool(b: bool)
    | Int(i: int)
    | Real(r: real)
    | Str(s: string)
    | StrList(items: seq<string>)
    | Record(fields: map<string, Value>)

  /** Python truthiness. */
  predicate Truthy(v: Value)
  {
    match v
    case Null => false
    case Bool(b) => b
    case Int(i) => i != 0
    case Real(r) => r != 0.0
    case Str(s) => |s| > 0
    case StrList(items) => |items| > 0
    case Record(fields) => |fields| > 0
  }

  function AsString(v: Value): Option<string>
  {
    if v.Str? then Some(v.s) else None
  }

  /** A number, accepting an int where a float is expected as Python does. */
  function AsReal(v: Value): Option<real>
  {
    match v
    case Real(r) => Some(r)
    case Int(i) => Some(i as real)
    case _ => None
  }

  function AsInt(v: Value): Option<int>
  {
    if v.Int? then Some(v.i) else None
  }

  /** An optional number: `None` is accepted and clears the field. */
  function AsOptionalReal(v: Value): Option<Option<real>>
  {
    if v.Null? then Some(None)
    else match AsReal(v)
      case Some(r) => Some(Some(r))
      case None => None
  }

  /** An optional string: `None` is accepted and clears the field. */
  function AsOptionalString(v: Value): Option<Option<string>>
  {
    match v
    case Null => Some(None)
    case Str(s) => Some(Some(s))
    case _ => None
  }

  function AsStringList(v: Value): Option<seq<string>>
  {
    if v.StrList? then Some(v.items) else None
  }
}
