/**
 * JSON values as the JSON-file stores hold them, with the three pieces of
 * Python behaviour they rely on: truth value, `+` and f-string rendering.
 */
module Json {
  import opened Wrappers
  import Strings

  datatype Value =
    | Null
    | Bool(b: bool)
    | Int(i: int)
    | Real(r: real)
    | Str(s: string)
    | Arr(items: seq<Value>)
    | Obj(fields: map<string, Value>)

  /** Python's truth value: None, False, zero and empty strings, lists and dicts are false. */
  predicate Truthy(v: Value)
  {
    match v
    case Null => false
    case Bool(b) => b
    case Int(i) => i != 0
    case Real(r) => r != 0.0
    case Str(s) => s != ""
    case Arr(items) => items != []
    case Obj(fields) => fields != map[]
  }

  /** An integer-valued operand: an int, or a bool counting as 0 or 1. */
  function AsInt(v: Value): Option<int>
  {
    match v
    case Int(i) => Some(i)
    case Bool(b) => Some(if b then 1 else 0)
    case _ => None
  }

  /** A numeric operand as a real. */
  function AsReal(v: Value): Option<real>
  {
    if v.Real? then Some(v.r)
    else if AsInt(v).Some? then Some(AsInt(v).value as real)
    else None
  }

  /**
   * Python's a + b: ints and bools add to an int, a float with any number
   * to a float, strings and lists concatenate; anything else raises
   * TypeError, modelled as none.
   */
  function Add(a: Value, b: Value): (r: Option<Value>)
    ensures AsInt(a).Some? && AsInt(b).Some? ==> r == Some(Int(AsInt(a).value + AsInt(b).value))
    ensures a.Str? && b.Str? ==> r == Some(Str(a.s + b.s))
    ensures a.Arr? && b.Arr? ==> r == Some(Arr(a.items + b.items))
    ensures r.Some? <==> (AsReal(a).Some? && AsReal(b).Some?) || (a.Str? && b.Str?) || (a.Arr? && b.Arr?)
  {
    if AsInt(a).Some? && AsInt(b).Some? then Some(Int(AsInt(a).value + AsInt(b).value))
    else if AsReal(a).Some? && AsReal(b).Some? then Some(Real(AsReal(a).value + AsReal(b).value))
    else if a.Str? && b.Str? then Some(Str(a.s + b.s))
    else if a.Arr? && b.Arr? then Some(Arr(a.items + b.items))
    else None
  }

  /**
   * How an f-string renders a value: ints in decimal, strings as they are,
   * None, True and False by name; floats, lists and dicts by a given
   * rendering standing for Python's repr.
   */
  function Format(v: Value, repr: Value -> string): string
  {
    match v
    case Null => "None"
    case Bool(b) => if b then "True" else "False"
    case Int(i) => Strings.IntToString(i)
    case Str(s) => s
    case _ => repr(v)
  }

  /** A dict a caller owns and a store may change in place. */
  class Dict {
    var fields: map<string, Value>

    constructor (fields: map<string, Value>)
      ensures this.fields == fields
    {
      this.fields := fields;
    }
  }
}
