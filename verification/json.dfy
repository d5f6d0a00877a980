/** JSON values as the engine reads them, and the two generic result types. */
module Json {
  datatype Option<+T> = None | Some(value: T)

  datatype Result<+T, +E> = Ok(value: T) | Err(error: E)

  datatype Value =
    | Null
    | Bool(b: bool)
    | Int(i: int)
    | Float(r: real)
    | Str(s: string)
    | Arr(items: seq<Value>)
    | Obj(fields: map<string, Value>)

  /** Field lookup: absent for a missing key and for anything that is not an object. */
  function Get(v: Value, key: string): Option<Value> {
    if v.Obj? && key in v.fields then Some(v.fields[key]) else None
  }

  function AsU64(v: Option<Value>): Option<nat> {
    match v
    case Some(Int(i)) => if i >= 0 then Some(i) else None
    case _ => None
  }

  function AsF64(v: Option<Value>): Option<real> {
    match v
    case Some(Int(i)) => Some(i as real)
    case Some(Float(r)) => Some(r)
    case _ => None
  }

  function AsStr(v: Option<Value>): Option<string> {
    match v
    case Some(Str(s)) => Some(s)
    case _ => None
  }

  function OrZero(o: Option<nat>): nat {
    if o.Some? then o.value else 0
  }

  function OrFree(o: Option<real>): real {
    if o.Some? then o.value else 0.0
  }
}
