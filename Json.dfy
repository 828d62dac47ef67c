/**
 * The part of `serde_json::Value` the normalisers read. Integers and
 * floating-point numbers are kept apart, as serde_json keeps them apart;
 * floating-point numbers are exact reals here.
 */
module Json {
  import opened Wrappers

  const I64Min: int := -0x8000_0000_0000_0000
  const I64Max: int := 0x7FFF_FFFF_FFFF_FFFF

  datatype Value =
    | JNull
    | JBool(b: bool)
    | JInt(i: int)
    | JNum(r: real)
    | JStr(s: string)
    | JArr(items: seq<Value>)
    | JObj(fields: map<string, Value>)

  /** `Value::get(key)`: the member of an object; None for a missing key or a non-object. */
  function Get(v: Value, key: string): Option<Value> {
    if v.JObj? && key in v.fields then Some(v.fields[key]) else None
  }

  /** `Value::get(i)` with an index: the element of an array; None past the end or on a non-array. */
  function At(v: Value, i: nat): Option<Value> {
    if v.JArr? && i < |v.items| then Some(v.items[i]) else None
  }

  /**
   * `v.get(primary).or_else(|| v.get(fallback))`: the fallback key is consulted
   * only when the primary key is absent, whatever the primary value's type.
   */
  function GetFirst(v: Value, primary: string, fallback: string): (r: Option<Value>)
    ensures v.JObj? && primary in v.fields ==> r == Some(v.fields[primary])
    ensures !(v.JObj? && primary in v.fields) ==> r == Get(v, fallback)
  {
    match Get(v, primary)
    case Some(x) => Some(x)
    case None => Get(v, fallback)
  }

  function AsStr(v: Value): Option<string> {
    if v.JStr? then Some(v.s) else None
  }

  /** `Value::as_i64`: an integer that fits in 64 signed bits. */
  function AsI64(v: Value): Option<int> {
    if v.JInt? && I64Min <= v.i <= I64Max then Some(v.i) else None
  }

  /** `Value::as_f64`: any number, integer or not. */
  function AsF64(v: Value): Option<real> {
    match v
    case JInt(i) => Some(i as real)
    case JNum(r) => Some(r)
    case _ => None
  }

  function AsArray(v: Value): Option<seq<Value>> {
    if v.JArr? then Some(v.items) else None
  }

  function AsObject(v: Value): Option<map<string, Value>> {
    if v.JObj? then Some(v.fields) else None
  }
}
