/**
 * An abstract JSON value with the accessors of `serde_json::Value` that the
 * core uses: `v["key"]` and `v[i]` (which yield `Null` when absent),
 * `as_str`, `as_array`, `as_f64` and `as_u64`.  Parsing JSON text, printing
 * it and parsing numbers out of text are library code; they reach the model
 * as the functions of a `Codecs` value.
 */
module Json {
  import opened Base

  datatype Value =
    | Null
    | Bool(b: bool)
    | Int(i: int)
    | Float(f: real)
    | Str(s: string)
    | Arr(items: seq<Value>)
    | Obj(fields: map<string, Value>)

  /**
   * The library collaborators: `serde_json::from_str`, `Value::to_string`,
   * `str::parse` for `f64`, `u32` and `i64`, and Rust's `{}` for an `f64`.
   */
  datatype Codecs = Codecs(
    parseJson: string -> Option<Value>,
    serialize: Value -> string,
    parseF64: string -> Option<real>,
    parseU32: string -> Option<nat>,
    parseI64: string -> Option<int>,
    display: real -> string)

  const EmptyObject: Value := Obj(map[])

  /** `v["key"]`: the field of an object, `Null` for a missing key or a non-object. */
  function Get(v: Value, key: string): (r: Value)
    ensures !v.Obj? ==> r == Null
    ensures v.Obj? && key !in v.fields ==> r == Null
  {
    if v.Obj? && key in v.fields then v.fields[key] else Null
  }

  /** `v[i]`: the element of an array, `Null` out of range or for a non-array. */
  function At(v: Value, i: nat): (r: Value)
    ensures !v.Arr? || i >= |v.items| ==> r == Null
  {
    if v.Arr? && i < |v.items| then v.items[i] else Null
  }

  function AsStr(v: Value): Option<string> {
    if v.Str? then Some(v.s) else None
  }

  function AsArray(v: Value): Option<seq<Value>> {
    if v.Arr? then Some(v.items) else None
  }

  /** `as_f64`: any JSON number. */
  function AsF64(v: Value): Option<real> {
    match v
    case Int(i) => Some(i as real)
    case Float(f) => Some(f)
    case _ => None
  }

  const U64Bound: int := 0x1_0000_0000_0000_0000

  /** `as_u64`: an integer number in the range of `u64`. */
  function AsU64(v: Value): (r: Option<nat>)
    ensures r.Some? ==> r.value < U64Bound
  {
    if v.Int? && 0 <= v.i < U64Bound then Some(v.i) else None
  }

  /**
   * `v[key].as_str().unwrap_or("0").parse::<f64>().unwrap_or(0.0)`: a numeric
   * field sent as text; a missing, non-text or unparseable field reads as 0.
   */
  function TextF64(v: Value, key: string, codecs: Codecs): (r: real)
    ensures AsStr(Get(v, key)).None? ==> r == 0.0
  {
    match AsStr(Get(v, key))
    case None => 0.0
    case Some(s) => codecs.parseF64(s).GetOr(0.0)
  }

  /** `v[key].as_str().unwrap_or(default)`. */
  function TextOr(v: Value, key: string, default: string): string {
    AsStr(Get(v, key)).GetOr(default)
  }
}
