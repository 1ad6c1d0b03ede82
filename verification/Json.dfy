/** JSON values, as the supervisor inspects them. */
module Json {
  import opened Wrappers
  import opened Machine

  datatype Value =
    | Null
    | Bool(b: bool)
    | Number(n: int)          // an integer literal
    | Fraction(text: string)  // any other number
    | String(s: string)
    | Array(elements: seq<Value>)
    | Object(fields: map<string, Value>)

  /** `value.get(field)` */
  function Get(v: Value, field: string): Option<Value> {
    if v.Object? && field in v.fields then Some(v.fields[field]) else None
  }

  /** `.and_then(Value::as_str)` */
  function AsStr(v: Option<Value>): Option<string> {
    if v.Some? && v.value.String? then Some(v.value.s) else None
  }

  /** `.and_then(Value::as_u64)` */
  function AsU64(v: Option<Value>): Option<nat> {
    if v.Some? && v.value.Number? && 0 <= v.value.n <= U64_MAX then Some(v.value.n) else None
  }

  function GetStr(v: Value, field: string): Option<string> {
    AsStr(Get(v, field))
  }

  function GetU64(v: Value, field: string): Option<nat> {
    AsU64(Get(v, field))
  }
}
