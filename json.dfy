/** JSON values as `serde_json::Value` presents them, with the two accessors
    the program uses on them (`Value::get` and `Value::as_str`). */
module Json {
  import opened Wrappers

  /** A JSON value. Numbers are kept as integers: the program never inspects one. */
  datatype Value =
    | Null
    | Bool(b: bool)
    | Number(n: int)
    | Str(s: string)
    | Array(items: seq<Value>)
    | Object(fields: map<string, Value>)

  /** `value.get(key)`: the member named `key` of an object; nothing for any
      other kind of value. */
  function Get(v: Value, key: string): (r: Option<Value>)
    ensures r.Some? <==> v.Object? && key in v.fields
    ensures r.Some? ==> r.value == v.fields[key]
  {
    if v.Object? && key in v.fields then Some(v.fields[key]) else None
  }

  /** `value.as_str()`: the text of a string value; nothing for any other kind. */
  function AsStr(v: Value): (r: Option<string>)
    ensures r.Some? <==> v.Str?
    ensures r.Some? ==> v == Str(r.value)
  {
    if v.Str? then Some(v.s) else None
  }

  /** The name JSON Schema gives to the kind of a value. */
  function TypeName(v: Value): string
  {
    match v
    case Null => "null"
    case Bool(_) => "boolean"
    case Number(_) => "number"
    case Str(_) => "string"
    case Array(_) => "array"
    case Object(_) => "object"
  }
}
