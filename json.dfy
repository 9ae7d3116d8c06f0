/** The part of `serde_json::Value` the client and the daemon touch: indexing by a
    key (`value["prices"]`), `is_null` and `as_str`. */
module Json {
  import opened Wrappers

  datatype Value =
    | Null
    | Bool(b: bool)
    | Number(n: real)
    | Str(s: string)
    | Array(items: seq<Value>)
    | Object(fields: map<string, Value>)

  /** `value[key]` through serde_json's `Index` impl for `&str`: a key that is absent,
      or a value that is not an object, gives `Null` instead of panicking. */
  function Get(v: Value, key: string): (r: Value)
    ensures v.Object? && key in v.fields ==> r == v.fields[key]
    ensures !(v.Object? && key in v.fields) ==> r == Null
    ensures r != Null ==> v.Object? && key in v.fields && v.fields[key] == r
  {
    match v
    case Object(fields) => if key in fields then fields[key] else Null
    case _ => Null
  }

  /** `as_str`: the text of a JSON string, and nothing for every other kind of value. */
  function AsStr(v: Value): (r: Option<string>)
    ensures r.Some? <==> v.Str?
    ensures r.Some? ==> v == Str(r.value)
  {
    if v.Str? then Some(v.s) else None
  }
}
