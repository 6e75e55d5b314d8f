/** JSON documents as exchanged between the publisher and the relays. */
module Json {

  datatype Value =
    | Null
    | Bool(b: bool)
    | Num(n: real)
    | Str(s: string)
    | Arr(items: seq<Value>)
    | Obj(fields: map<string, Value>)

  /** A decoded JSON object, i.e. a Python `dict` read from JSON. */
  type Object = map<string, Value>

  /** The outcome of `response.json()` on a body. */
  datatype Decoded = Parsed(value: Value) | Undecodable(error: string)
}
