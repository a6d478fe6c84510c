/** Decoded JSON, as `JSON.parse` hands it to the client. Decoding and encoding
    themselves are not modelled: bodies arrive already decoded. */
module JsonValue {

  /** A decoded JSON value; `JNull` is Ruby's nil. Numbers are integers only. */
  datatype Json =
    | JNull
    | JBool(b: bool)
    | JNum(n: int)
    | JStr(s: string)
    | JArr(items: seq<Json>)
    | JObj(fields: Object)

  /** A decoded JSON object, i.e. a Ruby Hash with string keys. */
  type Object = map<string, Json>

  /** `hash[key]`: the value stored under `key`, or nil when the key is absent. */
  function Get(obj: Object, key: string): Json
  {
    if key in obj then obj[key] else JNull
  }

  /** Ruby truthiness: everything except nil and false. */
  predicate Truthy(v: Json)
  {
    v != JNull && v != JBool(false)
  }
}
