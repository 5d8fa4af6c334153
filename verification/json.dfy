/**
 * The shape of a `serde_json::Value`, used for the request bodies the
 * providers build with `json!` and for the untyped fields of responses.
 * Objects are maps, as serde_json's default map type has no key order.
 */
module Json {
  import opened Wrappers

  datatype Json =
    | Null
    | Bool(b: bool)
    | Number(n: int)
    | Str(s: string)
    | Array(items: seq<Json>)
    | Object(fields: map<string, Json>)

  /** `value.get(key)` on an object; nothing for any other kind of value. */
  function Get(j: Json, key: string): Option<Json> {
    if j.Object? && key in j.fields then Some(j.fields[key]) else None
  }

  /** The string held under `key`, if the value is an object with a string there. */
  function GetString(j: Json, key: string): Option<string> {
    match Get(j, key)
    case Some(Str(s)) => Some(s)
    case _ => None
  }
}
