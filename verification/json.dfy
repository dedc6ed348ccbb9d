/**
 Decoded JSON values: the dynamic `interface{}` values a plan's attribute
 snapshots and marker structures hold once the decoder has run. Numbers are
 kept as reals, since the analyzer only compares them with zero.
 */
module Json {

  datatype JValue =
    | JNull
    | JBool(b: bool)
    | JNumber(n: real)
    | JString(s: string)
    | JArray(items: seq<JValue>)
    | JObject(fields: map<string, JValue>)

  /** An attribute snapshot: attribute name to decoded value. */
  type Attributes = map<string, JValue>

}
