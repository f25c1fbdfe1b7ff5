/** A decoded JSON payload, as the network layer hands it to the parsers. */
module Payload {
  datatype Value =
    | Null
    | Bool(b: bool)
    | Int(i: int)
    | Str(s: string)
    | Array(items: seq<Value>)
    | Dict(fields: map<string, Value>)

  /** `d[key]` is present and an integer (`as? Int` on a JSON integer). */
  predicate HasInt(d: map<string, Value>, key: string)
  {
    key in d && d[key].Int?
  }

  /** `d[key]` is present and a string (`as? String` succeeds). */
  predicate HasStr(d: map<string, Value>, key: string)
  {
    key in d && d[key].Str?
  }
}
