/** Shared value types: an optional value and the JSON values that the
    classifier's answer is parsed into and that the action-item store holds. */
module Basics {

  /** Python's "value or None". */
  datatype Option<+T> = None | Some(value: T) {
    function GetOr(default: T): T {
      match this
      case Some(v) => v
      case None => default
    }
  }

  /** The hosted model: a system instruction and a user prompt in, the
      completion text out, or `None` for any failure (transport, HTTP
      status, a response without a completion). */
  type Completion = (string, string) -> Option<string>

  /** A JSON document as `json.loads` returns it and `json.dump` writes it.
      Objects are unordered here: key order on disk is not modelled. */
  datatype Json =
    | JNull
    | JBool(b: bool)
    | JNumber(n: int)
    | JString(s: string)
    | JArray(elems: seq<Json>)
    | JObject(fields: map<string, Json>)
}
