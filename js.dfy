/**
 * The few JavaScript runtime notions the application code relies on:
 * parsed JSON values, thrown values, and the truthiness of optional strings.
 */
module Js {
  import opened Wrappers

  /** A value produced by `JSON.parse` (numbers kept as integers: only their type matters here). */
  datatype Json =
    | JNull
    | JBool(b: bool)
    | JNumber(n: int)
    | JString(s: string)
    | JArray(items: seq<Json>)
    | JObject(fields: map<string, Json>)

  /** A thrown value: an `Error` instance carries a message, anything else does not. */
  datatype JsError = ErrorObject(message: string) | NonErrorValue

  /** The `TypeError` V8 raises for `null.agentId`. */
  const NullAgentIdAccess: JsError := ErrorObject("Cannot read properties of null (reading 'agentId')")

  /** The `TypeError` V8 raises when reading a property of `undefined`. */
  function UndefinedAccess(property: string): JsError
  {
    ErrorObject("Cannot read properties of undefined (reading '" + property + "')")
  }

  /** An optional string is truthy when present and non-empty (`undefined` and `''` are falsy). */
  predicate Truthy(s: Option<string>)
  {
    s.Some? && s.value != ""
  }

  /** `s || fallback` for an optional string. */
  function OrElse(s: Option<string>, fallback: string): (r: string)
    ensures Truthy(s) ==> r == s.value
    ensures !Truthy(s) ==> r == fallback
  {
    if Truthy(s) then s.value else fallback
  }
}
