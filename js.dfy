/**
 * The small part of JavaScript's value model that the dashboard's logic
 * depends on: dynamically typed field values, `String(v)`, truthiness of
 * strings that may be null, and the error objects that promises reject with.
 */
module Js {
  import opened Wrappers

  /** A field value of a record fetched from the backend (numbers are integers here). */
  datatype JsValue = JsString(s: string) | JsNumber(n: int) | JsBool(b: bool) | JsNull | JsUndefined

  /** Decimal digits of a natural number, most significant first. */
  function NatToText(n: nat): (r: string)
    ensures |r| >= 1
    ensures forall i :: 0 <= i < |r| ==> '0' <= r[i] <= '9'
    decreases n
  {
    var d := ['0' + (n % 10) as char];
    if n < 10 then d else NatToText(n / 10) + d
  }

  /** `String(n)` for an integer. */
  function IntToText(n: int): (r: string)
    ensures |r| >= 1
    ensures (r[0] == '-') <==> n < 0
  {
    if n < 0 then "-" + NatToText(-n) else NatToText(n)
  }

  /** `String(v)`: the text a value converts to. */
  function ToText(v: JsValue): string {
    match v
    case JsString(s) => s
    case JsNumber(n) => IntToText(n)
    case JsBool(b) => if b then "true" else "false"
    case JsNull => "null"
    case JsUndefined => "undefined"
  }

  /** A string field that may be null, as a value. */
  function OptionalText(o: Option<string>): JsValue {
    if o.Some? then JsString(o.value) else JsNull
  }

  /** A number field that may be null, as a value. */
  function OptionalNumber(o: Option<int>): JsValue {
    if o.Some? then JsNumber(o.value) else JsNull
  }

  /** Truthiness of a string that may be null or undefined: present and non-empty. */
  predicate Truthy(o: Option<string>) {
    o.Some? && o.value != ""
  }

  /** The part of an HTTP error response the dashboard reads: its status and `data.message`. */
  datatype ErrorResponse = ErrorResponse(status: int, dataMessage: Option<string>)

  /**
   * A rejected promise's error object: `err.message` and, for errors raised
   * by the HTTP client on a received response, `err.response`.
   */
  datatype JsError = JsError(message: string, response: Option<ErrorResponse>)

  /** How an awaited call settles: it resolves with a value or rejects with an error. */
  datatype Outcome<+T> = Resolved(value: T) | Rejected(error: JsError)
}
