/** Values shared by every part of the attendance model: optional values, the
    answers of the store, JavaScript values as the templates see them, and the
    shape of an HTTP reply. */
module Common {

  datatype Option<+T> = None | Some(value: T)

  /** A computation that either produced a value or threw an error with a message. */
  datatype Result<+T> = Ok(value: T) | Err(message: string)

  /** The answer of one store query: the rows it returned, or the error the client reported. */
  datatype Query<+T> = Rows(rows: T) | QueryError(message: string)

  /** `rows?.length ?? 0`: a missing list counts as no rows at all. */
  function CountOrZero<T>(rows: Option<seq<T>>): (n: nat)
    ensures rows.None? ==> n == 0
    ensures rows.Some? ==> n == |rows.value|
  {
    match rows
    case None => 0
    case Some(r) => |r|
  }

  /** A JavaScript value as it reaches a template literal or a truthiness test.
      `Num` carries the text JavaScript prints for the number (its `String(n)`). */
  datatype JsValue = Undefined | Null | Num(text: string) | Str(s: string)

  /** JavaScript truthiness: `undefined`, `null`, `0`, `-0`, `NaN` and `""` are falsy. */
  predicate Truthy(v: JsValue)
  {
    match v
    case Undefined => false
    case Null => false
    case Num(t) => t != "0" && t != "NaN"
    case Str(s) => s != ""
  }

  /** What `${v}` inserts into a template literal. */
  function Render(v: JsValue): string
  {
    match v
    case Undefined => "undefined"
    case Null => "null"
    case Num(t) => t
    case Str(s) => s
  }

  /** `a || b` on strings as the front end uses it for error messages. */
  function OrDefault(message: Option<string>, default: string): (r: string)
    ensures message.Some? && message.value != "" ==> r == message.value
    ensures message.None? || message.value == "" ==> r == default
  {
    if message.Some? && message.value != "" then message.value else default
  }

  /** An HTTP reply: the status code and the JSON body. */
  datatype Reply<+B> = Reply(status: nat, body: B)

  /** The `status` field of the Kiosk and Scanner screens. */
  datatype ScreenStatus = Idle | Scanning | Confirming | Submitting | Success | Error

  /** What the attendance edge function answered to a submission: the fields of
      its JSON reply, or the `error` field of a failed reply (None when absent). */
  datatype PostOutcome = Accepted(eventType: JsValue, hash: JsValue) | Rejected(serverError: Option<string>)

  /** The body the screens post to the attendance edge function. */
  datatype Submission = Submission(employeeId: string, lat: JsValue, lng: JsValue, timestamp: string)

  /** The geolocation the screens captured, if any: `location?.lat` is undefined without it. */
  datatype Location = Location(lat: JsValue, lng: JsValue)

  function LatOf(location: Option<Location>): JsValue
  {
    if location.Some? then location.value.lat else Undefined
  }

  function LngOf(location: Option<Location>): JsValue
  {
    if location.Some? then location.value.lng else Undefined
  }
}
