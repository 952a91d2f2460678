/** The JSON envelopes every handler answers with: `{ success, message?, data? }` and the HTTP
    status it is sent under. */
module Responses {
  import opened Types

  /** An argument that JavaScript may leave undefined or set to null, or a real value. */
  datatype Arg<+T> = Undefined | Null | Given(value: T)

  /** The body sent: `success`, then `message` and `data` when present, under `status`. */
  datatype Envelope<+T> = Envelope(status: int, success: bool, message: Option<string>, data: Option<T>)

  /** `success(res, data = null, message = null, statusCode = 200)`. */
  function Success<T>(data: Arg<T> := Arg.Null, message: Arg<string> := Arg.Null, statusCode: Arg<int> := Undefined)
    : (r: Envelope<T>)
    requires !statusCode.Null?
    ensures r.success
    ensures r.message.Some? <==> message.Given? && message.value != ""
    ensures r.message.Some? ==> r.message.value == message.value
    ensures r.data.Some? <==> data.Given?
    ensures r.data.Some? ==> r.data.value == data.value
    ensures r.status == if statusCode.Given? then statusCode.value else 200
  {
    var m := if message.Given? && message.value != "" then Some(message.value) else None;
    var d := if data.Given? then Some(data.value) else None;
    Envelope(if statusCode.Undefined? then 200 else statusCode.value, true, m, d)
  }

  /** `error(res, message, statusCode = 400)`. */
  function Error<T>(message: string, statusCode: Arg<int> := Undefined): (r: Envelope<T>)
    requires !statusCode.Null?
    ensures !r.success && r.message == Some(message) && r.data == None
    ensures r.status == if statusCode.Given? then statusCode.value else 400
  {
    Envelope(if statusCode.Undefined? then 400 else statusCode.value, false, Some(message), None)
  }

  /** The error envelope for a domain error: its message under its status. */
  function Failure<T>(e: ApiError): (r: Envelope<T>)
    ensures !r.success && r.status == e.status && r.message == Some(e.message) && r.data == None
  {
    Error(e.message, Given(e.status))
  }

  /** The keys of the JSON object sent, in order. */
  function Keys<T>(e: Envelope<T>): seq<string>
  {
    ["success"] + (if e.message.Some? then ["message"] else []) + (if e.data.Some? then ["data"] else [])
  }

  /** A success envelope never lacks the flag and an error envelope is exactly `{success, message}`;
      no envelope is both. */
  lemma EnvelopeShapes<T>(data: Arg<T>, message: Arg<string>, errorMessage: string)
    ensures Keys(Error<T>(errorMessage)) == ["success", "message"]
    ensures Success(data, message) != Error<T>(errorMessage)
    ensures "success" in Keys(Success(data, message))
  {
  }
}
