/** Failure-carrying values shared by every module of the model. */
module Wrappers {

  /** A value that may be absent: Python's `None`, JavaScript's `null`. */
  datatype Option<+T> = None | Some(value: T) {
    function GetOr(default: T): T {
      match this
      case Some(v) => v
      case None => default
    }
  }

  /** Outcome of an HTTP handler: a payload, or the status code and detail
      of the `HTTPException` it raises. */
  datatype Reply<+T> = Ok(value: T) | HttpError(status: int, detail: string)

  /** Outcome of an awaited front-end request: data, or the rejection's
      message (empty when the rejection carried none). */
  datatype Outcome<+T> = Resolved(data: T) | Rejected(message: string)

  /** `error.message || fallback`: the message a page shows for a rejected
      request. The rejection's own message is shown whenever it has one;
      with a non-empty fallback the page never shows an empty message. */
  function MessageOr(message: string, fallback: string): (m: string)
    ensures m == message || m == fallback
    ensures message != [] ==> m == message
    ensures fallback != [] ==> m != []
  {
    if message != [] then message else fallback
  }
}
