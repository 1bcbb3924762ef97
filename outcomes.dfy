/** Shared result shapes: optional values, outcomes of external calls, and HTTP-level errors. */
module Outcomes {

  /** Python's `Optional[T]`: `None` or a value. */
  datatype Option<+T> = None | Some(value: T) {
    function GetOr(default: T): T {
      match this
      case Some(v) => v
      case None => default
    }
  }

  /** The outcome of one external call (LiveKit, the summariser, token signing):
      it returned a value, or it raised an exception whose `str(e)` is `message`. */
  datatype Outcome<+T> = Done(value: T) | Raised(message: string)

  /** What a request handler answers when it does not return normally. */
  datatype ApiError =
    | HttpError(status: int, detail: string)  // an explicit `HTTPException`
    | Unhandled(message: string)              // an exception that escapes the handler (HTTP 500)

  datatype Response<+T> = Ok(body: T) | Err(error: ApiError)
}
