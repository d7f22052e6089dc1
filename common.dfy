/** Values shared by every component: optional values, the error taxonomy of
    `ErrorResponseType` and the `Result` every fallible operation returns. */
module Common {

  datatype Option<+T> = None | Some(value: T) {
    /** `unwrap_or`: the wrapped value, or the default when there is none. */
    function GetOr(default: T): T {
      match this
      case Some(v) => v
      case None => default
    }
  }

  /** The error kinds the core produces (a subset of `ErrorResponseType`). */
  datatype ErrorKind = BadRequest | Connection | Database | Forbidden | Internal | NotFound | Unauthorized

  /** `ErrorResponse`: a kind and a human-readable message. */
  datatype ErrorResponse = ErrorResponse(kind: ErrorKind, message: string)

  datatype Result<+T> = Ok(value: T) | Err(error: ErrorResponse) {
    predicate IsFailure() { Err? }
    function PropagateFailure<U>(): Result<U>
      requires Err?
    {
      Err(error)
    }
    function Extract(): T
      requires Ok?
    {
      value
    }
  }

  newtype byte = b: int | 0 <= b < 256
}
