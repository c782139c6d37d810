/** Failure-carrying values shared by the backend and frontend models. */
module Wrappers {

  /** A value that may be absent: Python's None, JavaScript's null or undefined. */
  datatype Option<+T> = None | Some(value: T) {
    function GetOr(default: T): T {
      match this
      case Some(v) => v
      case None => default
    }
  }

  /** The outcome of a foreign call that either returns or raises with a message. */
  datatype Result<+T> = Ok(value: T) | Err(message: string)
}

/** HTTP responses as the two backends produce them. */
module Http {

  /** A JSON body with status 200, or an error status with its message
      (Flask's `{'error': ...}` body, FastAPI's `HTTPException` detail). */
  datatype Response<+T> = Success(body: T) | Failure(status: nat, message: string)

  const BAD_REQUEST: nat := 400
  const SERVER_ERROR: nat := 500
}
