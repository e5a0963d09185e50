/** Option and Result, and the HTTP error that the handlers raise. */
module Wrappers {

  datatype Option<+T> = None | Some(value: T)

  datatype Result<+T, +E> = Ok(value: T) | Err(error: E)

  /** An `HTTPException(status_code, detail)` raised by a handler. */
  datatype HttpError = HttpError(status: int, detail: string)
}
