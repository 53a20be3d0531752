/** Option and Result, used wherever the source returns None or raises. */
module Wrappers {

  datatype Option<+T> = None | Some(value: T)

  datatype Result<+R, +E> = Success(value: R) | Failure(error: E)

  /** A rejected request, as FastAPI's HTTPException carries it: a status code and a detail text. */
  datatype HttpError = HttpError(status: nat, detail: string)
}
