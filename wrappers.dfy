/** The optional and fallible values shared by every module of the model. */
module Wrappers {

  /** An optional value: Python's `None` or a present value. */
  datatype Option<+T> = None | Some(value: T)

  /** The outcome of an operation that can fail with an error value. */
  datatype Result<+T, +E> = Success(value: T) | Failure(error: E)
}

/** The HTTP error responses that the route handlers produce. */
module Http {

  const BadRequest: nat := 400
  const Unauthorized: nat := 401
  const Forbidden: nat := 403
  const NotFound: nat := 404
  const InternalServerError: nat := 500

  /** An `HTTPException`: a status code and its `detail` message. */
  datatype HttpError = HttpError(status: nat, detail: string)

  /** What the web framework answers when a handler lets an exception escape. */
  const Crash: HttpError := HttpError(InternalServerError, "Internal Server Error")
}
