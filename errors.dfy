/** Failures raised by the services, and the wrappers the operations return.

    `ApiError` is the service layer's error class: an HTTP status code and a
    fixed message that callers match on. `ValidationError` is what Mongoose
    raises when a document fails its schema; it carries the schema paths that
    failed, in schema order. */
module Errors {

  // The http-status codes the services raise.
  const StatusOk := 200
  const StatusBadRequest := 400
  const StatusNotFound := 404
  const StatusInternalServerError := 500

  datatype Error =
    | ApiError(status: int, message: string)
    | ValidationError(paths: seq<string>)

  /** A value, or the error the operation throws instead. */
  datatype Result<T> = Success(value: T) | Failure(error: Error)

  /** The outcome of an operation that returns nothing on success. */
  datatype Outcome = Pass | Fail(error: Error)

  /** A value that may be absent (a missing field, or NaN for a number). */
  datatype Option<T> = None | Some(value: T)
}
