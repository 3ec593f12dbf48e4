/** Vocabulary shared by the user and parcel modules: optional values, results,
    the application error the services throw, and JavaScript truthiness. */
module Common {

  /** A value that may be absent (`undefined` in the request or the document). */
  datatype Option<+T> = None | Some(value: T)

  /** The outcome of an operation that either returns a value or throws. */
  datatype Result<+T, +E> = Success(value: T) | Failure(error: E)

  /** HTTP status codes used by the modelled handlers and services. */
  const OK: int := 200
  const CREATED: int := 201
  const BAD_REQUEST: int := 400
  const UNAUTHORIZED: int := 401
  const FORBIDDEN: int := 403
  const NOT_FOUND: int := 404

  /** `AppError(message, statusCode)`: the error thrown by services and handlers and
      reported to the caller with its status code. */
  datatype AppError = AppError(message: string, statusCode: int)

  /** JavaScript truthiness of an optional string: `undefined` and `""` are falsy. */
  predicate Present(s: Option<string>)
  {
    s.Some? && s.value != ""
  }

  /** JavaScript truthiness of an optional boolean: only `true` is truthy. */
  predicate IsTrue(b: Option<bool>)
  {
    b == Some(true)
  }
}
