/** Values shared by every module of the model.

    JavaScript's `null`/`undefined` become `None`; a value that may instead be a
    thrown exception becomes a `Result`; an operation that only succeeds or
    throws returns an `Outcome`. */
module Wrappers {

  datatype Option<+T> = None | Some(value: T)

  datatype Result<+T, +E> = Success(value: T) | Failure(error: E)

  datatype Outcome<+E> = Pass | Fail(error: E)

  /** What the source throws. */
  datatype Thrown =
    | ApiError(status: int, message: string)  // `new APIError(message, statusCode)`
    | CodeError(code: string)                 // `throw { code: ... }`
    | PlainError(message: string)              // `throw new Error(message)`
    | ImmutableIdError                         // MongoDB refusing an update that changes `_id`
    | DuplicateKeyError                        // a unique index refusing an insert
    | ValidationError(path: string)            // Mongoose refusing to save a document missing a required path

  /** JavaScript truthiness of an optional string field of a request body:
      present and not the empty string. */
  predicate Truthy(field: Option<string>) {
    field.Some? && field.value != ""
  }

  /** `x || fallback` for an optional string field. */
  function OrElse(field: Option<string>, fallback: string): (r: string)
    ensures Truthy(field) ==> r == field.value
    ensures !Truthy(field) ==> r == fallback
  {
    if field.Some? && field.value != "" then field.value else fallback
  }
}
