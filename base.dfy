/** Shared value wrappers: optional values (SQL NULL), route results and
    JavaScript truthiness of optional strings. */
module Base {

  /** An optional value; `None` stands for SQL NULL or an absent request field. */
  datatype Option<T> = None | Some(value: T)

  /** The synchronous failures a route reports, with the message it sends. */
  datatype Error =
    | NotFound(message: string)   // HTTP 404
    | BadRequest(message: string) // HTTP 400

  /** The outcome of a route that returns a value. */
  datatype Result<T> = Ok(value: T) | Err(error: Error)

  /** The outcome of a route that returns only `{ success: true }`. */
  datatype Outcome = Pass | Fail(error: Error)

  /** JavaScript truthiness of an optional string: null, undefined and "" are falsy. */
  predicate Truthy(s: Option<string>)
  {
    s.Some? && s.value != ""
  }
}
