/** Small value wrappers shared by every module: an optional value (Python's
    `None` or a value) and a success-or-error result. */
module Wrappers {

  datatype Option<+T> = None | Some(value: T)

  datatype Result<+T, +E> = Success(value: T) | Failure(error: E)
}

/** What a FastAPI route returns to its client, and the ways the database
    session behind a route can fail. */
module Http {

  /** The body of the route's response model, or an error status with the
      `detail` text of the raised HTTPException. */
  datatype Reply<+T> = Ok(body: T) | HttpError(status: int, detail: string)

  /** Where, if anywhere, a request's database work raises. A failure before
      `commit` rolls the transaction back; a failure after it (in `refresh`)
      leaves the committed change in place. */
  datatype StoreFault = NoFault | FailsBeforeCommit | FailsAfterCommit

  /** The plain-text body Starlette sends when an exception escapes a route,
      for example when the returned object fails the response model. */
  const InternalServerError := "Internal Server Error"
}
