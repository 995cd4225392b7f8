/** Nullable values, the exceptions of the backend, and results that carry them. */
module Wrappers {

  /** A Java reference that may be null. */
  datatype Option<+T> = None | Some(value: T)

  /**
   * The four exception kinds the backend raises, plus the error the runtime raises when a
   * recursion does not end. A ValidationException and a ConflictException carry a summary
   * plus every message that fired; a NotFoundException and a FatalException carry one
   * message.
   */
  datatype Error =
    | ValidationError(summary: string, errors: seq<string>)
    | ConflictError(summary: string, errors: seq<string>)
    | NotFoundError(message: string)
    | FatalError(message: string)
    | StackOverflow

  /** The value of a call that returns normally, or the exception it throws. */
  datatype Result<+T> = Ok(value: T) | Err(error: Error)

  /** A void call: it returns normally or throws. */
  datatype Outcome = Pass | Fail(error: Error)
}
