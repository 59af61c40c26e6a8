/** Failure-carrying datatypes shared by the fetchers and the analyzers. */
module Common {

  /** A value that may be missing (Python's None). */
  datatype Option<+T> = None | Some(value: T)

  /** The result of an operation that may raise an exception. */
  datatype Result<+T> = Ok(value: T) | Err(message: string)

  /** Completion of an operation that returns nothing or raises. */
  datatype Outcome = Pass | Fail(message: string)
}
