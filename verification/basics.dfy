/** Small failure-carrying datatypes shared by the whole model. */
module Basics {

  /** Python's `None`-or-value fields. */
  datatype Option<T> = None | Some(value: T)

  /** Either the new value of an operation or the exception it raises. */
  datatype Result<T, E> = Ok(value: T) | Err(error: E)

  /** The exceptions the pool and the promise can raise at their callers. */
  datatype PoolError =
    | PromiseKeeperStateError(message: string)
      /** `completed_on - started_on` with `started_on` still `None`. */
    | TypeError

  const AlreadyRunning: string := "PromiseKeeper already running."
  const NotRunning: string := "PromiseKeeper isn't running."
}
