/** Optional values and results with an error, shared by every module. */
module Common {

  /** A value that may be absent: JavaScript's `undefined`/`null`, or an input that does not parse. */
  datatype Option<+T> = None | Some(value: T)

  /** The outcome of an operation that may throw. */
  datatype Result<+T, +E> = Success(value: T) | Failure(error: E)

  /** `x` when it is positive, else zero. */
  function Max0(x: int): nat
  {
    if x < 0 then 0 else x
  }
}
