/** Failure-carrying result types shared by the other modules. */
module Wrappers {

  /** A value that may be absent: a failed parse, a line that yields no key. */
  datatype Option<+T> = None | Some(value: T)

  /** Either the value an operation computed or the reason it gave up. */
  datatype Result<+R, +E> = Success(value: R) | Failure(error: E)
}
