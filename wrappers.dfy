/** Small value wrappers shared by the other modules: an optional value
    (JavaScript's `null` / `undefined`) and the result of a call that may throw. */
module Wrappers {

  datatype Option<+T> = None | Some(value: T)

  /** What an awaited call yields: a value, or the error it threw. */
  datatype Result<+T, +E> = Ok(value: T) | Fail(error: E)
}
