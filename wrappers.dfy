/** Failure-compatible wrappers used throughout the model in place of Python's
    `None` results and raised exceptions. */
module Wrappers {

  datatype Option<+T> = None | Some(value: T)

  /** `Ok(v)` is a normal return of `v`; `Err(e)` is the exception `e` being raised. */
  datatype Result<+T, +E> = Ok(value: T) | Err(error: E)
}
