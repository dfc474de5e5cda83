/** Option and Result, the two failure-carrying datatypes the model uses
    for JavaScript's `null`/`undefined`/`NaN` and for promise rejections. */
module Wrappers {

  /** A value that may be absent (`null`, `undefined` or `NaN` in the source). */
  datatype Option<+T> = None | Some(value: T)

  /** A resolved value or a rejection reason. */
  datatype Result<+T, +E> = Ok(value: T) | Err(error: E)
}
