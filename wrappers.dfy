/** Option and Result: the model's replacement for `null` results and thrown exceptions. */
module Wrappers {

  /** `None` stands where the source returns `null` or leaves a field `undefined`. */
  datatype Option<+T> = None | Some(value: T)

  /** `Err` stands where the source throws (or rejects its promise). */
  datatype Result<+T, +E> = Ok(value: T) | Err(error: E)
}
