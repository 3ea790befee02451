/** Failure-compatible wrappers used by the rest of the model. */
module Wrappers {

  /** An optional value: `None` stands for "absent" or "failed". */
  datatype Option<+T> = None | Some(value: T)

  /** Either a value or an error. */
  datatype Result<+R, +E> = Success(value: R) | Failure(error: E)
}
