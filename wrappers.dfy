/** Small failure-carrying datatypes shared by the model. */
module Wrappers {

  /** A Java reference that may be null, or an optional value. */
  datatype Option<+T> = None | Some(value: T)

  /** Normal completion, or a thrown exception of the given kind. */
  datatype Outcome<+E> = Pass | Fail(error: E)

  /** A value, or the exception that prevented it. */
  datatype Result<+T, +E> = Ok(value: T) | Err(error: E)
}
