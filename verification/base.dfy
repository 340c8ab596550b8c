/** Failure-compatible wrappers shared by every module of the model. */
module Base {

  /** An optional value: `null`/`undefined` in the source become `None`. */
  datatype Option<+T> = None | Some(value: T)

  /** The outcome of a step that may throw: `Err` carries what was thrown. */
  datatype Result<+T, +E> = Ok(value: T) | Err(error: E)
}
