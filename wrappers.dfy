/** Failure-carrying values shared by every module of the model. */
module Wrappers {

  /** An optional value: Rust's `Option`, or a TypeScript field that may be absent. */
  datatype Option<+T> = None | Some(value: T)

  /** Rust's `color_eyre::Result`: a value, or the outermost message of the error report. */
  datatype Result<+T> = Ok(value: T) | Err(error: string)
}
