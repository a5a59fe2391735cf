/** Failure-carrying values used across the model. */
module Wrappers {

  /** A numeric cell that may be missing: `None` stands for a pandas value that is
      not a finite number (NaN, or an infinity produced by a division by zero). */
  datatype Option<+T> = None | Some(value: T)

  /** The outcome of an operation that raises in the source. */
  datatype Result<+R, +E> = Ok(value: R) | Err(error: E)
}
