/** Option and Result, used for JavaScript's undefined/null fields and for thrown errors. */
module Wrappers {

  /** `None` stands for a JavaScript value that is `undefined` (or `null` where the code treats both alike). */
  datatype Option<+T> = None | Some(value: T)

  /** The value a computation produced, or the error it threw. */
  datatype Result<+T, +E> = Ok(value: T) | Err(error: E)
}
