/** Optional values and error results shared by every module of the model. */
module Wrappers {

  /** `None` stands for a metric that is undefined (Go's NaN) or a value that is absent (Go's nil). */
  datatype Option<+T> = None | Some(value: T)

  /** The `(value, error)` pair returned by the Go functions; `Err` carries the error's text. */
  datatype Result<+T> = Ok(value: T) | Err(message: string)
}
