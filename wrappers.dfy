/** Option and Result, used for Python's "value or None" and "value or raised error". */
module Wrappers {

  datatype Option<+T> = None | Some(value: T)

  /** `Err(message)` stands for a raised exception whose `str()` is `message`. */
  datatype Result<+T> = Ok(value: T) | Err(message: string)
}
