/** Optional values and results of operations that may raise. */
module Wrappers {

  datatype Option<+T> = None | Some(value: T)

  /** `Err` stands for a raised exception: the unit of work is rolled back. */
  datatype Result<+T, +E> = Ok(value: T) | Err(error: E)
}
