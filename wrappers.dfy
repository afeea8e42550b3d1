/** Optional values and the outcome of a Python operation that may raise. */
module Wrappers {

  datatype Option<+T> = None | Some(value: T)

  /** `Raised` stands for any exception escaping the operation (TypeError,
      AttributeError, OSError, ...); which one is not distinguished. */
  datatype Outcome<+T> = Ok(value: T) | Raised
}
