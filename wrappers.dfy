/** Option and Result values used across the model: `Option` stands for a
    TypeScript value that may be `null` or `undefined`, `Result` for a call
    that either returns or throws. */
module Wrappers {

  datatype Option<+T> = None | Some(value: T)

  datatype Result<+T, +E> = Success(value: T) | Failure(error: E)
}
