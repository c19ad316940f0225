// Option and Result, the two wrappers every module of the model uses for the
// source's `Option<T>` / `None` and `Result<T, E>` / raised exceptions.
module Wrappers {
  datatype Option<T> = None | Some(value: T)

  datatype Result<T, E> = Ok(value: T) | Err(error: E)
}
