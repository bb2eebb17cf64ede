/** Optional values and results, the two wrappers the Rust code uses everywhere. */
module Wrappers {

  /** Rust's `Option<T>`. */
  datatype Option<+T> = None | Some(value: T)

  /** Rust's `Result<T, E>`: the value, or the error the source returns. */
  datatype Result<+T, +E> = Ok(value: T) | Err(error: E)
}
