/** Optional values, fallible results and fallible actions. */
module Wrappers {

  datatype Option<T> = None | Some(value: T)

  datatype Result<T, E> = Ok(value: T) | Err(error: E)

  /** The result of an action that yields nothing but may fail (Rust's `Result<(), E>`). */
  datatype Outcome<E> = Pass | Fail(error: E)
}
