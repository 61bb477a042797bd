/** Option and Result: the optional fields of a response object, and the
    outcome of a step that either yields a value or throws. */
module Wrappers {

  /** An optional value: a TypeScript field declared with `?` that may be absent. */
  datatype Option<+T> = None | Some(value: T)

  /** A value, or the thing a `throw` hands to the enclosing `catch`. */
  datatype Result<+T, +E> = Ok(value: T) | Err(error: E)
}
