/** Option and a Python-exception-shaped result used across the model. */
module Wrappers {

  datatype Option<+T> = None | Some(value: T)

  /** The outcome of a Python computation that may raise: a value, or an exception
      carrying the text `str(e)` would show. */
  datatype Try<+T> = Ok(value: T) | Raise(message: string)
}
