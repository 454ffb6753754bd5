/** Option, Result and Outcome: the value a Python `return`, `raise` or
    bare fall-through becomes in the model. */
module Results {

  /** A value that may be absent (Python's `None`). */
  datatype Option<+T> = None | Some(value: T)

  /** A computation that returns a value or raises an error. */
  datatype Result<+T, +E> = Ok(value: T) | Err(error: E)

  /** A test that returns nothing, or raises an error. */
  datatype Outcome<+E> = Pass | Fail(error: E)
}
