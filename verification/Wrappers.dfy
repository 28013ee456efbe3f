/** Failure and optionality types shared by every component model. */
module Wrappers {

  datatype Option<+T> = None | Some(value: T)

  datatype Result<+T, +E> = Ok(value: T) | Err(error: E) {

    /** Hands an error on under a different value type. */
    function PropagateTo<U>(): Result<U, E>
      requires Err?
    {
      Err(error)
    }
  }
}
