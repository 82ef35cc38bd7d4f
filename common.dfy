/** Small failure-carrying datatypes shared by every module of the model. */
module Common {

  datatype Option<+T> = None | Some(value: T)

  /** A value or an error, for the service's own error returns
      (a 400 message, an upstream error message). */
  datatype Result<+T, +E> = Ok(value: T) | Err(error: E)

  /** The result of evaluating Python code that may raise an exception which
      nothing in the code catches.  It is failure-compatible, so `:-`
      propagates `Raises` the way the exception propagates. */
  datatype Outcome<+T> = Returns(value: T) | Raises {
    predicate IsFailure() {
      Raises?
    }

    function PropagateFailure<U>(): Outcome<U>
      requires Raises?
    {
      Raises
    }

    function Extract(): T
      requires Returns?
    {
      value
    }
  }
}
