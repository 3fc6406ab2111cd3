/** The failure vocabulary of the add-in.
    The C# code signals every failure by throwing; here each throw becomes an
    `Err` carrying the exception kind and its parameter name or message. */
module Outcomes {

  /** A value that may be absent: the model's stand-in for a C# null reference. */
  datatype Option<+T> = None | Some(value: T)

  /** The exceptions the add-in raises.
      - ArgumentNull: `ArgumentNullException`, carrying the parameter name.
      - CakeError: `CakeException`, carrying its message.
      - NullReference: a method called on a null reference (a null command string). */
  datatype Error =
    | ArgumentNull(paramName: string)
    | CakeError(message: string)
    | NullReference

  /** The outcome of an operation that either returns a value or throws. */
  datatype Result<+T> = Ok(value: T) | Err(error: Error) {

    predicate IsFailure() {
      Err?
    }

    function PropagateFailure<U>(): Result<U>
      requires Err?
    {
      Err(error)
    }

    function Extract(): T
      requires Ok?
    {
      value
    }
  }
}
