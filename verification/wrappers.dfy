/** Small failure-carrying datatypes shared by the model.
    - Option<T> stands for a C# nullable reference (None is null).
    - Outcome<T> stands for a call that either returns a value or throws.
 */
module Wrappers {

  /** A nullable value: None is the C# null (or `default`). */
  datatype Option<+T> = None | Some(value: T)

  /** The exceptions the modelled code throws. Only InvalidOperationException
      occurs in the core; its message is kept where the source gives one. */
  datatype Exception = InvalidOperation(message: string)

  /** The message of an InvalidOperationException built without arguments. */
  const DefaultInvalidOperationMessage: string :=
    "Operation is not valid due to the current state of the object."

  /** The outcome of a call that may throw. */
  datatype Outcome<+T> = Returns(value: T) | Throws(exception: Exception)
}
