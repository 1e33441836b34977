/** The `Error` record of the outcome type: a code and a message, compared
    structurally, with two well-known sentinels. */
module Errors {

  /** An error is a (code, message) pair; Dafny datatype equality is
      structural, exactly like C# record equality. */
  datatype Error = Error(code: string, message: string)

  /** The "no error" marker carried by every successful result. */
  const None: Error := Error("", "")

  /** The error produced when a result is built from a null value. */
  const NullValue: Error := Error("Error.NullValued", "Value cannot be null.")

  /** The two sentinels differ, so a failure may carry NullValue. */
  lemma NullValueIsNotNone()
    ensures NullValue != None
    ensures None.code == "" && None.message == ""
  {
  }
}
