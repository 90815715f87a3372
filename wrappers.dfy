/** Failure-carrying values that stand in for Java's null and its exceptions. */
module Wrappers {

  /** A nullable reference or an optional result. */
  datatype Option<+T> = None | Some(value: T)

  /** The Java exception kinds the modelled code can raise. */
  datatype Exception =
    | NumberFormat          // Integer.parseInt rejected its input
    | IllegalArgument       // IllegalArgumentException, including a scanner that found nothing
    | NullPointer           // a null reference was dereferenced
    | IndexOutOfBounds      // an array, list or string index was out of range
    | UnsupportedOperation  // a Parameter accessor of the wrong type, or a new option on a fixed-size list
    | DatabaseIntegrity     // the game stats do not belong to this database
    | NetworkLocked         // another script holds the network
    | ScriptFailure         // a ScriptException
    | InputValidation       // a dialog field was rejected
    | NegativeArraySize     // an array was created with a negative length

  /** The outcome of a Java call: its value, or the exception it throws. */
  datatype Result<+T> = Ok(value: T) | Err(error: Exception)
}
