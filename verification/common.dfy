/** Value types shared by every part of the model: Java's nullable references
    and the exceptions the appenders throw or swallow. */
module Common {

  /** A Java reference that may be null. */
  datatype Option<+T> = None | Some(value: T)

  /** The exceptions that matter to the appenders. Only their kind is modelled;
      messages are kept where the source chooses them itself. */
  datatype Exception =
    | IllegalArgument(message: string)  // thrown by `check` and `setTarget`
    | MappingFailure                    // an IOException from the JSON mapper
    | UnknownLevel                      // LogLevel.valueOf rejected the level name
    | NumberFormat                      // Integer.valueOf rejected the caller line

  /** The outcome of a Java call that either returns a value or throws. */
  datatype Try<+T> = Ok(value: T) | Thrown(cause: Exception)

  /** The outcome of a Java call that returns nothing or throws. */
  datatype Outcome = Pass | Fail(cause: Exception)
}
