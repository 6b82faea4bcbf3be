/**
 * The exceptions the modelled components raise or let escape, one constructor per
 * .NET exception class that matters to a caller. Messages are kept where the code
 * sets them.
 */
module Faults {
  import opened Wrappers
  /** A thrown exception, named after its .NET class. */
  datatype Exception =
    | NullReference
    | ArgumentNull(paramName: string)
    | Argument(message: string)
    /** An index or count outside the bounds of its argument, named after that argument. */
    | ArgumentOutOfRange(paramName: string)
    | InvalidOperation(message: string)
    | ObjectDisposed(objectName: string)
    | NotImplemented
    | Overflow
    | OperationCanceled
    | Timeout(message: string)
    | IO(message: string)
    | Warden(message: string)
    /** A MessagingException carrying only a message. */
    | Messaging(message: string)
    /** A MessagingException whose ErrorResponse is the error response (id, code, message, data) that caused it. */
    | MessagingError(id: string, code: int, errorMessage: Option<string>, data: Option<string>)
    /** A ProcessLauncherException built from an error response. */
    | ProcessLauncher(message: string, code: int, remoteData: string)
    /** The failure `JObject.Parse` reports for text that is not a JSON object. */
    | JsonReader(message: string)
    /** The failure `Convert.ToInt32` reports for text that is not an integer. */
    | Format
    /** Any other exception, raised by code outside this model. */
    | Other(message: string)

  /** The message `Dictionary.Add` gives for a key already present. */
  const DuplicateKeyMessage := "An item with the same key has already been added."

  /** The message `TaskCompletionSource.SetResult`/`SetException` gives once the task has completed. */
  const AlreadyCompletedMessage := "An attempt was made to transition a task to a final state when it had already completed."
}
