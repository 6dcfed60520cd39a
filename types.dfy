/** Values exchanged between the session registry, the notification path and
    the command layer of the GITB messaging service. */
module GitbTypes {

  /** A Java reference that may be null. */
  datatype Option<+T> = None | Some(value: T)

  /** A value that either is returned or is thrown as an exception. */
  datatype Result<+R> = Ok(value: R) | Err(error: Exception)

  /** How a `void` Java method ends: it returns, or it throws. */
  datatype Outcome = Returned | Threw(exception: Exception)

  /** The exceptions the core raises or lets through. */
  datatype Exception =
    | IllegalArgument(message: string)
    | IllegalState(message: string)
      /** `new IllegalStateException(cause)`: the message is taken from the cause. */
    | IllegalStateCausedBy(cause: Exception)
    | NullPointer
    | ClassCast
      /** What the unmodifiable view returned by `getAllSessions` throws on a write. */
    | UnsupportedOperation
      /** Whatever a failed remote `notifyForMessage` call throws. */
    | DeliveryFault

  /** The `Object` stored under a session attribute key. `Null` is Java's null:
      a `HashMap` holds it as a value, and lookups answer it for missing keys. */
  datatype Value = Null | Str(s: string) | Num(n: int) | Bool(b: bool) | Blob(bytes: seq<bv8>)

  /** The result kinds of a test step report (GITB `TestResultType`). */
  datatype TestResultType = SUCCESS | FAILURE | WARNING | UNDEFINED

  /** A named input or output value (GITB `AnyContent`), reduced to name and text. */
  datatype AnyContent = AnyContent(name: string, value: string)

  /** A test step report (GITB `TAR`): its result and the data attached to it. */
  datatype Report = Report(result: TestResultType, context: seq<AnyContent>)

  /** `Utils.createReport(result)`: a report with the given result and nothing attached. */
  function CreateReport(result: TestResultType): Report
  {
    Report(result, [])
  }
}
