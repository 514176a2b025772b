/** The exception-to-flag conversion every "exception becomes CompletedWithError" rule uses. */
module ErrorHandling {
  import opened Wrappers

  /** What `Expect` hands back: the invoked function's value (None stands for `default`,
      which is null for the reference types the library uses) and the `errorHandled` flag. */
  datatype Handled<T> = Handled(value: Option<T>, errorHandled: bool)

  /** `Expect(invoke, out errorHandled)`: the exception is logged and swallowed. */
  function Expect<T>(invoke: Outcome<T>): (r: Handled<T>)
    ensures r.errorHandled <==> invoke.Threw?
    ensures r.value.Some? <==> invoke.Returned?
    ensures invoke.Returned? ==> r.value.value == invoke.value
  {
    match invoke
    case Returned(v) => Handled(Some(v), false)
    case Threw => Handled(None, true)
  }

  /** `Expect(input, action, out errorHandled)`: the action overload; only the flag is produced. */
  function ExpectAction(invoke: Outcome<()>): (errorHandled: bool)
    ensures errorHandled <==> invoke.Threw?
  {
    Expect(invoke).errorHandled
  }

  /** `ExpectAndThrow`: the exception is logged and then escapes to the caller unchanged. */
  function ExpectAndThrow<T>(invoke: Outcome<T>): (r: Outcome<T>)
    ensures r.Threw? <==> invoke.Threw?
    ensures r.Returned? ==> r.value == invoke.value
  {
    match invoke
    case Returned(v) => Returned(v)
    case Threw => Threw
  }

  /** Swallowing and rethrowing agree on every call that does not throw. */
  lemma ExpectAgreesWithRethrow<T>(invoke: Outcome<T>)
    ensures !Expect(invoke).errorHandled ==> ExpectAndThrow(invoke) == Returned(Expect(invoke).value.value)
  {
  }

  /** A log sink, by identity. */
  type LoggerId = nat

  /** The console sink the getter falls back to. */
  const ConsoleLogger: LoggerId := 0

  /** The static `Logger` property of `ErrorHandle`. */
  class LoggerSlot {
    var logger: Option<LoggerId>

    constructor ()
      ensures logger == None
    {
      logger := None;
    }

    /** The getter: an unset slot is filled with the console sink, so it never yields null. */
    method GetLogger() returns (l: LoggerId)
      modifies this
      ensures logger == Some(l)
      ensures old(logger).Some? ==> l == old(logger).value
      ensures old(logger).None? ==> l == ConsoleLogger
    {
      if logger.None? {
        logger := Some(ConsoleLogger);
      }
      l := logger.value;
    }

    /** The setter rejects null and leaves the slot unchanged then. */
    method SetLogger(value: Option<LoggerId>) returns (r: Result<(), Failure>)
      modifies this
      ensures r.Err? <==> value.None?
      ensures r.Err? ==> r.error == ArgumentNull("ILogAdapter") && logger == old(logger)
      ensures r.Ok? ==> logger == value
    {
      if value.None? {
        return Err(ArgumentNull("ILogAdapter"));
      }
      logger := value;
      r := Ok(());
    }
  }
}
