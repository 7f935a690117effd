/** The EPiServer `ILogger` the helpers write to, seen from outside: every call
    made on it, in order. Whether a level is enabled and how a deferred message
    is finally rendered is the logger's own business; only `IsDebugEnabled()`
    is consulted by the code modelled here. */
module Logging {
  import opened Wrappers
  import opened ClrModel

  datatype Level = Trace | Debug | Information | Warning | Error | Critical

  /** The formatter handed to a deferred call: one of the two `GetMessage`
      overloads of `LoggerExtensions`. */
  datatype Formatter = GetMessageOfState | GetMessageOfStateAndException

  /** One call on the logger: either a ready string message (the logger's own
      string overloads), or a state object plus a formatter that the logger
      applies if the level is enabled. */
  datatype LogCall =
    | Text(level: Level, text: string, exception: Option<Exn>)
    | Deferred(level: Level, state: Value, exception: Option<Exn>, formatter: Formatter)

  class Logger {
    var calls: seq<LogCall>
    const debugEnabled: bool

    constructor (debugEnabled: bool)
      ensures calls == [] && this.debugEnabled == debugEnabled
    {
      calls := [];
      this.debugEnabled := debugEnabled;
    }

    /** `IsDebugEnabled()`. */
    function IsDebugEnabled(): bool
    {
      debugEnabled
    }

    method Log(call: LogCall)
      modifies this
      ensures calls == old(calls) + [call]
    {
      calls := calls + [call];
    }
  }
}
