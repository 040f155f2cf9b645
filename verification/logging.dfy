/** Log entities and the log writer that receives them
    (`fanpoll.infra.logging.writers.LogWriter`). A writer is modelled only by
    the sequence of entities written to it so far. */
module Logging {
  import opened Results
  import opened Exceptions

  /** Milliseconds since the epoch. */
  type Instant = int

  /** `NotificationMessageLog`: the four columns the mock sender overwrites,
      and every other column as a name/value map. */
  datatype NotificationMessageLog = NotificationMessageLog(
    sendAt: Option<Instant>,
    success: Option<bool>,
    content: Option<string>,
    rspCode: Option<string>,
    columns: map<string, string>)

  /** The principal attached to a request, when it was authenticated. */
  datatype Principal = Principal(id: string)

  /** The request being handled: its principal, if it was authenticated,
      and the rest of the request (path, headers, parameters) as opaque
      name/value pairs. */
  datatype RequestCall = RequestCall(principal: Option<Principal>, details: map<string, string>)

  /** `ErrorLog.request(e, call)`: an error log for a request. */
  datatype ErrorLog = ErrorLog(exception: BaseException, call: RequestCall)

  /** `LogEntity`: anything a log writer accepts. */
  datatype LogEntity = NotificationLogEntry(notification: NotificationMessageLog) | ErrorLogEntry(error: ErrorLog)

  /** A log writer, seen as the trace of entities written to it. */
  class LogWriter {
    ghost var written: seq<LogEntity>

    constructor()
      ensures written == []
    {
      written := [];
    }

    /** `write(logEntity)` appends exactly that entity. */
    method Write(logEntity: LogEntity)
      modifies this
      ensures written == old(written) + [logEntity]
    {
      written := written + [logEntity];
    }

    /** The default `shutdown()` does nothing. */
    method Shutdown()
      ensures written == old(written)
    {
    }
  }
}
