/** The application's catch-all exception handler (the `StatusPages`
    `exception<Throwable>` block): it wraps the cause, decides whether to
    log it to file and to the external log writer, and always answers with
    an error response. Its effects are recorded as a trace. */
module ErrorHandler {
  import opened Results
  import opened Exceptions
  import opened Logging

  /** The response sent back for a handled exception; built outside this model. */
  datatype ErrorResponse = ErrorResponse(body: string)

  /** The functions the handler calls and this model does not define:
      `ExceptionUtils.wrapException`, `ResponseCodeType.isError` and
      `I18nResponseCreator.createErrorResponse`, which reads both the
      exception and the request. */
  datatype Collaborators = Collaborators(
    wrapException: Throwable -> BaseException,
    isError: ResponseCodeType -> bool,
    createErrorResponse: (BaseException, RequestCall) -> ErrorResponse)

  /** `LoggingConfig`, as far as the handler reads it: `error.enabled`. */
  datatype LoggingConfig = LoggingConfig(errorEnabled: bool)

  /** An observable effect of the handler, in the order it happens. */
  datatype Effect =
    | WriteLogToFile(exception: BaseException, call: RequestCall)
    | WriteToLogWriter(entity: LogEntity)
    | Respond(response: ErrorResponse)

  /** The values `pick` selects from a trace, in trace order. */
  function Select<T>(effects: seq<Effect>, pick: Effect -> Option<T>): seq<T>
  {
    if effects == [] then []
    else (if pick(effects[0]).Some? then [pick(effects[0]).value] else []) + Select(effects[1..], pick)
  }

  lemma {:induction false} SelectAppend<T>(a: seq<Effect>, b: seq<Effect>, pick: Effect -> Option<T>)
    ensures Select(a + b, pick) == Select(a, pick) + Select(b, pick)
    decreases |a|
  {
    if a == [] {
      assert a + b == b;
    } else {
      var head: seq<T> := if pick(a[0]).Some? then [pick(a[0]).value] else [];
      assert (a + b)[0] == a[0];
      assert (a + b)[1..] == a[1..] + b;
      assert Select(a, pick) == head + Select(a[1..], pick);
      SelectAppend(a[1..], b, pick);
      assert Select(a + b, pick) == head + (Select(a[1..], pick) + Select(b, pick));
    }
  }

  /** What `ExceptionUtils.writeLogToFile(e, call)` is given. */
  datatype FileLogEntry = FileLogEntry(exception: BaseException, call: RequestCall)

  function AsFileLog(effect: Effect): Option<FileLogEntry>
  {
    if effect.WriteLogToFile? then Some(FileLogEntry(effect.exception, effect.call)) else None
  }

  function AsLogWrite(effect: Effect): Option<LogEntity>
  {
    if effect.WriteToLogWriter? then Some(effect.entity) else None
  }

  function AsResponse(effect: Effect): Option<ErrorResponse>
  {
    if effect.Respond? then Some(effect.response) else None
  }

  /** The exceptions, with their requests, written to the file log. */
  function FileLogs(effects: seq<Effect>): seq<FileLogEntry>
  {
    Select(effects, AsFileLog)
  }

  /** The entities passed to `LogWriter.write`. */
  function LogWrites(effects: seq<Effect>): seq<LogEntity>
  {
    Select(effects, AsLogWrite)
  }

  /** The responses sent. */
  function Responses(effects: seq<Effect>): seq<ErrorResponse>
  {
    Select(effects, AsResponse)
  }

  /** The three projections distribute over concatenation of traces. */
  lemma EffectsAppend(a: seq<Effect>, b: seq<Effect>)
    ensures FileLogs(a + b) == FileLogs(a) + FileLogs(b)
    ensures LogWrites(a + b) == LogWrites(a) + LogWrites(b)
    ensures Responses(a + b) == Responses(a) + Responses(b)
  {
    SelectAppend(a, b, AsFileLog);
    SelectAppend(a, b, AsLogWrite);
    SelectAppend(a, b, AsResponse);
  }

  /** The projections of a one-effect trace. */
  lemma SingleEffect(effect: Effect)
    ensures FileLogs([effect]) == if effect.WriteLogToFile? then [FileLogEntry(effect.exception, effect.call)] else []
    ensures LogWrites([effect]) == if effect.WriteToLogWriter? then [effect.entity] else []
    ensures Responses([effect]) == if effect.Respond? then [effect.response] else []
  {
    SelectSingle(effect, AsFileLog);
    SelectSingle(effect, AsLogWrite);
    SelectSingle(effect, AsResponse);
  }

  lemma SelectSingle<T>(effect: Effect, pick: Effect -> Option<T>)
    ensures Select([effect], pick) == if pick(effect).Some? then [pick(effect).value] else []
  {
    assert [effect][1..] == [];
    assert [effect][0] == effect;
  }

  /** The condition under which the handler logs a wrapped exception: it is
      an internal server error, or the request is authenticated and the
      exception's code type is an error. */
  function ShouldLogError(env: Collaborators, call: RequestCall, e: BaseException): (r: bool)
    ensures e.kind.InternalServerException? ==> r
    ensures call.principal.None? ==> (r <==> e.kind.InternalServerException?)
    ensures !e.kind.InternalServerException? && call.principal.Some? ==> (r <==> env.isError(e.code.codeType))
  {
    e.kind.InternalServerException? || (call.principal.Some? && env.isError(e.code.codeType))
  }

  /** Handling one `Throwable` raised while serving `call`. */
  function HandleException(env: Collaborators, config: LoggingConfig, call: RequestCall, cause: Throwable): (effects: seq<Effect>)
    ensures var e := env.wrapException(cause);
            && FileLogs(effects) == (if ShouldLogError(env, call, e) then [FileLogEntry(e, call)] else [])
            && LogWrites(effects) ==
                 (if ShouldLogError(env, call, e) && config.errorEnabled
                  then [ErrorLogEntry(ErrorLog(e, call))] else [])
            && Responses(effects) == [env.createErrorResponse(e, call)]
            && effects[|effects| - 1] == Respond(env.createErrorResponse(e, call))
            && |effects| == 1 + (if ShouldLogError(env, call, e) then 1 else 0)
                              + (if ShouldLogError(env, call, e) && config.errorEnabled then 1 else 0)
            && (ShouldLogError(env, call, e) ==> effects[0] == WriteLogToFile(e, call))
            && (ShouldLogError(env, call, e) && config.errorEnabled ==>
                  effects[1] == WriteToLogWriter(ErrorLogEntry(ErrorLog(e, call))))
  {
    var e := env.wrapException(cause);
    var fileLog := WriteLogToFile(e, call);
    var write := WriteToLogWriter(ErrorLogEntry(ErrorLog(e, call)));
    var respond := Respond(env.createErrorResponse(e, call));
    SingleEffect(fileLog);
    SingleEffect(write);
    SingleEffect(respond);
    if !ShouldLogError(env, call, e) then
      [respond]
    else if !config.errorEnabled then
      EffectsAppend([fileLog], [respond]);
      [fileLog] + [respond]
    else
      EffectsAppend([write], [respond]);
      EffectsAppend([fileLog], [write] + [respond]);
      [fileLog] + ([write] + [respond])
  }

  /** An internal server error is always written to the file log. */
  lemma InternalServerErrorIsFileLogged(env: Collaborators, config: LoggingConfig, call: RequestCall, cause: Throwable)
    requires env.wrapException(cause).kind.InternalServerException?
    ensures FileLogs(HandleException(env, config, call, cause)) == [FileLogEntry(env.wrapException(cause), call)]
  {
  }

  /** Any other exception is written to the file log exactly when the
      request has a principal and the exception's code type is an error. */
  lemma OtherExceptionFileLoggedIff(env: Collaborators, config: LoggingConfig, call: RequestCall, cause: Throwable)
    requires !env.wrapException(cause).kind.InternalServerException?
    ensures |FileLogs(HandleException(env, config, call, cause))| == 1 <==>
              call.principal.Some? && env.isError(env.wrapException(cause).code.codeType)
    ensures |FileLogs(HandleException(env, config, call, cause))| <= 1
  {
  }

  /** Without a principal, an exception that is not an internal server
      error leaves no log of any kind. */
  lemma UnauthenticatedOtherExceptionIsNotLogged(env: Collaborators, config: LoggingConfig, call: RequestCall, cause: Throwable)
    requires call.principal.None?
    requires !env.wrapException(cause).kind.InternalServerException?
    ensures FileLogs(HandleException(env, config, call, cause)) == []
    ensures LogWrites(HandleException(env, config, call, cause)) == []
  {
  }

  /** `LogWriter.write` is called, once, exactly when the exception is file
      logged and external error logging is enabled. */
  lemma LogWriterCalledIffFileLoggedAndEnabled(env: Collaborators, config: LoggingConfig, call: RequestCall, cause: Throwable)
    ensures var effects := HandleException(env, config, call, cause);
            && |LogWrites(effects)| <= 1
            && (|LogWrites(effects)| == 1 <==> |FileLogs(effects)| == 1 && config.errorEnabled)
  {
  }

  /** The error response built from the wrapped exception and the request is
      always sent, once, as the last effect. */
  lemma ErrorResponseAlwaysSent(env: Collaborators, config: LoggingConfig, call: RequestCall, cause: Throwable)
    ensures var effects := HandleException(env, config, call, cause);
            && Responses(effects) == [env.createErrorResponse(env.wrapException(cause), call)]
            && effects[|effects| - 1].Respond?
  {
  }

  /** Every decision is taken on the wrapped exception: two causes that wrap
      to the same exception are handled identically. */
  lemma HandlingDependsOnlyOnWrappedException(env: Collaborators, config: LoggingConfig, call: RequestCall, c1: Throwable, c2: Throwable)
    requires env.wrapException(c1) == env.wrapException(c2)
    ensures HandleException(env, config, call, c1) == HandleException(env, config, call, c2)
  {
  }

  /** One exception reaching the handler while serving `call`. */
  datatype FailedRequest = FailedRequest(call: RequestCall, cause: Throwable)

  /** Whether the handler logs the exception of a failed request. */
  predicate IsLogged(env: Collaborators, r: FailedRequest)
  {
    ShouldLogError(env, r.call, env.wrapException(r.cause))
  }

  /** The failed requests that meet the logging condition, in order. */
  function LoggedRequests(env: Collaborators, requests: seq<FailedRequest>): (logged: seq<FailedRequest>)
    ensures |logged| <= |requests|
    ensures forall r <- logged :: r in requests && IsLogged(env, r)
    ensures forall r <- requests :: IsLogged(env, r) ==> r in logged
  {
    if requests == [] then []
    else (if IsLogged(env, requests[0]) then [requests[0]] else []) + LoggedRequests(env, requests[1..])
  }

  /** The response each failed request gets, in order. */
  function ResponsesTo(env: Collaborators, requests: seq<FailedRequest>): (responses: seq<ErrorResponse>)
  {
    seq(|requests|, i requires 0 <= i < |requests| =>
      env.createErrorResponse(env.wrapException(requests[i].cause), requests[i].call))
  }

  /** The file-log entries of the given requests, in order: each request's
      wrapped exception with that request's own call. */
  function FileLogEntriesOf(env: Collaborators, requests: seq<FailedRequest>): seq<FileLogEntry>
  {
    seq(|requests|, i requires 0 <= i < |requests| =>
      FileLogEntry(env.wrapException(requests[i].cause), requests[i].call))
  }

  /** The error logs of the given requests, in order. */
  function ErrorLogsOf(env: Collaborators, requests: seq<FailedRequest>): seq<LogEntity>
  {
    seq(|requests|, i requires 0 <= i < |requests| =>
      ErrorLogEntry(ErrorLog(env.wrapException(requests[i].cause), requests[i].call)))
  }

  /** The per-request sequences above distribute over concatenation. */
  lemma PerRequestAppend(env: Collaborators, a: seq<FailedRequest>, b: seq<FailedRequest>)
    ensures ResponsesTo(env, a + b) == ResponsesTo(env, a) + ResponsesTo(env, b)
    ensures FileLogEntriesOf(env, a + b) == FileLogEntriesOf(env, a) + FileLogEntriesOf(env, b)
    ensures ErrorLogsOf(env, a + b) == ErrorLogsOf(env, a) + ErrorLogsOf(env, b)
  {
  }

  /** Handling the first request, then the rest, gives each request's
      response in order, given that `rest` does so for the rest. */
  lemma ResponsesStep(env: Collaborators, config: LoggingConfig, requests: seq<FailedRequest>, rest: seq<Effect>)
    requires requests != []
    requires Responses(rest) == ResponsesTo(env, requests[1..])
    ensures Responses(HandleException(env, config, requests[0].call, requests[0].cause) + rest)
            == ResponsesTo(env, requests)
  {
    EffectsAppend(HandleException(env, config, requests[0].call, requests[0].cause), rest);
    assert requests == requests[..1] + requests[1..];
    PerRequestAppend(env, requests[..1], requests[1..]);
  }

  /** The same step for the file log. */
  lemma FileLogsStep(env: Collaborators, config: LoggingConfig, requests: seq<FailedRequest>, rest: seq<Effect>)
    requires requests != []
    requires FileLogs(rest) == FileLogEntriesOf(env, LoggedRequests(env, requests[1..]))
    ensures FileLogs(HandleException(env, config, requests[0].call, requests[0].cause) + rest)
            == FileLogEntriesOf(env, LoggedRequests(env, requests))
  {
    var first := HandleException(env, config, requests[0].call, requests[0].cause);
    EffectsAppend(first, rest);
    var head := if IsLogged(env, requests[0]) then [requests[0]] else [];
    assert LoggedRequests(env, requests) == head + LoggedRequests(env, requests[1..]);
    PerRequestAppend(env, head, LoggedRequests(env, requests[1..]));
    assert FileLogs(first) == FileLogEntriesOf(env, head);
  }

  /** The same step for the log writer. */
  lemma LogWritesStep(env: Collaborators, config: LoggingConfig, requests: seq<FailedRequest>, rest: seq<Effect>)
    requires requests != []
    requires LogWrites(rest) ==
               if config.errorEnabled then ErrorLogsOf(env, LoggedRequests(env, requests[1..])) else []
    ensures LogWrites(HandleException(env, config, requests[0].call, requests[0].cause) + rest)
            == if config.errorEnabled then ErrorLogsOf(env, LoggedRequests(env, requests)) else []
  {
    var first := HandleException(env, config, requests[0].call, requests[0].cause);
    EffectsAppend(first, rest);
    var head := if IsLogged(env, requests[0]) then [requests[0]] else [];
    assert LoggedRequests(env, requests) == head + LoggedRequests(env, requests[1..]);
    PerRequestAppend(env, head, LoggedRequests(env, requests[1..]));
    assert LogWrites(first) == if config.errorEnabled then ErrorLogsOf(env, head) else [];
  }

  /** The trace of handling a series of failed requests, one after the other:
      request i gets exactly the response built from its own exception and
      call, in request order; the file log receives exactly the wrapped
      exceptions of the requests that meet the logging condition, in order;
      and the log writer receives exactly their error logs, in order, when
      error logging is enabled, and nothing otherwise. */
  function HandleEach(env: Collaborators, config: LoggingConfig, requests: seq<FailedRequest>): (effects: seq<Effect>)
    ensures Responses(effects) == ResponsesTo(env, requests)
    ensures FileLogs(effects) == FileLogEntriesOf(env, LoggedRequests(env, requests))
    ensures LogWrites(effects) ==
              if config.errorEnabled then ErrorLogsOf(env, LoggedRequests(env, requests)) else []
  {
    if requests == [] then []
    else
      var rest := HandleEach(env, config, requests[1..]);
      ResponsesStep(env, config, requests, rest);
      FileLogsStep(env, config, requests, rest);
      LogWritesStep(env, config, requests, rest);
      HandleException(env, config, requests[0].call, requests[0].cause) + rest
  }

  /** The handler written against a log writer: the writer receives exactly
      the entities the trace passes to `LogWriter.write`, and the response
      is returned. */
  method Handle(env: Collaborators, config: LoggingConfig, logWriter: LogWriter, call: RequestCall, cause: Throwable)
    returns (response: ErrorResponse)
    modifies logWriter
    ensures logWriter.written == old(logWriter.written) + LogWrites(HandleException(env, config, call, cause))
    ensures response == env.createErrorResponse(env.wrapException(cause), call)
  {
    var e := env.wrapException(cause);
    if ShouldLogError(env, call, e) {
      // The file log is written by `ExceptionUtils.writeLogToFile`, outside this model.
      if config.errorEnabled {
        logWriter.Write(ErrorLogEntry(ErrorLog(e, call)));
      }
    }
    response := env.createErrorResponse(e, call);
  }
}
