/** The exception values the application's error handler works with. The
    handler branches on whether the wrapped exception is an
    `InternalServerException` and on the code type of its response code, and
    forwards the whole exception to the file log, the error log and the
    error response; its remaining contents are kept as opaque values. */
module Exceptions {

  /** Any `Throwable` that reaches the handler. It is passed whole to
      `wrapException`, so besides its class and message it keeps the rest of
      its contents (stack trace, cause chain, and for an application
      exception its response code) as opaque name/value pairs. */
  datatype Throwable = Throwable(className: string, message: string, details: map<string, string>)

  /** The type of a response code; whether it counts as an error is decided
      by `isError()`, which is defined elsewhere in fanpoll and not modelled. */
  datatype ResponseCodeType = ResponseCodeType(name: string)

  datatype ResponseCode = ResponseCode(value: string, codeType: ResponseCodeType)

  /** The class of a wrapped exception, as far as the handler tells classes apart. */
  datatype ExceptionKind = InternalServerException | OtherBaseException(className: string)

  /** The application's own exception type, which `wrapException` turns every
      `Throwable` into. */
  datatype BaseException = BaseException(
    kind: ExceptionKind,
    code: ResponseCode,
    message: string,
    data: map<string, string>)
}
