/** The mock notification channel sender: it delivers nothing, and when
    notification logging is enabled it writes one notification log per
    message, marked as a successful mock delivery. */
module MockNotificationSenders {
  import opened Results
  import opened Logging

  /** A notification message. Its contents are reached only through
      `MessageOps`, so only its identity is kept here. */
  datatype NotificationMessage = NotificationMessage(id: string)

  /** What the sender asks of a message: `toNotificationMessageLog()` and the
      JSON text of `content.toJson()`. Both are defined outside this model. */
  datatype MessageOps = MessageOps(
    toNotificationMessageLog: NotificationMessage -> NotificationMessageLog,
    contentJson: NotificationMessage -> string)

  /** `NotificationLogConfig`, as far as the sender reads it. */
  datatype NotificationLogConfig = NotificationLogConfig(enabled: bool)

  const MockResponseCode: string := "mock"

  /** The channel accepts one receiver per request. */
  const MockMaxReceiversPerRequest: int := 1

  /** `toMockLog(message)`: the message's own log with the send time, the
      success flag, the content and the response code filled in. Every
      other column is the message's own. */
  function ToMockLog(ops: MessageOps, message: NotificationMessage, now: Instant): (log: NotificationMessageLog)
    ensures log.sendAt == Some(now)
    ensures log.success == Some(true)
    ensures log.content == Some(ops.contentJson(message))
    ensures log.rspCode == Some(MockResponseCode)
    ensures var base := ops.toNotificationMessageLog(message);
            log.(sendAt := base.sendAt, success := base.success, content := base.content, rspCode := base.rspCode) == base
  {
    ops.toNotificationMessageLog(message).(
      sendAt := Some(now),
      success := Some(true),
      content := Some(ops.contentJson(message)),
      rspCode := Some(MockResponseCode))
  }

  /** The entities one `send(message)` writes to the log writer. */
  function SendLog(config: NotificationLogConfig, ops: MessageOps, message: NotificationMessage, now: Instant): (entries: seq<LogEntity>)
    ensures |entries| == if config.enabled then 1 else 0
    ensures forall e <- entries :: e == NotificationLogEntry(ToMockLog(ops, message, now))
  {
    if config.enabled then [NotificationLogEntry(ToMockLog(ops, message, now))] else []
  }

  /** One call of `send`, at the time `at`. */
  datatype Delivery = Delivery(message: NotificationMessage, at: Instant)

  /** The entities a series of `send` calls writes, in call order. */
  function SendAll(config: NotificationLogConfig, ops: MessageOps, deliveries: seq<Delivery>): (entries: seq<LogEntity>)
    ensures |entries| == if config.enabled then |deliveries| else 0
    ensures config.enabled ==>
              forall i | 0 <= i < |entries| ::
                entries[i] == NotificationLogEntry(ToMockLog(ops, deliveries[i].message, deliveries[i].at))
  {
    if deliveries == [] then []
    else SendLog(config, ops, deliveries[0].message, deliveries[0].at) + SendAll(config, ops, deliveries[1..])
  }

  /** Sending one more message extends the written entities by that send's entities. */
  lemma SendAllSnoc(config: NotificationLogConfig, ops: MessageOps, deliveries: seq<Delivery>, d: Delivery)
    ensures SendAll(config, ops, deliveries + [d]) == SendAll(config, ops, deliveries) + SendLog(config, ops, d.message, d.at)
  {
  }

  /** Every entity the mock channel writes records a successful delivery
      with response code "mock". */
  lemma MockLogsAreSuccessful(config: NotificationLogConfig, ops: MessageOps, deliveries: seq<Delivery>)
    ensures forall e <- SendAll(config, ops, deliveries) ::
              e.NotificationLogEntry? && e.notification.success == Some(true)
              && e.notification.rspCode == Some(MockResponseCode)
  {
  }

  /** `MockNotificationChannelSender`. */
  class MockNotificationChannelSender {
    const loggingConfig: NotificationLogConfig
    const logWriter: LogWriter
    const maxReceiversPerRequest: int

    constructor Init(loggingConfig: NotificationLogConfig, logWriter: LogWriter)
      ensures this.loggingConfig == loggingConfig && this.logWriter == logWriter
      ensures maxReceiversPerRequest == MockMaxReceiversPerRequest
    {
      this.loggingConfig := loggingConfig;
      this.logWriter := logWriter;
      this.maxReceiversPerRequest := MockMaxReceiversPerRequest;
    }

    /** `send(message)`: the debug output is not modelled; the only
        observable effect is on the log writer. */
    method Send(ops: MessageOps, message: NotificationMessage, now: Instant)
      modifies logWriter
      ensures logWriter.written == old(logWriter.written) + SendLog(loggingConfig, ops, message, now)
    {
      if loggingConfig.enabled {
        logWriter.Write(NotificationLogEntry(ToMockLog(ops, message, now)));
      }
    }

    /** Calls `send` once per delivery, in order. */
    method SendEach(ops: MessageOps, deliveries: seq<Delivery>)
      modifies logWriter
      ensures logWriter.written == old(logWriter.written) + SendAll(loggingConfig, ops, deliveries)
    {
      var i := 0;
      while i < |deliveries|
        invariant 0 <= i <= |deliveries|
        invariant logWriter.written == old(logWriter.written) + SendAll(loggingConfig, ops, deliveries[..i])
      {
        SendAllSnoc(loggingConfig, ops, deliveries[..i], deliveries[i]);
        assert deliveries[..i + 1] == deliveries[..i] + [deliveries[i]];
        Send(ops, deliveries[i].message, deliveries[i].at);
        i := i + 1;
      }
      assert deliveries[..i] == deliveries;
    }
  }
}
