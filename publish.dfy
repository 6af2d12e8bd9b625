/**
 * `publishMessage` of the older producer: sends a message's bytes on its
 * subject through the stored connection, with an acknowledgement handler
 * that completes the caller's future once the server acknowledges.
 */
module ProducerPublish {
  import opened Common
  import opened RuntimeTypes
  import Utils
  import opened ProducerAckListener

  const PUBLISH_INTERRUPTED_ERROR: string := "Failed to publish due to an internal error"

  /** The `stan:Message` record handed to `publishMessage`: its subject and content. */
  datatype OutgoingMessage = OutgoingMessage(subject: string, content: seq<byte>)

  /**
   * What `publishMessage` returns for the outcome of the client's `publish`
   * call: the GUID it assigned, or the module error (an interruption with a
   * fixed message, an I/O or timeout failure with the exception's message);
   * any other exception propagates.
   */
  function PublishResult(outcome: Result<string, JavaException>): (r: Result<string, Failure>)
    ensures outcome.Ok? <==> r.Ok?
    ensures outcome.Ok? ==> r.value == outcome.value
    ensures outcome.Err? && outcome.error.kind == InterruptedException ==> r == Err(NatsError(PUBLISH_INTERRUPTED_ERROR))
    ensures outcome.Err? && outcome.error.kind in {IOException, TimeoutException} ==> r == Err(NatsError(outcome.error.message))
    ensures r.Err? && r.error.Escaped? <==>
              outcome.Err? && outcome.error.kind !in {InterruptedException, IOException, TimeoutException}
  {
    match outcome
    case Ok(guid) => Ok(guid)
    case Err(e) =>
      if e.kind == InterruptedException then Err(NatsError(PUBLISH_INTERRUPTED_ERROR))
      else if e.kind in {IOException, TimeoutException} then Err(NatsError(e.message))
      else Err(Escaped(e))
  }

  /** The metrics one publish call reports: the publish, then a publish error if it failed with a handled exception. */
  function PublishMetrics(subject: string, size: nat, outcome: Result<string, JavaException>): (events: seq<Metric>)
    ensures 1 <= |events| <= 2 && events[0] == Publish(subject, size)
    ensures |events| == 2 <==> PublishResult(outcome).Err? && PublishResult(outcome).error.NatsError?
    ensures |events| == 2 ==> events[1] == ProducerError(subject, PublishError)
  {
    if outcome.Err? && outcome.error.kind in {InterruptedException, IOException, TimeoutException}
    then [Publish(subject, size), ProducerError(subject, PublishError)]
    else [Publish(subject, size)]
  }

  /**
   * Marks the call asynchronous, builds the acknowledgement handler over the
   * new future, reports the publish with the payload size and calls
   * `publish`. The future is left for the handler to complete.
   */
  method PublishMessage(publisher: NativeObject, message: OutgoingMessage,
                        publish: (string, seq<byte>) -> Result<string, JavaException>, log: MetricsLog)
    returns (r: Result<string, Failure>, ackListener: AckListener)
    requires publisher.connection.Some?
    modifies log
    ensures r == PublishResult(publish(message.subject, message.content))
    ensures fresh(ackListener) && fresh(ackListener.future)
    ensures ackListener.subject == message.subject && ackListener.reporter == log
    ensures ackListener.future.async && ackListener.future.result.None? && ackListener.future.completions == 0
    ensures log.events == old(log.events) + PublishMetrics(message.subject, |message.content|, publish(message.subject, message.content))
  {
    var subject := message.subject;
    var bytes := Utils.ConvertDataIntoByteArray(message.content);
    var future := new Future();
    future.MarkAsync();
    ackListener := new AckListener(future, subject, log);
    log.Report(Publish(subject, |bytes|));
    var outcome := publish(subject, bytes);
    assert bytes == message.content;
    r := PublishResult(outcome);
    if outcome.Err? && outcome.error.kind in {InterruptedException, IOException, TimeoutException} {
      log.Report(ProducerError(subject, PublishError));
    }
  }
}
