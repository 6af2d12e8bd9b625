/**
 * Acknowledging a delivered message through the `Caller` handed to
 * `onMessage`: allowed only when the service acknowledges manually.
 */
module MessageAck {
  import opened Common
  import opened RuntimeTypes

  const AUTO_ACK_MODE_ERROR: string :=
    "Invalid operation, manual acknowledgement is not supported in auto ACK mode."

  /**
   * `ack`. In manual mode the broker message's `ack` is called once
   * (`ackOutcome` is what it raises, if anything): an I/O failure becomes the
   * module error with the exception's message verbatim, any other exception
   * propagates. In auto mode `ack` is not called and the result is the
   * auto-mode error. The caller itself is only read.
   */
  method Ack(caller: Caller, ackOutcome: Option<JavaException>) returns (failure: Option<Failure>)
    modifies caller.message
    ensures caller.manualAck ==> caller.message.ackCalls == old(caller.message.ackCalls) + 1
    ensures !caller.manualAck ==> caller.message.ackCalls == old(caller.message.ackCalls)
    ensures !caller.manualAck ==> failure == Some(NatsError(AUTO_ACK_MODE_ERROR))
    ensures caller.manualAck && ackOutcome.None? ==> failure.None?
    ensures caller.manualAck && ackOutcome.Some? ==>
              failure == Some(if ackOutcome.value.kind == IOException then NatsError(ackOutcome.value.message)
                              else Escaped(ackOutcome.value))
  {
    var message := caller.message;
    if !caller.manualAck {
      return Some(NatsError(AUTO_ACK_MODE_ERROR));
    }
    message.ackCalls := message.ackCalls + 1;
    match ackOutcome {
      case None => failure := None;
      case Some(e) =>
        failure := if e.kind == IOException then Some(NatsError(e.message)) else Some(Escaped(e));
    }
  }
}
