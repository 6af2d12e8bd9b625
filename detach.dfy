/**
 * Detaching a service from the newer listener: its live subscription is
 * cancelled and the service leaves both registries.
 */
module ConsumerDetach {
  import opened Common
  import opened RuntimeTypes

  const UNSUBSCRIBE_ERROR: string := "Error occurred while un-subscribing: "

  /**
   * `streamingDetach`. A service without a live subscription is left alone,
   * even when a handler for it is still pending. Otherwise the subscription
   * is cancelled (`unsubscribeOutcome` is what the client's `unsubscribe`
   * raises, if anything) and only then is the service removed from both
   * registries, so a failed cancellation changes neither. The unsubscription
   * metric is reported only when the listener holds a connection.
   */
  method StreamingDetach(listener: NativeObject, service: Service, unsubscribeOutcome: Option<JavaException>,
                         log: MetricsLog)
    returns (failure: Option<Failure>)
    requires listener.pending.Some? && listener.live.Some?
    modifies listener`pending, listener`live, log
    ensures listener.pending.Some? && listener.live.Some?
    ensures service !in old(listener.live.value) ==>
              failure.None? && listener.pending == old(listener.pending) && listener.live == old(listener.live) &&
              log.events == old(log.events)
    ensures service in old(listener.live.value) && unsubscribeOutcome.None? ==>
              failure.None? &&
              listener.live.value == old(listener.live.value) - {service} &&
              listener.pending.value == old(listener.pending.value) - {service} &&
              log.events == old(log.events) +
                            (if listener.connection.Some?
                             then [StreamingUnsubscription(listener.connection.value.connectedUrl,
                                                           old(listener.live.value)[service].subject)]
                             else [])
    ensures service in old(listener.live.value) && unsubscribeOutcome.Some? ==>
              listener.pending == old(listener.pending) && listener.live == old(listener.live) &&
              log.events == old(log.events) &&
              failure == Some(if unsubscribeOutcome.value.kind == IOException
                              then NatsError(UNSUBSCRIBE_ERROR + unsubscribeOutcome.value.message)
                              else Escaped(unsubscribeOutcome.value))
  {
    if service !in listener.live.value {
      return None;
    }
    var subscription := listener.live.value[service];
    if unsubscribeOutcome.Some? {
      var e := unsubscribeOutcome.value;
      if e.kind == IOException {
        return Some(NatsError(UNSUBSCRIBE_ERROR + e.message));
      }
      return Some(Escaped(e));
    }
    listener.live := Some(listener.live.value - {service});
    listener.pending := Some(listener.pending.value - {service});
    if listener.connection.Some? {
      log.Report(StreamingUnsubscription(listener.connection.value.connectedUrl, subscription.subject));
    }
    failure := None;
  }
}
