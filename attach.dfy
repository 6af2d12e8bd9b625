/**
 * Attaching a service to the older listener: the service's subject is found,
 * and a message handler for it is registered in the listener's pending
 * registry until the listener starts and subscribes it.
 */
module ConsumerAttach {
  import opened Common
  import opened RuntimeTypes

  const SUBJECT_NOT_FOUND: string := "Subject name cannot be found"

  /** The name a service is attached under: a string, or a value of another type (such as a path). */
  datatype ServiceName = NameString(name: string) | NameOtherType

  /**
   * The subject: the `ServiceConfig` annotation's `subject` when the service
   * has one, otherwise the service name when that is a string; with neither
   * there is no subject and attaching fails.
   */
  function SubjectFor(annotation: Option<ServiceConfig>, serviceName: ServiceName): (r: Result<string, Failure>)
    ensures r.Err? <==> annotation.None? && serviceName.NameOtherType?
    ensures r.Err? ==> r.error == NatsError(SUBJECT_NOT_FOUND)
    ensures annotation.Some? ==> r == Ok(annotation.value.subject)
    ensures annotation.None? && serviceName.NameString? ==> r == Ok(serviceName.name)
  {
    match annotation
    case Some(config) => Ok(config.subject)
    case None =>
      match serviceName
      case NameString(name) => Ok(name)
      case NameOtherType => Err(NatsError(SUBJECT_NOT_FOUND))
  }

  /**
   * `getAckMode`: the annotation's `autoAck` flag. The annotation is read
   * without a presence check, so a service without one ends in a null
   * dereference.
   */
  function AckModeOf(service: Service): (r: Result<bool, Failure>)
    ensures r.Ok? <==> service.annotation.Some?
    ensures r.Ok? ==> r.value == service.annotation.value.autoAck
    ensures r.Err? ==> r.error.Escaped? && r.error.cause.kind == NullPointerException
  {
    match service.annotation
    case None => Err(Escaped(JavaException(NullPointerException, "")))
    case Some(config) => Ok(config.autoAck)
  }

  /**
   * The handler `attach` registers for `service`, or why it cannot. The
   * subject is looked up first, then the ack mode; so a service without the
   * annotation never gets a handler: with a string name it gets past the
   * subject and fails on the ack mode.
   */
  function Registration(service: Service, serviceName: ServiceName, url: Option<UrlValue>)
    : (r: Result<StreamingListener, Failure>)
    ensures r.Ok? <==> service.annotation.Some?
    ensures r.Ok? ==> r.value == StreamingListener(service, !service.annotation.value.autoAck, url,
                                                    Some(service.annotation.value.subject))
    ensures service.annotation.None? && serviceName.NameOtherType? ==> r == Err(NatsError(SUBJECT_NOT_FOUND))
    ensures service.annotation.None? && serviceName.NameString? ==>
              r.Err? && r.error.Escaped? && r.error.cause.kind == NullPointerException
  {
    match SubjectFor(service.annotation, serviceName)
    case Err(e) => Err(e)
    case Ok(subject) =>
      match AckModeOf(service)
      case Err(e) => Err(e)
      case Ok(autoAck) => Ok(StreamingListener(service, !autoAck, url, Some(subject)))
  }

  /**
   * `attach`: on success the pending registry maps `service` to its new
   * handler, replacing an earlier binding of the same service, and every other
   * entry is kept; on failure the registry is unchanged.
   */
  method Attach(listener: NativeObject, service: Service, serviceName: ServiceName) returns (failure: Option<Failure>)
    requires listener.pending.Some?
    modifies listener`pending
    ensures var registration := Registration(service, serviceName, listener.url);
            (failure.None? <==> registration.Ok?) &&
            (registration.Err? ==> failure == Some(registration.error) && listener.pending == old(listener.pending)) &&
            (registration.Ok? ==> listener.pending == Some(old(listener.pending.value)[service := registration.value]))
  {
    var url := listener.url;
    var subject := SubjectFor(service.annotation, serviceName);
    if subject.Err? {
      return Some(subject.error);
    }
    var autoAck := AckModeOf(service);
    if autoAck.Err? {
      return Some(autoAck.error);
    }
    var handler := StreamingListener(service, !autoAck.value, url, Some(subject.value));
    listener.pending := Some(listener.pending.value[service := handler]);
    failure := None;
  }
}
