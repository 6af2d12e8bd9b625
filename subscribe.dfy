/**
 * Starting the newer listener: every handler waiting in the pending registry
 * is subscribed on the streaming connection and moved to the live registry.
 * The subscription options are derived from the service's `ServiceConfig`
 * annotation; the subscribe call itself is the `subscribe` parameter.
 */
module ConsumerSubscribe {
  import opened Common
  import opened RuntimeTypes

  const DEFAULT_MAX_IN_FLIGHT: int := 1024
  const DEFAULT_ACK_WAIT: int := 30
  const DEFAULT_SUBSCRIPTION_TIMEOUT: int := 2

  const SUBJECT_MANDATORY: string := "`Subject` annotation field is mandatory"
  const SUBSCRIPTION_TIMEOUT_ERROR: string := "Error while creating the subscription"
  const INVALID_START_POSITION_TYPE: string := "Invalid type for start position value "
  /** The text of Java's `Enum.valueOf` failure for the start position enum, before the name. */
  const NO_START_POSITION_CONSTANT: string :=
    "No enum constant io.ballerina.stdlib.stan.consumer.Subscribe.BallerinaStartPosition."

  /** The names of the start position enum, in declaration order. */
  const START_POSITION_NAMES: seq<string> :=
    ["NEW_ONLY", "LAST_RECEIVED", "FIRST", "TIME_DELTA_START", "SEQUENCE_NUMBER"]

  /** Where a subscription starts, as set on the options builder (`NewOnly` is the builder's default). */
  datatype StartChoice =
    | NewOnly
    | LastReceived
    | AllAvailable
    | TimeDelta(seconds: int)
    | AtSequence(sequence: int)

  /** The built `SubscriptionOptions`. */
  datatype SubscriptionOptions = SubscriptionOptions(
    durableName: Option<string>,
    maxInFlight: int,
    ackWaitSeconds: int,
    subscriptionTimeoutSeconds: int,
    manualAcks: bool,
    start: StartChoice)

  /**
   * A call of the streaming client's `subscribe`: with subject and handler
   * only, or also with a queue group (possibly null) and options.
   */
  datatype SubscribeRequest =
    | PlainRequest(subject: string, handler: StreamingListener)
    | ConfiguredRequest(subject: string, queueGroup: Option<string>, handler: StreamingListener,
                        options: SubscriptionOptions)

  function DigitChar(d: nat): char
    requires d < 10
  {
    ('0' as int + d) as char
  }

  /** The number a string of decimal digits denotes, read most significant digit first. */
  function DecimalValue(s: string): nat
  {
    if |s| == 0 then 0
    else
      var c := s[|s| - 1];
      DecimalValue(s[..|s| - 1]) * 10 + (if '0' <= c <= '9' then c as int - '0' as int else 0)
  }

  /**
   * The decimal text of `n`, as Java prints an `int` type tag: digits only,
   * no leading zero, and denoting `n`.
   */
  function DecimalText(n: nat): (s: string)
    ensures 1 <= |s|
    ensures forall i :: 0 <= i < |s| ==> '0' <= s[i] <= '9'
    ensures |s| > 1 ==> s[0] != '0'
    ensures DecimalValue(s) == n
  {
    if n < 10 then [DigitChar(n)]
    else
      var s := DecimalText(n / 10) + [DigitChar(n % 10)];
      assert s[..|s| - 1] == DecimalText(n / 10);
      s
  }

  /**
   * `setStartPositionInBuilder`. A string must name a constant of the start
   * position enum (otherwise `valueOf` throws); only LAST_RECEIVED and FIRST
   * change the builder. A tuple starts at a time delta when its kind is
   * TIME_DELTA_START and at a sequence number otherwise. A value of any other
   * type is an assertion error naming its type tag.
   */
  function StartChoiceFor(value: StartPositionValue): (r: Result<StartChoice, JavaException>)
    ensures r.Err? <==> value.StartOtherType? || (value.StartName? && value.name !in START_POSITION_NAMES)
    ensures value.StartName? && value.name == "LAST_RECEIVED" ==> r == Ok(LastReceived)
    ensures value.StartName? && value.name == "FIRST" ==> r == Ok(AllAvailable)
    ensures value.StartName? && value.name in START_POSITION_NAMES &&
            value.name != "LAST_RECEIVED" && value.name != "FIRST"
            ==> r == Ok(NewOnly)
    ensures value.StartTuple? ==>
              r == Ok(if value.kind == "TIME_DELTA_START" then TimeDelta(value.position) else AtSequence(value.position))
    ensures value.StartName? && r.Err? ==>
              r.error == JavaException(IllegalArgumentException, NO_START_POSITION_CONSTANT + value.name)
    ensures value.StartOtherType? ==>
              r.Err? && r.error.kind == AssertionError &&
              StartsWith(r.error.message, INVALID_START_POSITION_TYPE) &&
              EndsWith(r.error.message, DecimalText(value.tag)) &&
              |r.error.message| == |INVALID_START_POSITION_TYPE| + |DecimalText(value.tag)|
  {
    match value
    case StartName(name) =>
      if name !in START_POSITION_NAMES then Err(JavaException(IllegalArgumentException, NO_START_POSITION_CONSTANT + name))
      else if name == "LAST_RECEIVED" then Ok(LastReceived)
      else if name == "FIRST" then Ok(AllAvailable)
      else Ok(NewOnly)
    case StartTuple(kind, position) =>
      if kind == "TIME_DELTA_START" then Ok(TimeDelta(position)) else Ok(AtSequence(position))
    case StartOtherType(tag) =>
      var m := INVALID_START_POSITION_TYPE + DecimalText(tag);
      assert m[..|INVALID_START_POSITION_TYPE|] == INVALID_START_POSITION_TYPE;
      assert m[|m| - |DecimalText(tag)|..] == DecimalText(tag);
      Err(JavaException(AssertionError, m))
  }

  /**
   * `buildSubscriptionOptions`: the durable name and the three limits keep
   * their defaults unless the annotation has the field (the in-flight limit
   * narrowed to a Java `int`), manual acknowledgement is the negation of
   * `autoAck`, and the start position comes from `StartChoiceFor`, whose
   * failure is the only one.
   */
  function BuildSubscriptionOptions(config: ServiceConfig): (r: Result<SubscriptionOptions, JavaException>)
    ensures r.Err? <==> StartChoiceFor(config.startPosition).Err?
    ensures r.Err? ==> r.error == StartChoiceFor(config.startPosition).error
    ensures r.Ok? ==> r.value.start == StartChoiceFor(config.startPosition).value
    ensures r.Ok? ==> r.value.durableName == config.durableName
    ensures r.Ok? ==> r.value.maxInFlight == (if config.maxInFlight.Some? then ToInt32(config.maxInFlight.value)
                                              else DEFAULT_MAX_IN_FLIGHT)
    ensures r.Ok? ==> -TWO_TO_THE_31 <= r.value.maxInFlight < TWO_TO_THE_31
    ensures r.Ok? ==> r.value.ackWaitSeconds == (if config.ackWait.Some? then config.ackWait.value else DEFAULT_ACK_WAIT)
    ensures r.Ok? ==> r.value.subscriptionTimeoutSeconds ==
                      (if config.subscriptionTimeout.Some? then config.subscriptionTimeout.value
                       else DEFAULT_SUBSCRIPTION_TIMEOUT)
    ensures r.Ok? ==> (r.value.manualAcks <==> !config.autoAck)
  {
    var maxInFlight := if config.maxInFlight.Some? then ToInt32(config.maxInFlight.value) else DEFAULT_MAX_IN_FLIGHT;
    match StartChoiceFor(config.startPosition)
    case Err(e) => Err(e)
    case Ok(start) =>
      Ok(SubscriptionOptions(config.durableName, maxInFlight, config.ackWait.GetOr(DEFAULT_ACK_WAIT),
                             config.subscriptionTimeout.GetOr(DEFAULT_SUBSCRIPTION_TIMEOUT), !config.autoAck, start))
  }

  /**
   * `assertNull`: a missing value is the module error with the given
   * message; a present one passes.
   */
  function AssertNull<T>(value: Option<T>, errorMessage: string): (r: Result<T, Failure>)
    ensures r.Err? <==> value.None?
    ensures r.Err? ==> r.error == NatsError(errorMessage)
    ensures r.Ok? ==> r.value == value.value
  {
    match value
    case None => Err(NatsError(errorMessage))
    case Some(v) => Ok(v)
  }

  /**
   * The subscribe call `createSubscription` makes for `service`: a handler
   * without a subject fails first; a service without the annotation is
   * subscribed with subject and handler only; otherwise the queue group and
   * the options come from the annotation.
   */
  function RequestFor(service: Service, handler: StreamingListener): (r: Result<SubscribeRequest, Failure>)
    ensures handler.subject.None? ==> r == Err(NatsError(SUBJECT_MANDATORY))
    ensures r.Err? <==> handler.subject.None? ||
                        (service.annotation.Some? && BuildSubscriptionOptions(service.annotation.value).Err?)
    ensures handler.subject.Some? && service.annotation.Some? && r.Err? ==>
              r.error == Escaped(BuildSubscriptionOptions(service.annotation.value).error)
    ensures r.Ok? ==> r.value.subject == handler.subject.value && r.value.handler == handler
    ensures r.Ok? ==> (r.value.PlainRequest? <==> service.annotation.None?)
    ensures r.Ok? && r.value.ConfiguredRequest? ==>
              r.value.queueGroup == service.annotation.value.queueGroup &&
              r.value.options == BuildSubscriptionOptions(service.annotation.value).value
  {
    match AssertNull(handler.subject, SUBJECT_MANDATORY)
    case Err(e) => Err(e)
    case Ok(subject) =>
      match service.annotation
      case None => Ok(PlainRequest(subject, handler))
      case Some(config) =>
        match BuildSubscriptionOptions(config)
        case Err(e) => Err(Escaped(e))
        case Ok(options) => Ok(ConfiguredRequest(subject, config.queueGroup, handler, options))
  }

  /**
   * A failed subscribe call: an I/O failure or interruption keeps the
   * exception's message, a timeout gets a fixed message; any other exception
   * propagates.
   */
  function SubscribeFailure(e: JavaException): (f: Failure)
    ensures f.NatsError? <==> e.kind in {IOException, InterruptedException, TimeoutException}
    ensures e.kind in {IOException, InterruptedException} ==> f == NatsError(e.message)
    ensures e.kind == TimeoutException ==> f == NatsError(SUBSCRIPTION_TIMEOUT_ERROR)
    ensures f.Escaped? ==> f.cause == e
  {
    if e.kind in {IOException, InterruptedException} then NatsError(e.message)
    else if e.kind == TimeoutException then NatsError(SUBSCRIPTION_TIMEOUT_ERROR)
    else Escaped(e)
  }

  /** What `createSubscription` gives for one pending entry. */
  function SubscriptionAttempt(service: Service, handler: StreamingListener,
                               subscribe: SubscribeRequest -> Result<Subscription, JavaException>)
    : (r: Result<Subscription, Failure>)
    ensures var request := RequestFor(service, handler);
            (r.Ok? <==> request.Ok? && subscribe(request.value).Ok?) &&
            (r.Ok? ==> r.value == subscribe(request.value).value) &&
            (request.Err? ==> r == Err(request.error)) &&
            (request.Ok? && r.Err? ==> r.error == SubscribeFailure(subscribe(request.value).error))
  {
    match RequestFor(service, handler)
    case Err(f) => Err(f)
    case Ok(request) =>
      match subscribe(request)
      case Err(e) => Err(SubscribeFailure(e))
      case Ok(subscription) => Ok(subscription)
  }

  /**
   * The metrics one attempt reports: a subscription on success, a consumer
   * error when the subscribe call failed with a caught exception, nothing
   * when the attempt failed before the call or with an escaping exception.
   */
  function AttemptMetrics(service: Service, handler: StreamingListener,
                          subscribe: SubscribeRequest -> Result<Subscription, JavaException>, connectedUrl: string)
    : (events: seq<Metric>)
    ensures |events| <= 1
    ensures SubscriptionAttempt(service, handler, subscribe).Ok? ==>
              events == [Subscribed(connectedUrl, handler.subject.value)]
    ensures RequestFor(service, handler).Err? ==> events == []
    ensures var attempt := SubscriptionAttempt(service, handler, subscribe);
            RequestFor(service, handler).Ok? && attempt.Err? ==>
              events == if attempt.error.NatsError? then [SubscriptionError(handler.subject.value)] else []
  {
    match RequestFor(service, handler)
    case Err(_) => []
    case Ok(request) =>
      match subscribe(request)
      case Ok(_) => [Subscribed(connectedUrl, request.subject)]
      case Err(e) =>
        if e.kind in {IOException, InterruptedException, TimeoutException} then [SubscriptionError(request.subject)]
        else []
  }

  /** `createSubscription`: makes the attempt and reports its metrics. */
  method CreateSubscription(service: Service, handler: StreamingListener, connection: StreamingConnection,
                            subscribe: SubscribeRequest -> Result<Subscription, JavaException>, log: MetricsLog)
    returns (r: Result<Subscription, Failure>)
    modifies log
    ensures r == SubscriptionAttempt(service, handler, subscribe)
    ensures log.events == old(log.events) + AttemptMetrics(service, handler, subscribe, connection.connectedUrl)
  {
    var request := RequestFor(service, handler);
    if request.Err? {
      return Err(request.error);
    }
    var subscription := subscribe(request.value);
    if subscription.Err? {
      var e := subscription.error;
      if e.kind in {IOException, InterruptedException, TimeoutException} {
        log.Report(SubscriptionError(request.value.subject));
      }
      return Err(SubscribeFailure(e));
    }
    log.Report(Subscribed(connection.connectedUrl, request.value.subject));
    r := Ok(subscription.value);
  }

  /**
   * The metrics of the services subscribed so far, in the order they were
   * drained: one subscription event per service.
   */
  function DrainMetrics(order: seq<Service>, pending: map<Service, StreamingListener>, connectedUrl: string)
    : (events: seq<Metric>)
    requires forall i :: 0 <= i < |order| ==> order[i] in pending
    ensures |events| == |order|
  {
    seq(|order|, i requires 0 <= i < |order| => Subscribed(connectedUrl, pending[order[i]].subject.GetOr("")))
  }

  /**
   * The registries part-way through draining `before` in the order `order`:
   * each service drained once, with a successful attempt; the pending
   * registry holds exactly the services not yet drained, with their original
   * handlers; the live registry holds the earlier live entries plus one
   * subscription per drained service.
   */
  ghost predicate Drained(before: map<Service, StreamingListener>, liveBefore: map<Service, Subscription>,
                    order: seq<Service>, pending: map<Service, StreamingListener>, live: map<Service, Subscription>,
                    subscribe: SubscribeRequest -> Result<Subscription, JavaException>)
  {
    (forall i, j :: 0 <= i < j < |order| ==> order[i] != order[j]) &&
    (forall i :: 0 <= i < |order| ==> order[i] in before) &&
    (forall i :: 0 <= i < |order| ==> SubscriptionAttempt(order[i], before[order[i]], subscribe).Ok?) &&
    (forall s :: s in pending <==> s in before && s !in order) &&
    (forall s :: s in pending ==> pending[s] == before[s]) &&
    (forall s :: s in live <==> s in liveBefore || s in order) &&
    (forall s :: s in order ==> live[s] == SubscriptionAttempt(s, before[s], subscribe).value) &&
    (forall s :: s in liveBefore && s !in order ==> live[s] == liveBefore[s])
  }

  /** Draining one more pending service, whose attempt succeeds, keeps `Drained` and extends the metrics. */
  lemma DrainStep(before: map<Service, StreamingListener>, liveBefore: map<Service, Subscription>,
                  order: seq<Service>, pending: map<Service, StreamingListener>, live: map<Service, Subscription>,
                  subscribe: SubscribeRequest -> Result<Subscription, JavaException>, s: Service,
                  subscription: Subscription, connectedUrl: string)
    requires Drained(before, liveBefore, order, pending, live, subscribe)
    requires s in pending && SubscriptionAttempt(s, pending[s], subscribe) == Ok(subscription)
    ensures Drained(before, liveBefore, order + [s], pending - {s}, live[s := subscription], subscribe)
    ensures DrainMetrics(order + [s], before, connectedUrl) ==
            DrainMetrics(order, before, connectedUrl) + AttemptMetrics(s, before[s], subscribe, connectedUrl)
  {
    var extended := order + [s];
    forall i | 0 <= i < |extended|
      ensures extended[i] in before
    {
      if i == |order| { assert extended[i] == s; }
      else { assert extended[i] == order[i]; }
    }
  }

  /**
   * One pass of `streamingSubscribe`'s loop: subscribes the pending entry for
   * `s`; on success puts the subscription in the live registry and removes
   * the pending entry, on failure changes neither.
   */
  method SubscribeNext(s: Service, pending: map<Service, StreamingListener>, live: map<Service, Subscription>,
                       connection: StreamingConnection,
                       subscribe: SubscribeRequest -> Result<Subscription, JavaException>, log: MetricsLog,
                       ghost before: map<Service, StreamingListener>, ghost liveBefore: map<Service, Subscription>,
                       ghost order: seq<Service>, ghost reported: seq<Metric>)
    returns (failure: Option<Failure>, pending': map<Service, StreamingListener>, live': map<Service, Subscription>)
    requires s in pending && Drained(before, liveBefore, order, pending, live, subscribe)
    requires log.events == reported + DrainMetrics(order, before, connection.connectedUrl)
    modifies log
    ensures failure.None? <==> SubscriptionAttempt(s, pending[s], subscribe).Ok?
    ensures failure.Some? ==> failure.value == SubscriptionAttempt(s, pending[s], subscribe).error &&
                              pending' == pending && live' == live &&
                              log.events == reported + DrainMetrics(order, before, connection.connectedUrl) +
                                            AttemptMetrics(s, before[s], subscribe, connection.connectedUrl)
    ensures failure.None? ==> pending' == pending - {s} && |pending'| < |pending| &&
                              Drained(before, liveBefore, order + [s], pending', live', subscribe) &&
                              log.events == reported + DrainMetrics(order + [s], before, connection.connectedUrl)
  {
    var subscription := CreateSubscription(s, pending[s], connection, subscribe, log);
    if subscription.Err? {
      return Some(subscription.error), pending, live;
    }
    DrainStep(before, liveBefore, order, pending, live, subscribe, s, subscription.value, connection.connectedUrl);
    assert log.events == reported + (DrainMetrics(order, before, connection.connectedUrl) +
                                     AttemptMetrics(s, before[s], subscribe, connection.connectedUrl));
    failure, pending', live' := None, pending - {s}, live[s := subscription.value];
  }

  /**
   * `streamingSubscribe`: drains the pending registry in some order (`order`,
   * each service once). Each drained service's subscription is put in the
   * live registry under the same key and its pending entry removed. A failed
   * attempt (for `failedAt`) stops the loop: the services drained so far stay
   * live, the rest, the failing one among them, stay pending with their
   * handlers.
   */
  method StreamingSubscribe(listener: NativeObject, subscribe: SubscribeRequest -> Result<Subscription, JavaException>,
                            log: MetricsLog)
    returns (failure: Option<Failure>, ghost order: seq<Service>, ghost failedAt: Option<Service>)
    requires listener.pending.Some? && listener.live.Some? && listener.connection.Some?
    modifies listener`pending, listener`live, log
    ensures listener.pending.Some? && listener.live.Some?
    ensures Drained(old(listener.pending.value), old(listener.live.value), order,
                    listener.pending.value, listener.live.value, subscribe)
    ensures failure.None? <==> failedAt.None?
    ensures failure.None? ==> listener.pending.value == map[]
    ensures failedAt.Some? ==>
              failedAt.value in listener.pending.value &&
              SubscriptionAttempt(failedAt.value, listener.pending.value[failedAt.value], subscribe) == Err(failure.value)
    ensures var url := listener.connection.value.connectedUrl;
            var before := old(listener.pending.value);
            log.events == old(log.events) + DrainMetrics(order, before, url) +
                          (if failedAt.Some? && failedAt.value in before
                           then AttemptMetrics(failedAt.value, before[failedAt.value], subscribe, url) else [])
  {
    var pending := listener.pending.value;
    var live := listener.live.value;
    var connection := listener.connection.value;
    order := [];
    failure := None;
    failedAt := None;
    while pending != map[]
      invariant failure.None? && failedAt.None?
      invariant Drained(old(listener.pending.value), old(listener.live.value), order, pending, live, subscribe)
      invariant log.events == old(log.events) +
                              DrainMetrics(order, old(listener.pending.value), connection.connectedUrl)
      decreases |pending|
    {
      var s :| s in pending;
      failure, pending, live := SubscribeNext(s, pending, live, connection, subscribe, log,
                                              old(listener.pending.value), old(listener.live.value), order,
                                              old(log.events));
      if failure.Some? {
        failedAt := Some(s);
        break;
      }
      order := order + [s];
    }
    listener.pending := Some(pending);
    listener.live := Some(live);
  }
}
