/**
 * The Ballerina runtime entities the connector works on: services and their
 * remote methods, the `ServiceConfig` annotation, the broker's messages, the
 * streaming connection, and the listener or client object whose native-data
 * slots the connector fills in.
 */
module RuntimeTypes {
  import opened Common

  /** The type tag of a remote method parameter, as far as dispatch looks at it. */
  datatype TypeTag = IntersectionTag | OtherTag

  /** A remote method of a service type: its name, parameter types and isolation. */
  datatype MethodType = MethodType(name: string, parameterTypes: seq<TypeTag>, isolated: bool)

  /**
   * The `startPosition` field of `ServiceConfig`: a string (one of the start
   * position names), a tuple `[kind, n]`, or a value of some other type tag.
   */
  datatype StartPositionValue =
    | StartName(name: string)
    | StartTuple(kind: string, position: int)
    | StartOtherType(tag: nat)

  /**
   * The `@stan:ServiceConfig` annotation. Optional record fields are `Option`s;
   * `subject`, `autoAck` and `startPosition` always carry a value. The two
   * timeouts are whole seconds, already converted from their decimal values.
   */
  datatype ServiceConfig = ServiceConfig(
    subject: string,
    queueGroup: Option<string>,
    durableName: Option<string>,
    maxInFlight: Option<int>,
    ackWait: Option<int>,
    subscriptionTimeout: Option<int>,
    autoAck: bool,
    startPosition: StartPositionValue)

  /**
   * A service object attached to a listener. `id` stands for object identity,
   * so two services with the same shape stay distinct map keys.
   */
  datatype Service = Service(
    id: nat,
    methods: seq<MethodType>,
    annotation: Option<ServiceConfig>,
    isolated: bool)

  /** The first method called `name`, as a type's method lookup finds it. */
  function FirstNamed(methods: seq<MethodType>, name: string): (r: Option<MethodType>)
    ensures r.None? <==> forall i :: 0 <= i < |methods| ==> methods[i].name != name
    ensures r.Some? ==> exists i :: 0 <= i < |methods| && methods[i] == r.value && r.value.name == name &&
                                    forall j :: 0 <= j < i ==> methods[j].name != name
  {
    if |methods| == 0 then None
    else if methods[0].name == name then Some(methods[0])
    else
      var rest := FirstNamed(methods[1..], name);
      assert forall i :: 1 <= i < |methods| ==> methods[i] == methods[1..][i - 1];
      rest
  }

  /** The `url` configuration value: a single server or an array of servers. */
  datatype UrlValue = UrlString(url: string) | UrlArray(urls: seq<string>)

  /**
   * The per-service message handler (`StreamingListener`). All its fields are
   * set once when it is built, so it is a value.
   */
  datatype StreamingListener = StreamingListener(
    service: Service,
    manualAck: bool,
    connectedUrl: Option<UrlValue>,
    subject: Option<string>)

  /** A subscription handle returned by the streaming client. */
  datatype Subscription = Subscription(subject: string, token: nat)

  /** A message delivered by the broker; acknowledging it is a call on the broker. */
  class BrokerMessage {
    const data: seq<byte>
    const subject: string
    var ackCalls: nat

    constructor (data: seq<byte>, subject: string)
      ensures this.data == data && this.subject == subject && ackCalls == 0
    {
      this.data := data;
      this.subject := subject;
      ackCalls := 0;
    }
  }

  /** The `Caller` object given to a two-parameter `onMessage`. */
  datatype Caller = Caller(message: BrokerMessage, manualAck: bool)

  /** The `Message` record handed to `onMessage`, possibly as a read-only value. */
  datatype MessageRecord = MessageRecord(content: seq<byte>, subject: string, readonly: bool)

  /** An argument of a remote method invocation; each is followed by `BoolArg(true)`. */
  datatype Arg = MessageArg(message: MessageRecord) | BoolArg(flag: bool) | CallerArg(caller: Caller) | ErrorArg(error: Failure)

  /** An open streaming connection and the NATS connection underneath it. */
  class StreamingConnection {
    const clientId: string
    const clusterId: string
    const connectedUrl: string
    var closed: bool

    constructor (clientId: string, clusterId: string, connectedUrl: string)
      ensures this.clientId == clientId && this.clusterId == clusterId
      ensures this.connectedUrl == connectedUrl && !closed
    {
      this.clientId := clientId;
      this.clusterId := clusterId;
      this.connectedUrl := connectedUrl;
      closed := false;
    }
  }

  /** The per-connection metrics reporter kept in native data. */
  datatype MetricsReporter = MetricsReporter(connection: StreamingConnection)

  /**
   * A listener or producer client object with the native-data slots the
   * connector uses. A slot that was never filled in is `None`.
   *  - `pending`: services attached but not yet subscribed (the dispatcher list);
   *  - `live`: services with an active subscription (the subscriptions list).
   */
  class NativeObject {
    var url: Option<UrlValue>
    var connection: Option<StreamingConnection>
    var reporter: Option<MetricsReporter>
    var pending: Option<map<Service, StreamingListener>>
    var live: Option<map<Service, Subscription>>

    constructor ()
      ensures url.None? && connection.None? && reporter.None? && pending.None? && live.None?
    {
      url := None;
      connection := None;
      reporter := None;
      pending := None;
      live := None;
    }
  }

  datatype ProducerErrorType = AcknowledgementError | PublishError

  /** The observability events the connector reports. */
  datatype Metric =
    | NewConnection(UrlValue)
    | ConnectionError
    | ConnectionClose(string)
    | CloseError(string)
    | Consume(string, string, nat)
    | Delivery(string, string)
    | Subscribed(string, string)
    | SubscriptionError(string)
    | StreamingUnsubscription(string, string)
    | NewProducer
    | Publish(string, nat)
    | Acknowledgement(string)
    | ProducerError(string, ProducerErrorType)

  /** The metrics registry, as a log of the events reported to it. */
  class MetricsLog {
    ghost var events: seq<Metric>

    constructor ()
      ensures events == []
    {
      events := [];
    }

    method Report(m: Metric)
      modifies this
      ensures events == old(events) + [m]
    {
      events := events + [m];
    }
  }
}
