/**
 * The streaming connection configuration record and the client options a
 * connection factory derives from it. Both connection factories read the
 * server URL, the client and cluster ids, the credentials and the tuning
 * values the same way; only their secure-socket handling differs, so the
 * secure-socket record and the TLS plan are type parameters here.
 */
module ConnectionConfig {
  import opened Common
  import opened RuntimeTypes

  /** `DEFAULT_SSL_PROTOCOL` of the NATS Java client, used when no protocol is configured. */
  const DEFAULT_SSL_PROTOCOL: string := "TLSv1.2"

  /** The `auth` field: a record with optional credentials, or a value of another type. */
  datatype AuthConfig =
    | AuthRecord(username: Option<string>, password: Option<string>, token: Option<string>)
    | AuthOtherType

  /** A key store or trust store file and its password. */
  datatype StoreRef = StoreRef(path: string, password: string)

  /**
   * The streaming configuration record. `url` is read by the older listener
   * initialisation only; the newer one and the producer take the URL apart.
   */
  datatype StreamingConfig<SecureSocket> = StreamingConfig(
    url: string,
    clusterId: string,
    clientId: Option<string>,
    auth: Option<AuthConfig>,
    secureSocket: Option<SecureSocket>,
    discoverPrefix: string,
    connectionTimeout: int,
    ackTimeout: int,
    pingInterval: int,
    maxPubAcksInFlight: int)

  datatype ServerSpec = SingleServer(url: string) | ServerList(urls: seq<string>)

  datatype AuthChoice = NoAuth | UserInfo(username: string, password: string) | TokenAuth(token: string)

  /** Whether `sslContext` was called on the NATS options, and with what (possibly null). */
  datatype SslSetting<Context> = SslUnset | SslSet(context: Option<Context>)

  /** The options of the underlying NATS connection. */
  datatype NatsOptions<Context> = NatsOptions(servers: ServerSpec, auth: AuthChoice, ssl: SslSetting<Context>)

  /** Streaming options beyond the ids; only set when a configuration record is given. */
  datatype Tuning = Tuning(
    discoverPrefix: string,
    connectWaitSeconds: int,
    pubAckWaitSeconds: int,
    pingIntervalSeconds: int,
    maxPubAcksInFlight: int)

  /** The options of the streaming connection itself. */
  datatype StreamingOptions = StreamingOptions(clientId: string, clusterId: string, tuning: Option<Tuning>)

  datatype ConnectionOptions<Context> = ConnectionOptions(nats: NatsOptions<Context>, streaming: StreamingOptions)

  /** A single URL becomes one server, an array of URLs becomes the server list in order. */
  function ServersFor(url: UrlValue): (servers: ServerSpec)
    ensures url.UrlString? <==> servers.SingleServer?
    ensures url.UrlString? ==> servers.url == url.url
    ensures url.UrlArray? ==> servers.urls == url.urls
  {
    match url
    case UrlString(s) => SingleServer(s)
    case UrlArray(urls) => ServerList(urls)
  }

  /**
   * Credentials: username-and-password wins over a token; a token is used only
   * when the pair is incomplete; an `auth` value that is not a record, or a
   * record with neither, sets nothing.
   */
  function AuthFor(auth: Option<AuthConfig>): (choice: AuthChoice)
    ensures choice.UserInfo? <==>
              auth.Some? && auth.value.AuthRecord? && auth.value.username.Some? && auth.value.password.Some?
    ensures choice.TokenAuth? <==>
              auth.Some? && auth.value.AuthRecord? && auth.value.token.Some? &&
              !(auth.value.username.Some? && auth.value.password.Some?)
    ensures choice.UserInfo? ==> choice.username == auth.value.username.value && choice.password == auth.value.password.value
    ensures choice.TokenAuth? ==> choice.token == auth.value.token.value
  {
    match auth
    case None => NoAuth
    case Some(AuthOtherType) => NoAuth
    case Some(AuthRecord(username, password, token)) =>
      if username.Some? && password.Some? then UserInfo(username.value, password.value)
      else if token.Some? then TokenAuth(token.value)
      else NoAuth
  }

  /**
   * The tuning values, taken over unchanged except the in-flight limit, which
   * the Java code narrows to an `int`.
   */
  function TuningFor<S>(config: StreamingConfig<S>): (tuning: Tuning)
    ensures tuning.discoverPrefix == config.discoverPrefix
    ensures tuning.connectWaitSeconds == config.connectionTimeout
    ensures tuning.pubAckWaitSeconds == config.ackTimeout
    ensures tuning.pingIntervalSeconds == config.pingInterval
    ensures -TWO_TO_THE_31 <= tuning.maxPubAcksInFlight < TWO_TO_THE_31
    ensures -TWO_TO_THE_31 <= config.maxPubAcksInFlight < TWO_TO_THE_31 ==>
              tuning.maxPubAcksInFlight == config.maxPubAcksInFlight
  {
    Tuning(config.discoverPrefix, config.connectionTimeout, config.ackTimeout, config.pingInterval,
           ToInt32(config.maxPubAcksInFlight))
  }
}
