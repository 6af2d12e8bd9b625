/**
 * The older connection factory. It builds the NATS and streaming options the
 * same way as the newer one; its TLS set-up only knows key and trust stores:
 * the trust store is required, the key store optional.
 *
 * Loading a store file, looking up the TLS protocol and initialising the
 * context are calls into the file system and the JDK; their outcomes are the
 * `tls` parameter.
 */
module LegacyFactory {
  import opened Common
  import opened RuntimeTypes
  import opened ConnectionConfig

  /** The older `secureSocket` record: optional key store, trust store, optional protocol name. */
  datatype LegacySecureSocket = LegacySecureSocket(
    keyStore: Option<StoreRef>,
    trustStore: Option<StoreRef>,
    protocol: Option<string>)

  /** The TLS context: key managers only when a key store path is given. */
  datatype LegacySslPlan = LegacySslPlan(keyStore: Option<StoreRef>, trustStore: StoreRef, protocol: string)

  /**
   * The JDK calls of the TLS set-up, each given by the exception it throws:
   * `SSLContext.getInstance` for a protocol name, the loading of a store file,
   * and `init` of the context with its key and trust managers.
   */
  datatype LegacyTls = LegacyTls(
    getInstance: string -> Option<JavaException>,
    loadStore: StoreRef -> Option<JavaException>,
    initContext: LegacySslPlan -> Option<JavaException>)

  /**
   * `createSSLContext`: looks the protocol up first, then builds key managers
   * from the key store when there is one and trust managers from the trust
   * store always, and initialises the context with them; the first call that
   * throws decides the failure.
   */
  function CreateSslContext(trustStore: StoreRef, keyStore: Option<StoreRef>, protocol: Option<string>,
                            tls: LegacyTls)
    : (r: Result<LegacySslPlan, JavaException>)
    ensures var name := protocol.GetOr(DEFAULT_SSL_PROTOCOL);
            tls.getInstance(name).Some? ==> r == Err(tls.getInstance(name).value)
    ensures var name := protocol.GetOr(DEFAULT_SSL_PROTOCOL);
            tls.getInstance(name).None? && keyStore.Some? && tls.loadStore(keyStore.value).Some? ==>
              r == Err(tls.loadStore(keyStore.value).value)
    ensures var name := protocol.GetOr(DEFAULT_SSL_PROTOCOL);
            tls.getInstance(name).None? && !(keyStore.Some? && tls.loadStore(keyStore.value).Some?) &&
            tls.loadStore(trustStore).Some? ==>
              r == Err(tls.loadStore(trustStore).value)
    ensures var plan := LegacySslPlan(keyStore, trustStore, protocol.GetOr(DEFAULT_SSL_PROTOCOL));
            r.Err? <==> tls.getInstance(plan.protocol).Some? ||
                        (keyStore.Some? && tls.loadStore(keyStore.value).Some?) ||
                        tls.loadStore(trustStore).Some? || tls.initContext(plan).Some?
    ensures r.Ok? ==> r.value.keyStore == keyStore && r.value.trustStore == trustStore
    ensures r.Ok? ==> r.value.protocol == protocol.GetOr(DEFAULT_SSL_PROTOCOL)
  {
    var plan := LegacySslPlan(keyStore, trustStore, protocol.GetOr(DEFAULT_SSL_PROTOCOL));
    if tls.getInstance(plan.protocol).Some? then Err(tls.getInstance(plan.protocol).value)
    else if keyStore.Some? && tls.loadStore(keyStore.value).Some? then Err(tls.loadStore(keyStore.value).value)
    else if tls.loadStore(trustStore).Some? then Err(tls.loadStore(trustStore).value)
    else if tls.initContext(plan).Some? then Err(tls.initContext(plan).value)
    else Ok(plan)
  }

  /**
   * `getSSLContext`: the trust store is read without a presence check, so a
   * missing one ends in a null dereference before any store is loaded.
   */
  function GetSslContext(secureSocket: LegacySecureSocket, tls: LegacyTls)
    : (r: Result<LegacySslPlan, JavaException>)
    ensures secureSocket.trustStore.None? ==> r == Err(JavaException(NullPointerException, ""))
    ensures r.Ok? ==> secureSocket.trustStore.Some? && r.value.trustStore == secureSocket.trustStore.value
    ensures r.Ok? ==> (r.value.keyStore.Some? <==> secureSocket.keyStore.Some?)
    ensures secureSocket.trustStore.Some? ==>
              r == CreateSslContext(secureSocket.trustStore.value, secureSocket.keyStore, secureSocket.protocol, tls)
  {
    match secureSocket.trustStore
    case None => Err(JavaException(NullPointerException, ""))
    case Some(trustStore) => CreateSslContext(trustStore, secureSocket.keyStore, secureSocket.protocol, tls)
  }

  /** The options handed to the NATS and streaming clients (see the newer factory). */
  function OptionsFor(url: UrlValue, clusterId: string, clientId: string,
                      config: Option<StreamingConfig<LegacySecureSocket>>,
                      tls: LegacyTls)
    : (r: Result<ConnectionOptions<LegacySslPlan>, JavaException>)
    ensures r.Err? <==> config.Some? && config.value.secureSocket.Some? &&
                        GetSslContext(config.value.secureSocket.value, tls).Err?
    ensures r.Ok? ==> r.value.streaming.clientId == clientId && r.value.streaming.clusterId == clusterId
    ensures r.Ok? ==> r.value.nats.servers == ServersFor(url)
    ensures r.Ok? ==> r.value.nats.auth == (if config.Some? then AuthFor(config.value.auth) else NoAuth)
    ensures r.Ok? ==> (r.value.nats.ssl.SslSet? <==> config.Some? && config.value.secureSocket.Some?)
    ensures r.Ok? && r.value.nats.ssl.SslSet? ==>
              r.value.nats.ssl.context == Some(GetSslContext(config.value.secureSocket.value, tls).value)
    ensures r.Ok? ==> (r.value.streaming.tuning.Some? <==> config.Some?)
    ensures r.Ok? && config.Some? ==> r.value.streaming.tuning == Some(TuningFor(config.value))
  {
    var servers := ServersFor(url);
    match config
    case None =>
      Ok(ConnectionOptions(NatsOptions(servers, NoAuth, SslUnset), StreamingOptions(clientId, clusterId, None)))
    case Some(c) =>
      var auth := AuthFor(c.auth);
      var streaming := StreamingOptions(clientId, clusterId, Some(TuningFor(c)));
      if c.secureSocket.None? then
        Ok(ConnectionOptions(NatsOptions(servers, auth, SslUnset), streaming))
      else
        match GetSslContext(c.secureSocket.value, tls)
        case Err(e) => Err(e)
        case Ok(context) => Ok(ConnectionOptions(NatsOptions(servers, auth, SslSet(Some(context))), streaming))
  }

  /**
   * Fills in the two option builders step by step and opens the connection
   * through `connect`, which gives the URL of the server it reached.
   */
  method CreateConnection(url: UrlValue, clusterId: string, clientId: string,
                          config: Option<StreamingConfig<LegacySecureSocket>>,
                          tls: LegacyTls,
                          connect: ConnectionOptions<LegacySslPlan> -> Result<string, JavaException>)
    returns (r: Result<StreamingConnection, JavaException>)
    ensures var options := OptionsFor(url, clusterId, clientId, config, tls);
            (r.Ok? <==> options.Ok? && connect(options.value).Ok?) &&
            (r.Ok? ==> fresh(r.value) && !r.value.closed &&
                       r.value.clientId == clientId && r.value.clusterId == clusterId &&
                       r.value.connectedUrl == connect(options.value).value) &&
            (r.Err? ==> r.error == if options.Err? then options.error else connect(options.value).error)
  {
    var servers := ServersFor(url);
    var auth := NoAuth;
    var ssl: SslSetting<LegacySslPlan> := SslUnset;
    var tuning: Option<Tuning> := None;
    if config.Some? {
      var c := config.value;
      auth := AuthFor(c.auth);
      if c.secureSocket.Some? {
        var context := GetSslContext(c.secureSocket.value, tls);
        if context.Err? {
          return Err(context.error);
        }
        ssl := SslSet(Some(context.value));
      }
      tuning := Some(TuningFor(c));
    }
    var options := ConnectionOptions(NatsOptions(servers, auth, ssl), StreamingOptions(clientId, clusterId, tuning));
    assert options == OptionsFor(url, clusterId, clientId, config, tls).value;
    var connected := connect(options);
    if connected.Err? {
      return Err(connected.error);
    }
    var connection := new StreamingConnection(clientId, clusterId, connected.value);
    r := Ok(connection);
  }
}
