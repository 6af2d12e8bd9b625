/**
 * The newer connection factory: turns the URL, the ids and the configuration
 * record into NATS and streaming options, decides how the TLS context is
 * built from `secureSocket`, and opens the connection.
 *
 * Decoding PEM files and loading key stores are calls into the crypto
 * library and the file system; they are the `Crypto` parameter.
 */
module NativeFactory {
  import opened Common
  import opened RuntimeTypes
  import opened ConnectionConfig

  const PUBLIC_KEY_ERROR: string := "Failed to get the public key from Crypto API. "
  const PRIVATE_KEY_ERROR: string := "Failed to get the private key from Crypto API. "

  /** What the crypto library's decode call gives back: a key, or an error with a message. */
  datatype DecodeOutcome = Decoded | DecodeFailed(errorMessage: string)

  /**
   * The crypto, file-system and JDK calls the TLS set-up makes; the last is
   * `SSLContext.getInstance` followed by `init`, given by the exception either
   * throws for the assembled context.
   */
  datatype Crypto = Crypto(
    decodePublicKey: string -> DecodeOutcome,
    decodePrivateKey: (Option<string>, Option<string>) -> DecodeOutcome,
    loadStore: StoreRef -> Option<JavaException>,
    buildContext: SslPlan -> Option<JavaException>)

  /** The `cert` field: a certificate file, a trust store, or a value of neither kind. */
  datatype CertConfig = CertFile(path: string) | TrustStoreConfig(store: StoreRef) | CertOtherType

  /** The `key` field: certificate and key files (it has `certFile`), or a key store. */
  datatype KeyConfig =
    | KeyFiles(certFile: string, keyFile: Option<string>, keyPassword: Option<string>)
    | KeyStoreConfig(store: StoreRef)

  datatype SecureSocket = SecureSocket(cert: CertConfig, key: Option<KeyConfig>, protocol: Option<string>)

  datatype KeyMaterial =
    | KeyFromFiles(certFile: string, keyFile: Option<string>, keyPassword: Option<string>)
    | KeyFromStore(store: StoreRef)

  datatype TrustMaterial = TrustFromCertFile(certFile: string) | TrustFromStore(store: StoreRef)

  /** The TLS context: key managers (none for one-way TLS), trust managers and protocol. */
  datatype SslPlan = SslPlan(keyManagers: Option<KeyMaterial>, trustManagers: TrustMaterial, protocol: string)

  function CryptoError(prefix: string, detail: string): JavaException
  {
    JavaException(OtherException, prefix + detail)
  }

  /** Key managers: from a certificate/key file pair (public key first), or from a key store. */
  function KeyManagersFor(key: KeyConfig, crypto: Crypto): (r: Result<KeyMaterial, JavaException>)
    ensures key.KeyFiles? && crypto.decodePublicKey(key.certFile).DecodeFailed? ==>
              r == Err(CryptoError(PUBLIC_KEY_ERROR, crypto.decodePublicKey(key.certFile).errorMessage))
    ensures key.KeyFiles? && crypto.decodePublicKey(key.certFile).Decoded? &&
            crypto.decodePrivateKey(key.keyFile, key.keyPassword).DecodeFailed? ==>
              r == Err(CryptoError(PRIVATE_KEY_ERROR, crypto.decodePrivateKey(key.keyFile, key.keyPassword).errorMessage))
    ensures r.Ok? && key.KeyFiles? <==> r.Ok? && r.value.KeyFromFiles?
    ensures r.Ok? && key.KeyFiles? ==> r.value == KeyFromFiles(key.certFile, key.keyFile, key.keyPassword)
    ensures r.Ok? && key.KeyStoreConfig? ==> r.value == KeyFromStore(key.store)
    ensures key.KeyStoreConfig? ==> (r.Err? <==> crypto.loadStore(key.store).Some?)
  {
    match key
    case KeyFiles(certFile, keyFile, keyPassword) =>
      (match crypto.decodePublicKey(certFile)
       case DecodeFailed(m) => Err(CryptoError(PUBLIC_KEY_ERROR, m))
       case Decoded =>
         match crypto.decodePrivateKey(keyFile, keyPassword)
         case DecodeFailed(m) => Err(CryptoError(PRIVATE_KEY_ERROR, m))
         case Decoded => Ok(KeyFromFiles(certFile, keyFile, keyPassword)))
    case KeyStoreConfig(store) =>
      match crypto.loadStore(store)
      case Some(e) => Err(e)
      case None => Ok(KeyFromStore(store))
  }

  /** Trust managers: from a certificate file, or from a trust store. */
  function TrustManagersFor(cert: CertConfig, crypto: Crypto): (r: Result<TrustMaterial, JavaException>)
    requires !cert.CertOtherType?
    ensures cert.CertFile? ==> (r.Err? <==> crypto.decodePublicKey(cert.path).DecodeFailed?)
    ensures cert.CertFile? && r.Err? ==> r.error == CryptoError(PUBLIC_KEY_ERROR, crypto.decodePublicKey(cert.path).errorMessage)
    ensures cert.CertFile? && r.Ok? ==> r.value == TrustFromCertFile(cert.path)
    ensures cert.TrustStoreConfig? ==> (r.Err? <==> crypto.loadStore(cert.store).Some?)
    ensures cert.TrustStoreConfig? && r.Ok? ==> r.value == TrustFromStore(cert.store)
  {
    match cert
    case CertFile(path) =>
      (match crypto.decodePublicKey(path)
       case DecodeFailed(m) => Err(CryptoError(PUBLIC_KEY_ERROR, m))
       case Decoded => Ok(TrustFromCertFile(path)))
    case TrustStoreConfig(store) =>
      match crypto.loadStore(store)
      case Some(e) => Err(e)
      case None => Ok(TrustFromStore(store))
  }

  /** `buildSslContext`: the context for the managers, unless creating or initialising it throws. */
  function BuildSslContext(plan: SslPlan, crypto: Crypto): Result<Option<SslPlan>, JavaException>
  {
    match crypto.buildContext(plan)
    case Some(e) => Err(e)
    case None => Ok(Some(plan))
  }

  /**
   * The TLS context for `secureSocket`, or `None` when `cert` is neither a
   * file path nor a trust store. A configured `key` gives mutual TLS, its
   * absence one-way TLS; key managers are built before trust managers, and
   * the context is created and initialised last, so the first failure in
   * that order is the one reported.
   */
  function GetSslContext(secureSocket: SecureSocket, crypto: Crypto): (r: Result<Option<SslPlan>, JavaException>)
    ensures secureSocket.cert.CertOtherType? ==> r == Ok(None)
    ensures !secureSocket.cert.CertOtherType? && r.Ok? ==> r.value.Some?
    ensures r.Ok? && r.value.Some? ==>
              r.value.value.protocol == secureSocket.protocol.GetOr(DEFAULT_SSL_PROTOCOL) &&
              (r.value.value.keyManagers.Some? <==> secureSocket.key.Some?) &&
              (r.value.value.trustManagers.TrustFromCertFile? <==> secureSocket.cert.CertFile?)
    ensures r.Ok? && r.value.Some? ==> crypto.buildContext(r.value.value).None?
    ensures !secureSocket.cert.CertOtherType? && secureSocket.key.Some? &&
            KeyManagersFor(secureSocket.key.value, crypto).Err? ==>
              r == Err(KeyManagersFor(secureSocket.key.value, crypto).error)
    ensures !secureSocket.cert.CertOtherType? &&
            !(secureSocket.key.Some? && KeyManagersFor(secureSocket.key.value, crypto).Err?) &&
            TrustManagersFor(secureSocket.cert, crypto).Err? ==>
              r == Err(TrustManagersFor(secureSocket.cert, crypto).error)
    ensures !secureSocket.cert.CertOtherType? &&
            !(secureSocket.key.Some? && KeyManagersFor(secureSocket.key.value, crypto).Err?) &&
            TrustManagersFor(secureSocket.cert, crypto).Ok? ==>
              var plan := SslPlan(
                if secureSocket.key.Some? then Some(KeyManagersFor(secureSocket.key.value, crypto).value) else None,
                TrustManagersFor(secureSocket.cert, crypto).value,
                secureSocket.protocol.GetOr(DEFAULT_SSL_PROTOCOL));
              r == if crypto.buildContext(plan).Some? then Err(crypto.buildContext(plan).value) else Ok(Some(plan))
    ensures r.Err? <==>
              !secureSocket.cert.CertOtherType? &&
              ((secureSocket.key.Some? && KeyManagersFor(secureSocket.key.value, crypto).Err?) ||
               TrustManagersFor(secureSocket.cert, crypto).Err? ||
               crypto.buildContext(SslPlan(
                 if secureSocket.key.Some? then Some(KeyManagersFor(secureSocket.key.value, crypto).value) else None,
                 TrustManagersFor(secureSocket.cert, crypto).value,
                 secureSocket.protocol.GetOr(DEFAULT_SSL_PROTOCOL))).Some?)
  {
    var protocol := secureSocket.protocol.GetOr(DEFAULT_SSL_PROTOCOL);
    if secureSocket.cert.CertOtherType? then Ok(None)
    else if secureSocket.key.Some? then
      match KeyManagersFor(secureSocket.key.value, crypto)
      case Err(e) => Err(e)
      case Ok(keys) =>
        match TrustManagersFor(secureSocket.cert, crypto)
        case Err(e) => Err(e)
        case Ok(trust) => BuildSslContext(SslPlan(Some(keys), trust, protocol), crypto)
    else
      match TrustManagersFor(secureSocket.cert, crypto)
      case Err(e) => Err(e)
      case Ok(trust) => BuildSslContext(SslPlan(None, trust, protocol), crypto)
  }

  /**
   * The options the factory hands to the NATS and streaming clients. The ids
   * are always set; credentials, TLS and tuning only when a configuration
   * record is given; the only failure is one from the TLS set-up.
   */
  function OptionsFor(url: UrlValue, clusterId: string, clientId: string,
                      config: Option<StreamingConfig<SecureSocket>>, crypto: Crypto)
    : (r: Result<ConnectionOptions<SslPlan>, JavaException>)
    ensures r.Err? <==> config.Some? && config.value.secureSocket.Some? &&
                        GetSslContext(config.value.secureSocket.value, crypto).Err?
    ensures r.Ok? ==> r.value.streaming.clientId == clientId && r.value.streaming.clusterId == clusterId
    ensures r.Ok? ==> r.value.nats.servers == ServersFor(url)
    ensures r.Ok? ==> r.value.nats.auth == (if config.Some? then AuthFor(config.value.auth) else NoAuth)
    ensures r.Ok? ==> (r.value.nats.ssl.SslSet? <==> config.Some? && config.value.secureSocket.Some?)
    ensures r.Ok? && r.value.nats.ssl.SslSet? ==>
              r.value.nats.ssl.context == GetSslContext(config.value.secureSocket.value, crypto).value
    ensures r.Ok? ==> (r.value.streaming.tuning.Some? <==> config.Some?)
    ensures r.Ok? && config.Some? ==> r.value.streaming.tuning == Some(TuningFor(config.value))
  {
    var servers := ServersFor(url);
    match config
    case None =>
      Ok(ConnectionOptions(NatsOptions(servers, NoAuth, SslUnset), StreamingOptions(clientId, clusterId, None)))
    case Some(c) =>
      var auth := AuthFor(c.auth);
      var streaming := StreamingOptions(clientId, clusterId, Some(TuningFor(c)));
      if c.secureSocket.None? then
        Ok(ConnectionOptions(NatsOptions(servers, auth, SslUnset), streaming))
      else
        match GetSslContext(c.secureSocket.value, crypto)
        case Err(e) => Err(e)
        case Ok(context) => Ok(ConnectionOptions(NatsOptions(servers, auth, SslSet(context)), streaming))
  }

  /**
   * Builds the NATS options and the streaming options step by step, as the
   * factory fills in its two builders, then opens the connection through
   * `connect`, which gives the URL of the server it reached.
   */
  method CreateConnection(url: UrlValue, clusterId: string, clientId: string,
                          config: Option<StreamingConfig<SecureSocket>>, crypto: Crypto,
                          connect: ConnectionOptions<SslPlan> -> Result<string, JavaException>)
    returns (r: Result<StreamingConnection, JavaException>)
    ensures var options := OptionsFor(url, clusterId, clientId, config, crypto);
            (r.Ok? <==> options.Ok? && connect(options.value).Ok?) &&
            (r.Ok? ==> fresh(r.value) && !r.value.closed &&
                       r.value.clientId == clientId && r.value.clusterId == clusterId &&
                       r.value.connectedUrl == connect(options.value).value) &&
            (r.Err? ==> r.error == if options.Err? then options.error else connect(options.value).error)
  {
    var servers := ServersFor(url);
    var auth := NoAuth;
    var ssl: SslSetting<SslPlan> := SslUnset;
    var tuning: Option<Tuning> := None;
    if config.Some? {
      var c := config.value;
      auth := AuthFor(c.auth);
      if c.secureSocket.Some? {
        var context := GetSslContext(c.secureSocket.value, crypto);
        if context.Err? {
          return Err(context.error);
        }
        ssl := SslSet(context.value);
      }
      tuning := Some(TuningFor(c));
    }
    var options := ConnectionOptions(NatsOptions(servers, auth, ssl), StreamingOptions(clientId, clusterId, tuning));
    assert options == OptionsFor(url, clusterId, clientId, config, crypto).value;
    var connected := connect(options);
    if connected.Err? {
      return Err(connected.error);
    }
    var connection := new StreamingConnection(clientId, clusterId, connected.value);
    r := Ok(connection);
  }
}
