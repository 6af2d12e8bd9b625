/**
 * The older listener initialisation: opens the streaming connection, sorts
 * its failures into three messages, and fills in the listener's native data.
 */
module LegacyConsumerInit {
  import opened Common
  import opened RuntimeTypes
  import opened ConnectionConfig
  import LegacyFactory
  import LegacyConnection

  const CONNECTION_ERROR: string := "internal error while creating streaming connection"
  const ERROR_SETTING_UP_SECURED_CONNECTION: string := "error while setting up secured connection. "

  const SECURITY_EXCEPTIONS: set<ExceptionKind> :=
    {CertificateException, NoSuchAlgorithmException, UnrecoverableKeyException, KeyStoreException, KeyManagementException}

  /**
   * How a failed connection attempt is reported: an I/O failure and a TLS
   * set-up failure keep the exception's message after their own prefix, an
   * interruption gets a fixed message; any other exception propagates as it is.
   */
  function ClassifyConnectionFailure(e: JavaException): (f: Failure)
    ensures f.NatsError? <==> e.kind == IOException || e.kind == InterruptedException || e.kind in SECURITY_EXCEPTIONS
    ensures f.Escaped? ==> f.cause == e
    ensures e.kind == IOException ==>
              StartsWith(f.message, CONNECTION_ERROR + " ") && EndsWith(f.message, e.message) &&
              |f.message| == |CONNECTION_ERROR| + 1 + |e.message|
    ensures e.kind == InterruptedException ==> f.message == CONNECTION_ERROR
    ensures e.kind in SECURITY_EXCEPTIONS ==>
              StartsWith(f.message, ERROR_SETTING_UP_SECURED_CONNECTION) && EndsWith(f.message, e.message) &&
              |f.message| == |ERROR_SETTING_UP_SECURED_CONNECTION| + |e.message|
  {
    if e.kind == IOException then
      var m := CONNECTION_ERROR + " " + e.message;
      assert m[..|CONNECTION_ERROR + " "|] == CONNECTION_ERROR + " ";
      assert m[|m| - |e.message|..] == e.message;
      NatsError(m)
    else if e.kind == InterruptedException then NatsError(CONNECTION_ERROR)
    else if e.kind in SECURITY_EXCEPTIONS then
      var m := ERROR_SETTING_UP_SECURED_CONNECTION + e.message;
      assert m[..|ERROR_SETTING_UP_SECURED_CONNECTION|] == ERROR_SETTING_UP_SECURED_CONNECTION;
      assert m[|m| - |e.message|..] == e.message;
      NatsError(m)
    else Escaped(e)
  }

  /** A classified failure is reported as a connection error; an escaping one is not. */
  function FailureMetrics(f: Failure): seq<Metric>
  {
    if f.NatsError? then [ConnectionError] else []
  }

  /**
   * Opens the connection with the URL, ids and settings from `config`. On
   * failure the listener keeps its native data; on success it holds the
   * connection, a metrics reporter and two fresh, empty registries (the URL
   * slot is not filled in).
   */
  method StreamingListenerInit(listener: NativeObject,
                               config: StreamingConfig<LegacyFactory.LegacySecureSocket>, freshUuid: string,
                               tls: LegacyFactory.LegacyTls,
                               connect: ConnectionOptions<LegacyFactory.LegacySslPlan> -> Result<string, JavaException>,
                               log: MetricsLog)
    returns (failure: Option<Failure>)
    modifies listener, log
    ensures var attempt := LegacyConnection.ConnectAttempt(config.url, config.clusterId, config.clientId, Some(config),
                                                           freshUuid, tls, connect);
            (failure.None? <==> attempt.Ok?) &&
            (attempt.Err? ==>
               failure == Some(ClassifyConnectionFailure(attempt.error)) &&
               listener.url == old(listener.url) && listener.connection == old(listener.connection) &&
               listener.reporter == old(listener.reporter) &&
               listener.pending == old(listener.pending) && listener.live == old(listener.live) &&
               log.events == old(log.events) + FailureMetrics(failure.value)) &&
            (attempt.Ok? ==>
               listener.url == old(listener.url) &&
               listener.connection.Some? && fresh(listener.connection.value) &&
               listener.connection.value.connectedUrl == attempt.value &&
               listener.reporter == Some(MetricsReporter(listener.connection.value)) &&
               listener.pending == Some(map[]) && listener.live == Some(map[]) &&
               log.events == old(log.events))
  {
    var connection := LegacyConnection.CreateConnection(listener, config.url, config.clusterId, config.clientId,
                                                        Some(config), freshUuid, tls, connect);
    if connection.Err? {
      var f := ClassifyConnectionFailure(connection.error);
      if f.NatsError? {
        log.Report(ConnectionError);
      }
      return Some(f);
    }
    listener.connection := Some(connection.value);
    listener.reporter := Some(MetricsReporter(connection.value));
    listener.pending := Some(map[]);
    listener.live := Some(map[]);
    failure := None;
  }
}
