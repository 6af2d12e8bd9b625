/**
 * The older `NatsStreamingConnection`: opens a streaming connection for a
 * listener or producer object and stores it there, and closes it again.
 */
module LegacyConnection {
  import opened Common
  import opened RuntimeTypes
  import opened ConnectionConfig
  import LegacyFactory
  import NativeConnection

  const CLOSE_INTERRUPTED_ERROR: string := "Internal error while closing producer"

  /** The outcome of opening a connection: the server URL reached, or the exception raised. */
  function ConnectAttempt(url: string, clusterId: string, clientIdNillable: Option<string>,
                          config: Option<StreamingConfig<LegacyFactory.LegacySecureSocket>>, freshUuid: string,
                          tls: LegacyFactory.LegacyTls,
                          connect: ConnectionOptions<LegacyFactory.LegacySslPlan> -> Result<string, JavaException>)
    : Result<string, JavaException>
  {
    var clientId := NativeConnection.ClientIdFor(clientIdNillable, freshUuid);
    var options := LegacyFactory.OptionsFor(UrlString(url), clusterId, clientId, config, tls);
    if options.Err? then Err(options.error) else connect(options.value)
  }

  /**
   * Opens the connection and, only once it is open, stores it on `client`;
   * a failure changes nothing and propagates. No metric is reported here.
   */
  method CreateConnection(client: NativeObject, url: string, clusterId: string, clientIdNillable: Option<string>,
                          config: Option<StreamingConfig<LegacyFactory.LegacySecureSocket>>, freshUuid: string,
                          tls: LegacyFactory.LegacyTls,
                          connect: ConnectionOptions<LegacyFactory.LegacySslPlan> -> Result<string, JavaException>)
    returns (r: Result<StreamingConnection, JavaException>)
    modifies client`connection
    ensures var attempt := ConnectAttempt(url, clusterId, clientIdNillable, config, freshUuid, tls, connect);
            (r.Ok? <==> attempt.Ok?) &&
            (r.Err? ==> r.error == attempt.error && client.connection == old(client.connection)) &&
            (r.Ok? ==> fresh(r.value) && !r.value.closed && r.value.connectedUrl == attempt.value &&
                       r.value.clientId == NativeConnection.ClientIdFor(clientIdNillable, freshUuid) &&
                       r.value.clusterId == clusterId &&
                       client.connection == Some(r.value))
  {
    var clientId := NativeConnection.ClientIdFor(clientIdNillable, freshUuid);
    r := LegacyFactory.CreateConnection(UrlString(url), clusterId, clientId, config, tls, connect);
    if r.Ok? {
      client.connection := Some(r.value);
    }
  }

  /**
   * Closes the connection stored on `client`. An I/O or timeout failure
   * becomes the module error with the exception's message, an interruption
   * a fixed message; any other exception propagates.
   */
  method CloseConnection(client: NativeObject, closeOutcome: Option<JavaException>, log: MetricsLog)
    returns (failure: Option<Failure>)
    requires client.connection.Some?
    modifies client.connection.value, log
    ensures var connection := client.connection.value;
            match closeOutcome
            case None =>
              failure.None? && connection.closed && log.events == old(log.events)
            case Some(e) =>
              connection.closed == old(connection.closed) &&
              if e.kind in {IOException, TimeoutException} then
                failure == Some(NatsError(e.message)) &&
                log.events == old(log.events) + [CloseError(connection.connectedUrl)]
              else if e.kind == InterruptedException then
                failure == Some(NatsError(CLOSE_INTERRUPTED_ERROR)) &&
                log.events == old(log.events) + [CloseError(connection.connectedUrl)]
              else
                failure == Some(Escaped(e)) && log.events == old(log.events)
  {
    var connection := client.connection.value;
    match closeOutcome {
      case None =>
        connection.closed := true;
        failure := None;
      case Some(e) =>
        if e.kind in {IOException, TimeoutException} {
          log.Report(CloseError(connection.connectedUrl));
          failure := Some(NatsError(e.message));
        } else if e.kind == InterruptedException {
          log.Report(CloseError(connection.connectedUrl));
          failure := Some(NatsError(CLOSE_INTERRUPTED_ERROR));
        } else {
          failure := Some(Escaped(e));
        }
    }
  }
}
