/**
 * The newer `NatsStreamingConnection`: opens a streaming connection for a
 * listener or client object and stores it there, and closes it again.
 */
module NativeConnection {
  import opened Common
  import opened RuntimeTypes
  import opened ConnectionConfig
  import NativeFactory

  /** A nil client id is replaced by a freshly generated UUID. */
  function ClientIdFor(clientIdNillable: Option<string>, freshUuid: string): (clientId: string)
    ensures clientIdNillable.Some? ==> clientId == clientIdNillable.value
    ensures clientIdNillable.None? ==> clientId == freshUuid
  {
    clientIdNillable.GetOr(freshUuid)
  }

  /** The outcome of opening a connection: the server URL reached, or the exception raised. */
  function ConnectAttempt(url: UrlValue, clusterId: string, clientIdNillable: Option<string>,
                          config: StreamingConfig<NativeFactory.SecureSocket>, freshUuid: string,
                          crypto: NativeFactory.Crypto,
                          connect: ConnectionOptions<NativeFactory.SslPlan> -> Result<string, JavaException>)
    : Result<string, JavaException>
  {
    var options := NativeFactory.OptionsFor(url, clusterId, ClientIdFor(clientIdNillable, freshUuid), Some(config), crypto);
    if options.Err? then Err(options.error) else connect(options.value)
  }

  /**
   * Opens the connection and, only once it is open, stores it on `client` and
   * reports a new connection. A failure changes nothing and propagates.
   */
  method CreateConnection(client: NativeObject, url: UrlValue, clusterId: string, clientIdNillable: Option<string>,
                          config: StreamingConfig<NativeFactory.SecureSocket>, freshUuid: string,
                          crypto: NativeFactory.Crypto,
                          connect: ConnectionOptions<NativeFactory.SslPlan> -> Result<string, JavaException>,
                          log: MetricsLog)
    returns (r: Result<StreamingConnection, JavaException>)
    modifies client`connection, log
    ensures var attempt := ConnectAttempt(url, clusterId, clientIdNillable, config, freshUuid, crypto, connect);
            (r.Ok? <==> attempt.Ok?) &&
            (r.Err? ==> r.error == attempt.error &&
                        client.connection == old(client.connection) && log.events == old(log.events)) &&
            (r.Ok? ==> fresh(r.value) && !r.value.closed && r.value.connectedUrl == attempt.value &&
                       r.value.clientId == ClientIdFor(clientIdNillable, freshUuid) &&
                       r.value.clusterId == clusterId &&
                       client.connection == Some(r.value) &&
                       log.events == old(log.events) + [NewConnection(url)])
  {
    var clientId := ClientIdFor(clientIdNillable, freshUuid);
    r := NativeFactory.CreateConnection(url, clusterId, clientId, Some(config), crypto, connect);
    if r.Ok? {
      client.connection := Some(r.value);
      log.Report(NewConnection(url));
    }
  }

  /**
   * Closes the connection stored on `client`. An I/O, timeout or interruption
   * failure becomes the module error with the exception's message; any other
   * exception propagates.
   */
  method CloseConnection(client: NativeObject, closeOutcome: Option<JavaException>, log: MetricsLog)
    returns (failure: Option<Failure>)
    requires client.connection.Some?
    modifies client.connection.value, log
    ensures var connection := client.connection.value;
            match closeOutcome
            case None =>
              failure.None? && connection.closed &&
              log.events == old(log.events) + [ConnectionClose(connection.connectedUrl)]
            case Some(e) =>
              connection.closed == old(connection.closed) &&
              if e.kind in {IOException, TimeoutException, InterruptedException} then
                failure == Some(NatsError(e.message)) &&
                log.events == old(log.events) + [CloseError(connection.connectedUrl)]
              else
                failure == Some(Escaped(e)) && log.events == old(log.events)
  {
    var connection := client.connection.value;
    var url := connection.connectedUrl;
    match closeOutcome {
      case None =>
        connection.closed := true;
        log.Report(ConnectionClose(url));
        failure := None;
      case Some(e) =>
        if e.kind in {IOException, TimeoutException, InterruptedException} {
          log.Report(CloseError(connection.connectedUrl));
          failure := Some(NatsError(e.message));
        } else {
          failure := Some(Escaped(e));
        }
    }
  }
}
