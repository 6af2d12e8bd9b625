/**
 * The newer listener initialisation: opens the streaming connection and fills
 * in the listener's native data, including the two empty service registries.
 */
module NativeConsumerInit {
  import opened Common
  import opened RuntimeTypes
  import opened ConnectionConfig
  import NativeFactory
  import NativeConnection

  const INIT_ERROR_PREFIX: string := "Internal error while creating streaming connection "

  /**
   * Any exception while connecting becomes the module error, prefixed, and
   * leaves the listener as it was. On success the URL, the connection, a
   * metrics reporter for it and two fresh, empty registries are installed.
   */
  method StreamingListenerInit(listener: NativeObject, url: UrlValue,
                               config: StreamingConfig<NativeFactory.SecureSocket>, freshUuid: string,
                               crypto: NativeFactory.Crypto,
                               connect: ConnectionOptions<NativeFactory.SslPlan> -> Result<string, JavaException>,
                               log: MetricsLog)
    returns (failure: Option<Failure>)
    modifies listener, log
    ensures var attempt := NativeConnection.ConnectAttempt(url, config.clusterId, config.clientId, config,
                                                           freshUuid, crypto, connect);
            (failure.None? <==> attempt.Ok?) &&
            (attempt.Err? ==>
               failure == Some(NatsError(INIT_ERROR_PREFIX + attempt.error.message)) &&
               listener.url == old(listener.url) && listener.connection == old(listener.connection) &&
               listener.reporter == old(listener.reporter) &&
               listener.pending == old(listener.pending) && listener.live == old(listener.live) &&
               log.events == old(log.events) + [ConnectionError]) &&
            (attempt.Ok? ==>
               listener.url == Some(url) &&
               listener.connection.Some? && fresh(listener.connection.value) &&
               listener.connection.value.connectedUrl == attempt.value &&
               listener.connection.value.clusterId == config.clusterId &&
               listener.connection.value.clientId == NativeConnection.ClientIdFor(config.clientId, freshUuid) &&
               listener.reporter == Some(MetricsReporter(listener.connection.value)) &&
               listener.pending == Some(map[]) && listener.live == Some(map[]) &&
               log.events == old(log.events) + [NewConnection(url)])
  {
    var connection := NativeConnection.CreateConnection(listener, url, config.clusterId, config.clientId, config,
                                                        freshUuid, crypto, connect, log);
    if connection.Err? {
      log.Report(ConnectionError);
      return Some(NatsError(INIT_ERROR_PREFIX + connection.error.message));
    }
    listener.url := Some(url);
    listener.connection := Some(connection.value);
    listener.reporter := Some(MetricsReporter(connection.value));
    listener.pending := Some(map[]);
    listener.live := Some(map[]);
    failure := None;
  }
}
