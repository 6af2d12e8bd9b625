/**
 * The older producer initialisation: opens the streaming connection for a
 * producer client object and reports the new producer.
 */
module LegacyProducerInit {
  import opened Common
  import opened RuntimeTypes
  import opened ConnectionConfig
  import LegacyFactory
  import LegacyConnection
  import LegacyConsumerInit

  /**
   * Failures are sorted exactly as for a listener and leave the client as it
   * was; on success the client holds the connection and a metrics reporter,
   * and a new producer is reported.
   */
  method StreamingProducerInit(client: NativeObject, url: string,
                               config: StreamingConfig<LegacyFactory.LegacySecureSocket>, freshUuid: string,
                               tls: LegacyFactory.LegacyTls,
                               connect: ConnectionOptions<LegacyFactory.LegacySslPlan> -> Result<string, JavaException>,
                               log: MetricsLog)
    returns (failure: Option<Failure>)
    modifies client, log
    ensures var attempt := LegacyConnection.ConnectAttempt(url, config.clusterId, config.clientId, Some(config),
                                                           freshUuid, tls, connect);
            (failure.None? <==> attempt.Ok?) &&
            (attempt.Err? ==>
               failure == Some(LegacyConsumerInit.ClassifyConnectionFailure(attempt.error)) &&
               client.connection == old(client.connection) && client.reporter == old(client.reporter) &&
               log.events == old(log.events) + LegacyConsumerInit.FailureMetrics(failure.value)) &&
            (attempt.Ok? ==>
               client.connection.Some? && fresh(client.connection.value) &&
               client.connection.value.connectedUrl == attempt.value &&
               client.reporter == Some(MetricsReporter(client.connection.value)) &&
               log.events == old(log.events) + [NewProducer]) &&
            client.url == old(client.url) && client.pending == old(client.pending) && client.live == old(client.live)
  {
    var connection := LegacyConnection.CreateConnection(client, url, config.clusterId, config.clientId,
                                                        Some(config), freshUuid, tls, connect);
    if connection.Err? {
      var f := LegacyConsumerInit.ClassifyConnectionFailure(connection.error);
      if f.NatsError? {
        log.Report(ConnectionError);
      }
      return Some(f);
    }
    client.connection := Some(connection.value);
    client.reporter := Some(MetricsReporter(connection.value));
    log.Report(NewProducer);
    failure := None;
  }
}
