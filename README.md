# NATS Streaming connector for Ballerina — a Dafny model

This project models the Java side of the Ballerina NATS Streaming (STAN)
connector. It covers two generations of the connector's native code and of its
compiler plugin:

- **Connection factories** (the newer one and the older one). They turn a
  server URL or URL array, the cluster and client ids and the streaming
  configuration record into NATS and streaming options: credentials, TLS
  context and tuning values. Then they open the connection.
- **Connection set-up and tear-down** (`NatsStreamingConnection`) and the
  listener and producer initialisers (`Init`). These store the connection, a
  metrics reporter and two service registries in the object's native data.
- **The consumer life cycle**:
  - `attach` registers a per-service message handler in the pending registry;
  - `streamingSubscribe` drains the pending registry into live subscriptions;
  - `streamingDetach` cancels a subscription and removes the service.
- **The per-service message handlers** (`StreamingListener`, both
  generations). They shape the `onMessage` arguments, dispatch them and wait
  on a count-down latch. The older one also dispatches errors to `onError`.
- **The producer side**:
  - `publishMessage`;
  - the acknowledgement handler `AckListener`, which completes the caller's
    future;
  - `ack` of a delivered message.
- **The compile-time validators of a STAN service** (`StanFunctionValidator`,
  both plugin generations). They report diagnostics STAN_101, STAN_103 to
  STAN_105 and STAN_107 to STAN_112 for a missing or malformed `onMessage` and
  `onError`.

How things are represented:

- Objects whose state the Java code changes in place are Dafny classes with
  `modifies` clauses:
  - the listener or client object's native data (`RuntimeTypes.NativeObject`);
  - the streaming connection;
  - the broker message;
  - the metrics registry, kept as a log of reported events;
  - the latch;
  - the future;
  - the analysis context of the compiler plugins.
- Everything else is a datatype.
- The loops of the source are methods with loop invariants, each proved
  against a specification function:
  - the remote-method lookup;
  - the subscription loop;
  - the union-member loop of the newer return-type check.
- Calls into code outside the connector are parameters:
  - the NATS client's connect, subscribe, publish, ack and unsubscribe calls,
    given as their outcome;
  - key-store loading and PEM decoding;
  - UUID generation;
  - the runtime's asynchronous invocation, given as its completion;
  - thread interruption.

## Model

| member | source | states |
|---|---|---|
| Common.ToInt32 | native/src/main/java/io/ballerina/stdlib/stan/BallerinaNatsStreamingConnectionFactory.java:122 | `Long.intValue()` narrowing: the result is a Java `int`, congruent to the input modulo 2^32, and equal to it when it fits |
| RuntimeTypes.FirstNamed | stan-native/src/main/java/org/ballerinalang/nats/Utils.java:60-70 | the first method with the given name: none exactly when no method has that name, otherwise a method of that name with no earlier one of that name |
| Utils.CreateNatsError | stan-native/src/main/java/org/ballerinalang/nats/Utils.java:51-54 | the module error carrying the detail message unchanged |
| Utils.ConvertDataIntoByteArray | stan-native/src/main/java/org/ballerinalang/nats/Utils.java:56-58 | the payload bytes are handed over byte for byte |
| Utils.GetAttachedFunctionType | stan-native/src/main/java/org/ballerinalang/nats/Utils.java:60-70 | the loop finds nothing exactly when no method has the name; a found method has the name and is one of the service's; the result is the first match (`FirstNamed`) |
| Utils.JoinLength | stan-native/src/main/java/org/ballerinalang/nats/Utils.java:76 | `String.join` output length is the sum of the part lengths plus one separator between each pair of neighbours |
| Utils.JoinPartAt | stan-native/src/main/java/org/ballerinalang/nats/Utils.java:76 | every part occurs in the joined string at its offset |
| Utils.JoinSeparatorAfter | stan-native/src/main/java/org/ballerinalang/nats/Utils.java:76 | exactly the separator stands between each part and the next |
| Utils.GetCommaSeparatedUrl | stan-native/src/main/java/org/ballerinalang/nats/Utils.java:72-81 | a single URL is returned as it is; for an array, each URL appears at its offset, ", " follows every URL but the last, and the length is the URLs' total plus one separator per gap, so the label is exactly the ", "-join; an empty array gives "" |
| ConnectionConfig.ServersFor | native/src/main/java/io/ballerina/stdlib/stan/BallerinaNatsStreamingConnectionFactory.java:82-90 | a string URL gives a single server and an array gives the server list in order, each carrying the given URLs |
| ConnectionConfig.AuthFor | native/src/main/java/io/ballerina/stdlib/stan/BallerinaNatsStreamingConnectionFactory.java:97-111 | user info exactly when the auth value is a record with both username and password; token auth exactly when it has a token but not both of those; with the values given |
| ConnectionConfig.TuningFor | native/src/main/java/io/ballerina/stdlib/stan/BallerinaNatsStreamingConnectionFactory.java:118-122 | the discover prefix and the three timeouts are taken over unchanged; the in-flight limit is narrowed to a Java `int` and kept when it fits |
| NativeFactory.KeyManagersFor | native/src/main/java/io/ballerina/stdlib/stan/BallerinaNatsStreamingConnectionFactory.java:213-247 | a file pair fails with the public-key error if the certificate does not decode, else with the private-key error if the key does not; a key store fails exactly when loading it fails; on success the material records its source |
| NativeFactory.TrustManagersFor | native/src/main/java/io/ballerina/stdlib/stan/BallerinaNatsStreamingConnectionFactory.java:187-211 | a certificate file fails exactly when it does not decode, with the public-key error; a trust store fails exactly when loading fails; success records the source |
| NativeFactory.GetSslContext | native/src/main/java/io/ballerina/stdlib/stan/BallerinaNatsStreamingConnectionFactory.java:133-185 | a `cert` of neither kind gives no context; otherwise a context with the configured or default protocol; key managers exactly when a key is configured; trust from a file exactly when `cert` is a path; the first failure in the order key managers, trust managers, context creation and initialisation is the one reported; it fails exactly when one of these fails; once both managers are built, the result is the context holding exactly the material of `KeyManagersFor` (when a key is configured) and `TrustManagersFor` with that protocol, or the exception that creating or initialising it throws |
| NativeFactory.OptionsFor | native/src/main/java/io/ballerina/stdlib/stan/BallerinaNatsStreamingConnectionFactory.java:77-123 | fails exactly when a configured secure socket's TLS set-up fails; ids are always set; servers come from the URL; credentials, TLS and tuning are set exactly when a configuration is given, with the values derived above |
| NativeFactory.CreateConnection | native/src/main/java/io/ballerina/stdlib/stan/BallerinaNatsStreamingConnectionFactory.java:77-131 | the step-by-step builder filling yields `OptionsFor`'s options: success exactly when they build and the connect succeeds, giving a fresh open connection with the ids and the reached URL; otherwise the first error |
| LegacyFactory.CreateSslContext | stan-native/src/main/java/org/ballerinalang/nats/streaming/BallerinaNatsStreamingConnectionFactory.java:206-217 | the protocol (TLSv1.2 by default) is looked up first, then the key store when given, then the trust store, then the context is initialised; the first of these that throws is the failure reported, and the call fails exactly when one of them throws |
| LegacyFactory.GetSslContext | stan-native/src/main/java/org/ballerinalang/nats/streaming/BallerinaNatsStreamingConnectionFactory.java:144-177 | a missing trust store is a null dereference; with a trust store the result is exactly `CreateSslContext` of that store, the optional key store and the record's protocol (TLSv1.2 by default), so it fails exactly as that ordered set-up does; on success the context uses the given trust store and has key managers exactly when a key store is configured |
| LegacyFactory.OptionsFor | stan-native/src/main/java/org/ballerinalang/nats/streaming/BallerinaNatsStreamingConnectionFactory.java:80-128 | as for the newer factory, with the older TLS set-up |
| LegacyFactory.CreateConnection | stan-native/src/main/java/org/ballerinalang/nats/streaming/BallerinaNatsStreamingConnectionFactory.java:80-136 | the builder filling yields `OptionsFor`'s options; success exactly when they build and the connect succeeds, with a fresh open connection carrying the ids and reached URL |
| NativeConnection.ClientIdFor | native/src/main/java/io/ballerina/stdlib/stan/connection/NatsStreamingConnection.java:44-45 | a given client id is used; a nil one is replaced by the generated UUID |
| NativeConnection.CreateConnection | native/src/main/java/io/ballerina/stdlib/stan/connection/NatsStreamingConnection.java:41-53 | succeeds exactly when the connection attempt does; only then is the connection stored on the object and a new connection reported; a failure changes neither |
| NativeConnection.CloseConnection | native/src/main/java/io/ballerina/stdlib/stan/connection/NatsStreamingConnection.java:55-72 | a clean close closes the connection and reports it; an I/O, timeout or interruption failure is the module error with the exception's message plus a close-error metric; any other exception escapes |
| LegacyConnection.CreateConnection | stan-native/src/main/java/org/ballerinalang/nats/connection/NatsStreamingConnection.java:46-59 | succeeds exactly when the attempt does; only then is the connection stored; no metric |
| LegacyConnection.CloseConnection | stan-native/src/main/java/org/ballerinalang/nats/connection/NatsStreamingConnection.java:61-82 | a clean close closes without a metric; I/O or timeout failures give the exception's message, an interruption the fixed closing-producer message, each with a close-error metric; others escape |
| NativeConsumerInit.StreamingListenerInit | native/src/main/java/io/ballerina/stdlib/stan/consumer/Init.java:40-63 | any connection failure is the prefixed module error plus a connection-error metric, and the listener's native data is unchanged; on success the URL, the connection, its reporter and two empty registries are installed |
| LegacyConsumerInit.ClassifyConnectionFailure | stan-native/src/main/java/org/ballerinalang/nats/streaming/consumer/Init.java:56-70 | a module error exactly for I/O, interruption and the five security exceptions: I/O gives the connection prefix, a space and the exception's message, interruption the bare prefix, security failures the secured-connection prefix followed by the message (each pinned by prefix, suffix and length); others escape unchanged |
| LegacyConsumerInit.StreamingListenerInit | stan-native/src/main/java/org/ballerinalang/nats/streaming/consumer/Init.java:46-78 | a failure is classified as above and reported only when caught, leaving the listener unchanged; on success the connection, reporter and two empty registries are installed, the URL slot untouched |
| LegacyProducerInit.StreamingProducerInit | stan-native/src/main/java/org/ballerinalang/nats/streaming/producer/Init.java:45-74 | failures are classified as for the listener and leave the client unchanged; success stores the connection and its reporter and reports a new producer |
| ConsumerAttach.SubjectFor | stan-native/src/main/java/org/ballerinalang/nats/streaming/consumer/Attach.java:56-63 | the annotation's subject if annotated, else the service name if it is a string, else the "Subject name cannot be found" error, and only then |
| ConsumerAttach.AckModeOf | stan-native/src/main/java/org/ballerinalang/nats/streaming/consumer/Attach.java:74-82 | the annotation's `autoAck`; a service without the annotation is a null dereference |
| ConsumerAttach.Registration | stan-native/src/main/java/org/ballerinalang/nats/streaming/consumer/Attach.java:46-72 | a handler exactly for annotated services, with manual ack the negation of `autoAck`, the listener URL and the annotation's subject; un-annotated services fail with the subject error or the null dereference |
| ConsumerAttach.Attach | stan-native/src/main/java/org/ballerinalang/nats/streaming/consumer/Attach.java:46-72 | on success the pending registry gains or replaces exactly this service's handler; on failure it is unchanged |
| ConsumerSubscribe.DecimalText | native/src/main/java/io/ballerina/stdlib/stan/consumer/Subscribe.java:177 | a non-empty string of decimal digits without a leading zero whose decimal value (`DecimalValue`) is `n`, as Java prints an `int` |
| ConsumerSubscribe.StartChoiceFor | native/src/main/java/io/ballerina/stdlib/stan/consumer/Subscribe.java:152-179 | a string must name an enum constant, otherwise `valueOf`'s error; LAST_RECEIVED and FIRST set their start and the rest leave the default; a tuple starts at a time delta for TIME_DELTA_START and at a sequence number otherwise; another type is the assertion error whose message is exactly the fixed text followed by the decimal tag (prefix, suffix and length) |
| ConsumerSubscribe.BuildSubscriptionOptions | native/src/main/java/io/ballerina/stdlib/stan/consumer/Subscribe.java:121-150 | durable name and limits from the annotation or the defaults 1024, 30 and 2; the in-flight limit narrowed to `int`; manual acks exactly when not `autoAck`; the start-position failure is the only failure |
| ConsumerSubscribe.AssertNull | native/src/main/java/io/ballerina/stdlib/stan/consumer/Subscribe.java:181-185 | a missing value is the module error with the message; a present one passes unchanged |
| ConsumerSubscribe.RequestFor | native/src/main/java/io/ballerina/stdlib/stan/consumer/Subscribe.java:86-107 | a handler without a subject fails first; a service without the annotation is subscribed plainly; otherwise with the annotation's queue group and built options; option failures escape |
| ConsumerSubscribe.SubscribeFailure | native/src/main/java/io/ballerina/stdlib/stan/consumer/Subscribe.java:112-118 | I/O failures and interruptions keep the exception's message and a timeout gets the fixed message; any other exception escapes |
| ConsumerSubscribe.SubscriptionAttempt | native/src/main/java/io/ballerina/stdlib/stan/consumer/Subscribe.java:86-119 | succeeds exactly when the request builds and the subscribe call succeeds, with that subscription; otherwise the request's error or the classified call failure |
| ConsumerSubscribe.AttemptMetrics | native/src/main/java/io/ballerina/stdlib/stan/consumer/Subscribe.java:99-118 | at most one event: a subscription on success, nothing when the request did not build, a subscription error when the subscribe call failed with a caught exception, nothing when its exception escapes |
| ConsumerSubscribe.CreateSubscription | native/src/main/java/io/ballerina/stdlib/stan/consumer/Subscribe.java:86-119 | returns `SubscriptionAttempt` and appends `AttemptMetrics` to the metrics log |
| ConsumerSubscribe.DrainMetrics | native/src/main/java/io/ballerina/stdlib/stan/consumer/Subscribe.java:110 | one subscription event per drained service |
| ConsumerSubscribe.DrainStep | native/src/main/java/io/ballerina/stdlib/stan/consumer/Subscribe.java:76-83 | draining one more service whose attempt succeeds keeps the registry invariant and extends the metrics by that attempt's |
| ConsumerSubscribe.SubscribeNext | native/src/main/java/io/ballerina/stdlib/stan/consumer/Subscribe.java:77-82 | one pass: on success the service moves from pending to live and the invariant holds for the longer drain order; on failure neither registry changes |
| ConsumerSubscribe.StreamingSubscribe | native/src/main/java/io/ballerina/stdlib/stan/consumer/Subscribe.java:63-84 | each drained service was pending, is drained once and is live under the same key with its subscription; the pending registry keeps exactly the undrained services with their handlers; it is empty unless an attempt failed, and the failing service stays pending with that attempt's error; metrics in drain order |
| ConsumerDetach.StreamingDetach | native/src/main/java/io/ballerina/stdlib/stan/consumer/Detach.java:37-61 | a service without a live subscription is left alone; otherwise a successful unsubscribe removes it from both registries and reports the unsubscription when a connection is held; a failed one changes nothing and is the prefixed module error (I/O) or escapes |
| NativeListener.DispatcherCallback.NotifySuccess | native/src/main/java/io/ballerina/stdlib/stan/consumer/StreamingListener.java:177-183 | reports the delivery and counts the latch down once |
| NativeListener.DispatcherCallback.NotifyFailure | native/src/main/java/io/ballerina/stdlib/stan/consumer/StreamingListener.java:186-189 | counts the latch down once, without a metric |
| NativeListener.MessageRecordOf | native/src/main/java/io/ballerina/stdlib/stan/consumer/StreamingListener.java:73-80 | the record carries the message's bytes and subject, read-only as asked |
| NativeListener.ShapeArguments | native/src/main/java/io/ballerina/stdlib/stan/consumer/StreamingListener.java:88-111 | valid exactly for one or two parameters, else the invalid-signature error; twice as many arguments, each followed by `true`; the message first, read-only exactly for an intersection-typed first parameter; the caller third |
| NativeListener.DispatchModeOf | native/src/main/java/io/ballerina/stdlib/stan/consumer/StreamingListener.java:136-150 | concurrent dispatch exactly when the service type and `onMessage` are both isolated |
| NativeListener.InterruptErrorAsWritten | native/src/main/java/io/ballerina/stdlib/stan/consumer/StreamingListener.java:154-157 | appends the cause's message; a missing cause is a null dereference |
| NativeListener.InterruptError | native/src/main/java/io/ballerina/stdlib/stan/consumer/StreamingListener.java:154-157 | always the module error starting with the interruption message, exactly that message when there is no cause; agrees with the written code whenever there is a cause |
| NativeListener.InterruptedAwaitHasNoMessage | native/src/main/java/io/ballerina/stdlib/stan/consumer/StreamingListener.java:152-158 | with the cause-less exception that `await` throws, the written code dereferences null, while the corrected error is the fixed message |
| NativeListener.ExecuteResource | native/src/main/java/io/ballerina/stdlib/stan/consumer/StreamingListener.java:126-159 | as written: invokes with the dispatch mode; the wait never blocks because the callback releases the latch; it fails exactly when interrupted, re-setting the flag, and that failure is the escaping `NullPointerException` of `InterruptErrorAsWritten`; delivery is reported exactly when the method succeeded |
| NativeListener.ExecuteResourceIntended | native/src/main/java/io/ballerina/stdlib/stan/consumer/StreamingListener.java:126-159 | as intended: the same dispatch, wait and metrics, but an interrupted wait raises the module error with the interruption message |
| NativeListener.OnMessage | native/src/main/java/io/ballerina/stdlib/stan/consumer/StreamingListener.java:71-112 | reports the consume first; a missing `onMessage` is a null dereference and a bad signature the shaping error, neither dispatched; otherwise dispatches the shaped arguments as `ExecuteResource` states, so an interrupted wait ends in the escaping `NullPointerException` |
| LegacyListener.ShapeArguments | stan-native/src/main/java/org/ballerinalang/nats/streaming/consumer/StreamingListener.java:87-103 | valid exactly for one or two parameters, twice as many arguments, message first and never read-only |
| LegacyListener.ShapeMatchesNative | stan-native/src/main/java/org/ballerinalang/nats/streaming/consumer/StreamingListener.java:87-103 | the two handler generations agree on validity, the error and every argument except the message's read-only flag, and outright unless the first parameter is an intersection type |
| LegacyListener.OnMessage | stan-native/src/main/java/org/ballerinalang/nats/streaming/consumer/StreamingListener.java:73-104 | a missing `onMessage` is a null dereference; otherwise the shaped arguments with the handler's ack mode in the caller |
| LegacyListener.ErrorArguments | stan-native/src/main/java/org/ballerinalang/nats/streaming/consumer/StreamingListener.java:119-120 | message, `true`, error, `true`, in that order |
| LegacyListener.DispatchErrorAsWritten | stan-native/src/main/java/org/ballerinalang/nats/streaming/consumer/StreamingListener.java:110-128 | nothing without `onError`; otherwise it invokes `onError` and the wait blocks forever unless interrupted, which gives the module error with the thread-interrupted message |
| LegacyListener.DispatchError | stan-native/src/main/java/org/ballerinalang/nats/streaming/consumer/StreamingListener.java:110-128 | as intended: the wait is released once `onError` completes, so it returns unless interrupted |
| MessageAck.Ack | stan-native/src/main/java/org/ballerinalang/nats/streaming/message/Ack.java:32-46 | manual mode acks the message once, with an I/O failure as the module error and other exceptions escaping; auto mode does not ack and gives the auto-mode error |
| ProducerAckListener.AckError | native/src/main/java/io/ballerina/stdlib/stan/producer/AckListener.java:52 | the module error "NUID: <nuid>; " followed by the exception's message, pinned by prefix, suffix and length |
| ProducerAckListener.AckListener.OnAck | native/src/main/java/io/ballerina/stdlib/stan/producer/AckListener.java:46-55 | completes the future exactly once, with the NUID on success or `AckError` otherwise, and reports an acknowledgement or an acknowledgement error |
| ProducerPublish.PublishResult | stan-native/src/main/java/org/ballerinalang/nats/streaming/producer/Publish.java:61-68 | the GUID passes through exactly on success; an interruption gives the fixed message; I/O and timeout give the exception's message; exactly the other exceptions escape |
| ProducerPublish.PublishMetrics | stan-native/src/main/java/org/ballerinalang/nats/streaming/producer/Publish.java:60-67 | one or two events: the publish with its size first, followed by a publish error exactly when the failure was caught |
| ProducerPublish.PublishMessage | stan-native/src/main/java/org/ballerinalang/nats/streaming/producer/Publish.java:46-69 | returns `PublishResult` of the publish outcome for the message's subject and bytes; the fresh ack handler holds a fresh asynchronous, uncompleted future, the subject and the reporter; metrics as `PublishMetrics` |
| Diagnostics.CodesDistinct | compiler-plugin/src/main/java/io/ballerina/stdlib/stan/plugin/PluginConstants.java:46-78 | distinct compilation errors have distinct codes |
| SyntacticValidator.FirstToken | stan-compiler-plugin/src/main/java/io/ballerina/stdlib/stan/plugin/StanFunctionValidator.java:173 | `split(" ")[0]`: a prefix of the text without a space, followed by a space unless it is the whole text |
| SyntacticValidator.ReturnTypeDiagnostics | stan-compiler-plugin/src/main/java/io/ballerina/stdlib/stan/plugin/StanFunctionValidator.java:170-185 | no finding exactly when there is no return type or its first token is one of the four accepted spellings; otherwise one finding on the definition |
| SyntacticValidator.MessageParamDiagnostics | stan-compiler-plugin/src/main/java/io/ballerina/stdlib/stan/plugin/StanFunctionValidator.java:130-148 | no finding exactly when the type is written `stan:Message`, otherwise one |
| SyntacticValidator.CallerParamDiagnostics | stan-compiler-plugin/src/main/java/io/ballerina/stdlib/stan/plugin/StanFunctionValidator.java:150-168 | no finding exactly when the type is written `stan:Caller`, otherwise one |
| SyntacticValidator.ErrorParamDiagnostics | stan-compiler-plugin/src/main/java/io/ballerina/stdlib/stan/plugin/StanFunctionValidator.java:187-208 | no finding exactly for prefix `stan` with identifier `error` in any case; two exactly when both the prefix and the identifier are wrong; all are the error-parameter finding |
| SyntacticValidator.OnMessageParameterDiagnostics | stan-compiler-plugin/src/main/java/io/ballerina/stdlib/stan/plugin/StanFunctionValidator.java:96-112 | no parameter gives only "must have message"; more than two give only the count error; no finding exactly for `stan:Message` optionally followed by `stan:Caller`; all about `onMessage` |
| SyntacticValidator.OnErrorParameterDiagnostics | stan-compiler-plugin/src/main/java/io/ballerina/stdlib/stan/plugin/StanFunctionValidator.java:114-128 | fewer than two give only "must have message and error"; more than two end with the count error; no finding exactly for `stan:Message` then an accepted error type; all about `onError` |
| SyntacticValidator.RemoteDiagnostics | stan-compiler-plugin/src/main/java/io/ballerina/stdlib/stan/plugin/StanFunctionValidator.java:74-94 | one finding on the signature exactly when the `remote` qualifier is missing |
| SyntacticValidator.OnMessageDiagnostics | stan-compiler-plugin/src/main/java/io/ballerina/stdlib/stan/plugin/StanFunctionValidator.java:74-83 | every finding points into `onMessage` and is never the missing-`onMessage` one |
| SyntacticValidator.OnErrorDiagnostics | stan-compiler-plugin/src/main/java/io/ballerina/stdlib/stan/plugin/StanFunctionValidator.java:85-94 | every finding points into `onError` and is never the missing-`onMessage` one |
| SyntacticValidator.OnMessageAccepted | stan-compiler-plugin/src/main/java/io/ballerina/stdlib/stan/plugin/StanFunctionValidator.java:74-112 | `onMessage` draws no finding exactly when it is remote, takes `stan:Message` and optionally `stan:Caller`, and returns nothing or an accepted spelling |
| SyntacticValidator.OnErrorAccepted | stan-compiler-plugin/src/main/java/io/ballerina/stdlib/stan/plugin/StanFunctionValidator.java:85-128 | `onError` draws no finding exactly when it is remote, takes `stan:Message` and `stan:error` (any case), and returns nothing or an accepted spelling |
| SyntacticValidator.ServiceAccepted | stan-compiler-plugin/src/main/java/io/ballerina/stdlib/stan/plugin/StanFunctionValidator.java:57-65 | a service draws no finding exactly when it has a well-formed `onMessage` and any `onError` is well formed |
| SyntacticValidator.MissingOnMessageReportedOnce | stan-compiler-plugin/src/main/java/io/ballerina/stdlib/stan/plugin/StanFunctionValidator.java:67-72 | STAN_101 is reported once exactly when `onMessage` is missing, and never otherwise |
| SyntacticValidator.FunctionValidator.Validate | stan-compiler-plugin/src/main/java/io/ballerina/stdlib/stan/plugin/StanFunctionValidator.java:57-65 | reports exactly `ValidationDiagnostics`, in order, and nothing else |
| SyntacticValidator.FunctionValidator.ValidateMandatoryFunction | stan-compiler-plugin/src/main/java/io/ballerina/stdlib/stan/plugin/StanFunctionValidator.java:67-72 | reports STAN_101 exactly when `onMessage` is missing |
| SyntacticValidator.FunctionValidator.ValidateOnMessage | stan-compiler-plugin/src/main/java/io/ballerina/stdlib/stan/plugin/StanFunctionValidator.java:74-83 | reports exactly `OnMessageDiagnostics` |
| SyntacticValidator.FunctionValidator.ValidateOnError | stan-compiler-plugin/src/main/java/io/ballerina/stdlib/stan/plugin/StanFunctionValidator.java:85-94 | reports exactly `OnErrorDiagnostics` |
| SyntacticValidator.FunctionValidator.ValidateReturnTypeErrorOrNil | stan-compiler-plugin/src/main/java/io/ballerina/stdlib/stan/plugin/StanFunctionValidator.java:170-185 | reports exactly `ReturnTypeDiagnostics` |
| SyntacticValidator.FunctionValidator.ValidateFunctionParameters | stan-compiler-plugin/src/main/java/io/ballerina/stdlib/stan/plugin/StanFunctionValidator.java:96-112 | reports exactly `OnMessageParameterDiagnostics` |
| SyntacticValidator.FunctionValidator.ValidateOnErrorFunctionParameters | stan-compiler-plugin/src/main/java/io/ballerina/stdlib/stan/plugin/StanFunctionValidator.java:114-128 | reports exactly `OnErrorParameterDiagnostics` |
| SyntacticValidator.FunctionValidator.ValidateFirstParam | stan-compiler-plugin/src/main/java/io/ballerina/stdlib/stan/plugin/StanFunctionValidator.java:130-148 | reports exactly `MessageParamDiagnostics` |
| SyntacticValidator.FunctionValidator.ValidateTypedParam | stan-compiler-plugin/src/main/java/io/ballerina/stdlib/stan/plugin/StanFunctionValidator.java:150-168 | one finding exactly when the type is not written `stan:<identifier>` |
| SyntacticValidator.FunctionValidator.ValidateErrorParam | stan-compiler-plugin/src/main/java/io/ballerina/stdlib/stan/plugin/StanFunctionValidator.java:187-208 | reports exactly `ErrorParamDiagnostics` |
| SemanticValidator.ParamTypeMessageFollowsAliases | compiler-plugin/src/main/java/io/ballerina/stdlib/stan/plugin/StanFunctionValidator.java:160-180 | the message type check accepts exactly the reference chains that pass through known non-`stan` modules and end at `stan:Message` |
| SemanticValidator.MessageParamDiagnostics | compiler-plugin/src/main/java/io/ballerina/stdlib/stan/plugin/StanFunctionValidator.java:140-158 | no finding exactly when the parameter has no symbol or its type is a reference the check accepts; otherwise one at parameter 0 |
| SemanticValidator.MessageParamAccepted | compiler-plugin/src/main/java/io/ballerina/stdlib/stan/plugin/StanFunctionValidator.java:140-180 | no finding exactly when the type is unknown or is an alias chain reaching `stan:Message` |
| SemanticValidator.NamedParamDiagnostics | compiler-plugin/src/main/java/io/ballerina/stdlib/stan/plugin/StanFunctionValidator.java:182-207 | no finding exactly when the qualified name resolves into `stan` with the expected name, or its symbol or module is unknown; otherwise one at parameter 1 |
| SemanticValidator.UnionDiagnostics | compiler-plugin/src/main/java/io/ballerina/stdlib/stan/plugin/StanFunctionValidator.java:217-232 | at most one finding per member, each the return-type finding |
| SemanticValidator.UnionAccepted | compiler-plugin/src/main/java/io/ballerina/stdlib/stan/plugin/StanFunctionValidator.java:217-232 | a union draws no finding exactly when every member is nil, an error type, or a reference to `error` or into `stan` |
| SemanticValidator.ReturnTypeDiagnostics | compiler-plugin/src/main/java/io/ballerina/stdlib/stan/plugin/StanFunctionValidator.java:209-240 | nothing without a method symbol or return type; a non-union draws no finding exactly when it is nil; every finding is the return-type one |
| SemanticValidator.ReturnTypeAccepted | compiler-plugin/src/main/java/io/ballerina/stdlib/stan/plugin/StanFunctionValidator.java:209-240 | no return-type finding exactly when the return type is absent, nil, or a union of acceptable members |
| SemanticValidator.OnMessageParameterDiagnostics | compiler-plugin/src/main/java/io/ballerina/stdlib/stan/plugin/StanFunctionValidator.java:106-122 | no parameter gives only "must have message"; more than two give only the count error |
| SemanticValidator.OnErrorParameterDiagnostics | compiler-plugin/src/main/java/io/ballerina/stdlib/stan/plugin/StanFunctionValidator.java:124-138 | fewer than two give only "must have message and error"; more than two end with the count error |
| SemanticValidator.RemoteDiagnostics | compiler-plugin/src/main/java/io/ballerina/stdlib/stan/plugin/StanFunctionValidator.java:84-104 | one finding on the signature exactly when the `remote` qualifier is missing |
| SemanticValidator.OnMessageAccepted | compiler-plugin/src/main/java/io/ballerina/stdlib/stan/plugin/StanFunctionValidator.java:84-93 | `onMessage` draws no finding exactly when it is remote, has one or two parameters, its message type reaches `stan:Message`, any second parameter is `stan:Caller`, and its return type is accepted |
| SemanticValidator.OnErrorAccepted | compiler-plugin/src/main/java/io/ballerina/stdlib/stan/plugin/StanFunctionValidator.java:95-104 | `onError` draws no finding exactly when it is remote, has two parameters, its message type reaches `stan:Message`, its second is `stan:Error`, and its return type is accepted |
| SemanticValidator.ServiceAccepted | compiler-plugin/src/main/java/io/ballerina/stdlib/stan/plugin/StanFunctionValidator.java:67-75 | a service draws no finding exactly when it has a well-formed `onMessage` and any `onError` is well formed |
| SemanticValidator.FunctionValidator.Validate | compiler-plugin/src/main/java/io/ballerina/stdlib/stan/plugin/StanFunctionValidator.java:67-75 | reports exactly `ValidationDiagnostics`, in order, and nothing else |
| SemanticValidator.FunctionValidator.ValidateMandatoryFunction | compiler-plugin/src/main/java/io/ballerina/stdlib/stan/plugin/StanFunctionValidator.java:77-82 | reports STAN_101 exactly when `onMessage` is missing |
| SemanticValidator.FunctionValidator.ValidateOnMessage | compiler-plugin/src/main/java/io/ballerina/stdlib/stan/plugin/StanFunctionValidator.java:84-93 | reports exactly `OnMessageDiagnostics` |
| SemanticValidator.FunctionValidator.ValidateOnError | compiler-plugin/src/main/java/io/ballerina/stdlib/stan/plugin/StanFunctionValidator.java:95-104 | reports exactly `OnErrorDiagnostics` |
| SemanticValidator.FunctionValidator.ValidateFunctionParameters | compiler-plugin/src/main/java/io/ballerina/stdlib/stan/plugin/StanFunctionValidator.java:106-122 | reports exactly `OnMessageParameterDiagnostics` |
| SemanticValidator.FunctionValidator.ValidateOnErrorFunctionParameters | compiler-plugin/src/main/java/io/ballerina/stdlib/stan/plugin/StanFunctionValidator.java:124-138 | reports exactly `OnErrorParameterDiagnostics` |
| SemanticValidator.FunctionValidator.ValidateFirstParam | compiler-plugin/src/main/java/io/ballerina/stdlib/stan/plugin/StanFunctionValidator.java:140-158 | reports exactly `MessageParamDiagnostics` |
| SemanticValidator.FunctionValidator.ValidateNamedParam | compiler-plugin/src/main/java/io/ballerina/stdlib/stan/plugin/StanFunctionValidator.java:182-207 | reports exactly `NamedParamDiagnostics` (used for `validateSecondParam` and, with `Error`, `validateErrorParam` at 242-266) |
| SemanticValidator.FunctionValidator.ValidateReturnTypeErrorOrNil | compiler-plugin/src/main/java/io/ballerina/stdlib/stan/plugin/StanFunctionValidator.java:209-240 | the member loop reports exactly `ReturnTypeDiagnostics`, in member order |

## Left out

- Tracing, console printing and `printStackTrace`: they have no effect the connector's callers can observe. Metrics are modelled as a log of reported events.
- Concurrency:
  - the runtime's asynchronous invocation is modelled as completing before the handler waits;
  - a wait that would never return is the `Blocked` outcome;
  - concurrent use of the registries (`ConcurrentHashMap`) is not modelled.
- The TLS machinery is abstract:
  - key-store loading, PEM decoding and `SSLContext.getInstance` and `init` are parameters given by the exception they throw; the context itself is a plan naming its managers and protocol, and `SecureRandom` is not modelled;
  - UUID generation is a parameter.
- `BDecimal.intValue()` on the timeouts is not modelled. The timeouts are taken as whole seconds.
- The NATS and streaming client libraries are outcome parameters: connect, subscribe, publish, ack, unsubscribe and close.
- The stan-native `AckListener` is not part of this model. The producer's handler is modelled after `native/src/main/java/io/ballerina/stdlib/stan/producer/AckListener.java`.
- `Close.java` of the producer only delegates to `closeConnection`, so it has no member of its own.
- `NativeListener.OnMessage`: requires the handler to hold a URL and subject.
  - The source sets them when the handler is built, and `StreamingListenerInit` installs the URL.
  - A handler missing them is not modelled.
- `ConsumerAttach.Attach`, `ConsumerSubscribe.StreamingSubscribe` and `ConsumerDetach.StreamingDetach`: require the registries that `Init` installs. Calling them before `Init` dereferences null in the source, and that path is not modelled.
- `ProducerPublish.PublishMessage`: requires a stored connection. The source dereferences it without a check.
- `NativeConnection.CloseConnection` and `LegacyConnection.CloseConnection`: require a stored connection, for the same reason.
- Attach never registers a service without the `ServiceConfig` annotation. `getAckMode` dereferences the missing annotation. This is modelled as written: the result is an escaping `NullPointerException`.
- `SyntacticValidator.FirstToken`: on a return type made only of spaces, Java's `split(" ")` gives an empty array and indexing it throws. The model gives the empty token instead, which is then rejected.
- `SyntacticValidator.ErrorParamDiagnostics`: `equalsIgnoreCase` is modelled with ASCII case folding only.
- The cast of each parameter node to a required parameter is not modelled. Parameters are given as their types.
- `SemanticValidator`: whether a module symbol is the `stan` module (`validateModuleId`) is a parameter, because its body is not part of this model.
- `SemanticValidator`: whether a function is remote is an input flag.
- `SemanticValidator.ReturnTypeDiagnostics`: requires every union member that the check asks about to have a known module. The source calls `Optional.get()` there and would throw otherwise.
- The diagnostic message texts are not modelled: a diagnostic is its error kind, its code and its site.
- The diagnostic codes STAN_102 (invalid remote function or method), STAN_106 and STAN_113 to STAN_118 are defined in the plugin constants of both generations but no validator reports them, so they are not modelled.
- The text of the older module's `THREAD_INTERRUPTED_ERROR` constant is defined in a file that is not part of this model; `LegacyListener.THREAD_INTERRUPTED_ERROR` stands for it without a value.

## Findings

| source | as written | input that shows it | evidently intended | confidence | as-written member | corrected member |
|---|---|---|---|---|---|---|
| native/src/main/java/io/ballerina/stdlib/stan/consumer/StreamingListener.java:154-157 | on interruption of `await`, the error message appends `e.getCause().getMessage()` | an interrupted `await`: its `InterruptedException` has no cause, so `getCause()` is null and a `NullPointerException` escapes instead of the module error | raise the module error with the interruption message | high (not executed) | NativeListener.InterruptErrorAsWritten, used by NativeListener.ExecuteResource and NativeListener.OnMessage (shown by NativeListener.InterruptedAwaitHasNoMessage) | NativeListener.ExecuteResourceIntended, via NativeListener.InterruptError |
| stan-native/src/main/java/org/ballerinalang/nats/streaming/consumer/StreamingListener.java:114-126 | `dispatchError` waits on a latch of one, but the callback it passes holds no latch and never counts it down | any service with `onError` and a thread that is not interrupted: `await` never returns | the callback counts the latch down when `onError` completes, so the wait returns | high (not executed) | LegacyListener.DispatchErrorAsWritten | LegacyListener.DispatchError |
