/**
 * The newer per-service message handler: shapes the arguments of `onMessage`
 * from a delivered message and the remote method's signature, invokes it,
 * and waits on a one-shot latch that the invocation's callback releases.
 *
 * The runtime's asynchronous invocation is modelled as completing before the
 * wait starts: its outcome (`Completion`) is an input, and the callback it
 * triggers runs first. Whether the waiting thread is interrupted is an input
 * flag.
 */
module NativeListener {
  import opened Common
  import opened RuntimeTypes
  import Utils
  import opened Latch

  const ON_MESSAGE: string := "onMessage"
  const INVALID_SIGNATURE: string := "Invalid remote function signature"
  const INTERRUPTED_ERROR: string := "Error occurred in STAN service. The current thread got interrupted"

  /** How the runtime runs the invocation. */
  datatype DispatchMode = Concurrent | Sequential

  /** How the invoked remote method finished: it returned (a value or an error), or it panicked. */
  datatype Completion = Succeeded | Failed

  /** The invocation handed to the runtime: the argument array and the dispatch mode. */
  datatype Invocation = Invocation(args: seq<Arg>, mode: DispatchMode)

  /** The callback given with each invocation: reports the delivery on success, and releases the latch either way. */
  class DispatcherCallback {
    const url: string
    const subject: string
    const latch: CountDownLatch

    constructor (url: string, subject: string, latch: CountDownLatch)
      ensures this.url == url && this.subject == subject && this.latch == latch
    {
      this.url := url;
      this.subject := subject;
      this.latch := latch;
    }

    method NotifySuccess(log: MetricsLog)
      modifies latch, log
      ensures log.events == old(log.events) + [Delivery(url, subject)]
      ensures latch.count == if old(latch.count) == 0 then 0 else old(latch.count) - 1
      ensures latch.countDowns == old(latch.countDowns) + 1
    {
      log.Report(Delivery(url, subject));
      latch.CountDown();
    }

    method NotifyFailure()
      modifies latch
      ensures latch.count == if old(latch.count) == 0 then 0 else old(latch.count) - 1
      ensures latch.countDowns == old(latch.countDowns) + 1
    {
      latch.CountDown();
    }
  }

  /** The message record: the payload bytes and the subject, read-only when asked. */
  function MessageRecordOf(msg: BrokerMessage, readonly: bool): (record: MessageRecord)
    ensures record.content == Utils.ConvertDataIntoByteArray(msg.data) && record.subject == msg.subject
    ensures record.readonly == readonly
  {
    MessageRecord(msg.data, msg.subject, readonly)
  }

  /**
   * The arguments for `onMessage`, by its parameter count: one parameter gets
   * the message, two get the message and the caller, each argument followed
   * by `true`; any other count is an invalid signature. The message is
   * read-only exactly when the first parameter's type is an intersection
   * (`readonly & stan:Message`).
   */
  function ShapeArguments(parameterTypes: seq<TypeTag>, msg: BrokerMessage, caller: Caller)
    : (r: Result<seq<Arg>, Failure>)
    ensures r.Ok? <==> |parameterTypes| == 1 || |parameterTypes| == 2
    ensures r.Err? ==> r.error == NatsError(INVALID_SIGNATURE)
    ensures r.Ok? ==> |r.value| == 2 * |parameterTypes|
    ensures r.Ok? ==> forall i :: 0 <= i < |r.value| && i % 2 == 1 ==> r.value[i] == BoolArg(true)
    ensures r.Ok? ==> r.value[0].MessageArg? && r.value[0].message.content == msg.data &&
                      r.value[0].message.subject == msg.subject &&
                      (r.value[0].message.readonly <==> parameterTypes[0] == IntersectionTag)
    ensures r.Ok? && |parameterTypes| == 2 ==> r.value[2] == CallerArg(caller)
  {
    if |parameterTypes| == 1 then
      Ok([MessageArg(MessageRecordOf(msg, parameterTypes[0] == IntersectionTag)), BoolArg(true)])
    else if |parameterTypes| == 2 then
      Ok([MessageArg(MessageRecordOf(msg, parameterTypes[0] == IntersectionTag)), BoolArg(true),
          CallerArg(caller), BoolArg(true)])
    else Err(NatsError(INVALID_SIGNATURE))
  }

  /** Concurrent dispatch only when both the service type and `onMessage` are isolated. */
  function DispatchModeOf(service: Service, onMessage: MethodType): (mode: DispatchMode)
    ensures mode == Concurrent <==> service.isolated && onMessage.isolated
  {
    if service.isolated && onMessage.isolated then Concurrent else Sequential
  }

  /**
   * The error raised when the wait is interrupted, as written: it appends the
   * message of the exception's cause, and dereferences a missing cause.
   */
  function InterruptErrorAsWritten(cause: Option<string>): (f: Failure)
    ensures cause.None? ==> f == Escaped(JavaException(NullPointerException, ""))
    ensures cause.Some? ==> f == NatsError(INTERRUPTED_ERROR + cause.value)
  {
    match cause
    case None => Escaped(JavaException(NullPointerException, ""))
    case Some(m) => NatsError(INTERRUPTED_ERROR + m)
  }

  /** The error evidently intended: the module error, with the cause's message when there is one. */
  function InterruptError(cause: Option<string>): (f: Failure)
    ensures f.NatsError? && StartsWith(f.message, INTERRUPTED_ERROR)
    ensures cause.Some? ==> f == InterruptErrorAsWritten(cause)
    ensures cause.None? ==> f == NatsError(INTERRUPTED_ERROR)
  {
    var m := INTERRUPTED_ERROR + cause.GetOr("");
    assert m[..|INTERRUPTED_ERROR|] == INTERRUPTED_ERROR;
    assert cause.None? ==> m == INTERRUPTED_ERROR;
    NatsError(m)
  }

  /**
   * The `InterruptedException` that `await` throws carries no cause, so the
   * error as written always ends in a null dereference instead of the module
   * error; the corrected error is the module error with the fixed message.
   */
  lemma InterruptedAwaitHasNoMessage()
    ensures InterruptErrorAsWritten(None).Escaped?
    ensures InterruptErrorAsWritten(None).cause.kind == NullPointerException
    ensures InterruptError(None) == NatsError(INTERRUPTED_ERROR)
  {
  }

  /**
   * `executeResource` as written: creates a latch of one, invokes `onMessage`
   * with a callback holding it, and waits. The callback runs exactly once and
   * counts the latch down, so the wait never blocks: it returns normally
   * unless the thread is interrupted, in which case the interrupt flag is set
   * again and building the error dereferences the missing cause, so a null
   * dereference escapes.
   */
  method ExecuteResource(url: string, subject: string, service: Service, onMessage: MethodType, args: seq<Arg>,
                         completion: Completion, interrupted: bool, log: MetricsLog)
    returns (invocation: Invocation, failure: Option<Failure>, interruptFlag: bool, awaited: AwaitOutcome)
    modifies log
    ensures invocation == Invocation(args, DispatchModeOf(service, onMessage))
    ensures awaited != Blocked && (awaited == Released <==> !interrupted)
    ensures failure == if interrupted then Some(InterruptErrorAsWritten(None)) else None
    ensures interrupted ==> failure.value.Escaped? && failure.value.cause.kind == NullPointerException
    ensures interruptFlag == interrupted
    ensures log.events == old(log.events) + (if completion.Succeeded? then [Delivery(url, subject)] else [])
  {
    var latch := new CountDownLatch(1);
    var callback := new DispatcherCallback(url, subject, latch);
    invocation := Invocation(args, DispatchModeOf(service, onMessage));
    match completion {
      case Succeeded => callback.NotifySuccess(log);
      case Failed => callback.NotifyFailure();
    }
    assert latch.count == 0 && latch.countDowns == 1;
    awaited := latch.Await(interrupted);
    interruptFlag := interrupted;
    if awaited == Interrupted {
      failure := Some(InterruptErrorAsWritten(None));
    } else {
      failure := None;
    }
  }

  /**
   * `executeResource` as evidently intended: the same dispatch and wait, but
   * an interrupted wait raises the module error with the fixed message.
   */
  method ExecuteResourceIntended(url: string, subject: string, service: Service, onMessage: MethodType,
                                 args: seq<Arg>, completion: Completion, interrupted: bool, log: MetricsLog)
    returns (invocation: Invocation, failure: Option<Failure>, interruptFlag: bool, awaited: AwaitOutcome)
    modifies log
    ensures invocation == Invocation(args, DispatchModeOf(service, onMessage))
    ensures awaited != Blocked && (awaited == Released <==> !interrupted)
    ensures failure == if interrupted then Some(NatsError(INTERRUPTED_ERROR)) else None
    ensures interruptFlag == interrupted
    ensures log.events == old(log.events) + (if completion.Succeeded? then [Delivery(url, subject)] else [])
  {
    var f;
    invocation, f, interruptFlag, awaited :=
      ExecuteResource(url, subject, service, onMessage, args, completion, interrupted, log);
    failure := if f.Some? then Some(InterruptError(None)) else None;
  }

  /**
   * `onMessage`: reports the consumed message, builds the message record and
   * the caller, looks up `onMessage` (a service without it ends in a null
   * dereference), shapes the arguments and dispatches them. The delivery
   * metric names the message's own subject; the consume metric the handler's.
   * The handler's URL label and subject are set for every handler that has a
   * subscription.
   */
  method OnMessage(handler: StreamingListener, msg: BrokerMessage, completion: Completion, interrupted: bool,
                   log: MetricsLog)
    returns (invocation: Option<Invocation>, failure: Option<Failure>)
    requires handler.connectedUrl.Some? && handler.subject.Some?
    modifies log
    ensures var url := Utils.GetCommaSeparatedUrl(handler.connectedUrl.value);
            var consumed := old(log.events) + [Consume(url, handler.subject.value, |msg.data|)];
            var onMessage := FirstNamed(handler.service.methods, ON_MESSAGE);
            var args := if onMessage.Some?
                        then ShapeArguments(onMessage.value.parameterTypes, msg, Caller(msg, handler.manualAck))
                        else Err(Escaped(JavaException(NullPointerException, "")));
            (invocation.Some? <==> args.Ok?) &&
            (args.Err? ==> failure == Some(args.error) && log.events == consumed) &&
            (args.Ok? ==>
               invocation == Some(Invocation(args.value, DispatchModeOf(handler.service, onMessage.value))) &&
               failure == (if interrupted then Some(InterruptErrorAsWritten(None)) else None) &&
               log.events == consumed + (if completion.Succeeded? then [Delivery(url, msg.subject)] else []))
  {
    var url := Utils.GetCommaSeparatedUrl(handler.connectedUrl.value);
    log.Report(Consume(url, handler.subject.value, |msg.data|));
    var caller := Caller(msg, handler.manualAck);
    var onMessage := Utils.GetAttachedFunctionType(handler.service, ON_MESSAGE);
    if onMessage.None? {
      return None, Some(Escaped(JavaException(NullPointerException, "")));
    }
    var args := ShapeArguments(onMessage.value.parameterTypes, msg, caller);
    if args.Err? {
      return None, Some(args.error);
    }
    var dispatched, f, _, _ := ExecuteResource(url, msg.subject, handler.service, onMessage.value, args.value,
                                                completion, interrupted, log);
    invocation, failure := Some(dispatched), f;
  }
}
