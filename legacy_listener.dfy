/**
 * The older per-service message handler. It shapes the `onMessage`
 * arguments like the newer one but never as a read-only message, hands the
 * invocation to the runtime without waiting for it, and dispatches errors to
 * an `onError` remote method when the service has one.
 */
module LegacyListener {
  import opened Common
  import opened RuntimeTypes
  import opened Latch
  import Utils
  import NativeListener

  const ON_MESSAGE: string := "onMessage"
  const ON_ERROR: string := "onError"
  /** The message of the error an interrupted wait raises; its text is defined outside the files modelled. */
  const THREAD_INTERRUPTED_ERROR: string

  /** The arguments for `onMessage`: as in the newer handler, with a message that is never read-only. */
  function ShapeArguments(parameterTypes: seq<TypeTag>, msg: BrokerMessage, caller: Caller)
    : (r: Result<seq<Arg>, Failure>)
    ensures r.Ok? <==> |parameterTypes| == 1 || |parameterTypes| == 2
    ensures r.Ok? ==> |r.value| == 2 * |parameterTypes|
    ensures r.Ok? ==> r.value[0] == MessageArg(MessageRecord(msg.data, msg.subject, false))
  {
    var message := MessageArg(NativeListener.MessageRecordOf(msg, false));
    if |parameterTypes| == 1 then Ok([message, BoolArg(true)])
    else if |parameterTypes| == 2 then Ok([message, BoolArg(true), CallerArg(caller), BoolArg(true)])
    else Err(NatsError(NativeListener.INVALID_SIGNATURE))
  }

  /**
   * The two handlers agree on which signatures are valid, on the error, and
   * on every argument; the message argument differs only in its read-only
   * flag, so they agree outright unless the first parameter is an
   * intersection type.
   */
  lemma ShapeMatchesNative(parameterTypes: seq<TypeTag>, msg: BrokerMessage, caller: Caller)
    ensures var legacy := ShapeArguments(parameterTypes, msg, caller);
            var native := NativeListener.ShapeArguments(parameterTypes, msg, caller);
            (legacy.Ok? <==> native.Ok?) &&
            (legacy.Err? ==> legacy.error == native.error) &&
            (legacy.Ok? ==> |legacy.value| == |native.value| &&
                            (forall i :: 1 <= i < |legacy.value| ==> legacy.value[i] == native.value[i]) &&
                            legacy.value[0].message == native.value[0].message.(readonly := false)) &&
            (parameterTypes != [] && parameterTypes[0] != IntersectionTag ==> legacy == native)
  {
  }

  /**
   * `onMessage`: the invocation handed to the runtime, which `executeResource`
   * fires without waiting, so the outcome of the remote method does not
   * matter here; a service without `onMessage` ends in a null dereference.
   */
  function OnMessage(handler: StreamingListener, msg: BrokerMessage): (r: Result<seq<Arg>, Failure>)
    ensures FirstNamed(handler.service.methods, ON_MESSAGE).None? ==>
              r == Err(Escaped(JavaException(NullPointerException, "")))
    ensures FirstNamed(handler.service.methods, ON_MESSAGE).Some? ==>
              r == ShapeArguments(FirstNamed(handler.service.methods, ON_MESSAGE).value.parameterTypes, msg,
                                  Caller(msg, handler.manualAck))
  {
    match FirstNamed(handler.service.methods, ON_MESSAGE)
    case None => Err(Escaped(JavaException(NullPointerException, "")))
    case Some(onMessage) => ShapeArguments(onMessage.parameterTypes, msg, Caller(msg, handler.manualAck))
  }

  /** The arguments `dispatchError` passes to `onError`. */
  function ErrorArguments(msg: MessageRecord, error: Failure): (args: seq<Arg>)
    ensures |args| == 4 && args[0] == MessageArg(msg) && args[2] == ErrorArg(error)
    ensures args[1] == BoolArg(true) && args[3] == BoolArg(true)
  {
    [MessageArg(msg), BoolArg(true), ErrorArg(error), BoolArg(true)]
  }

  /**
   * `dispatchError` as written. Nothing happens unless the service has an
   * `onError` method. Otherwise it invokes `onError` and waits on a latch of
   * one, but the callback it passes holds no latch and counts nothing down,
   * so the wait ends only by interruption (the interrupt flag is then set
   * again and the module error raised); without one it never returns.
   */
  method DispatchErrorAsWritten(service: Service, msg: MessageRecord, error: Failure, interrupted: bool)
    returns (invocation: Option<seq<Arg>>, awaited: Option<AwaitOutcome>, failure: Option<Failure>)
    ensures FirstNamed(service.methods, ON_ERROR).None? ==> invocation.None? && awaited.None? && failure.None?
    ensures FirstNamed(service.methods, ON_ERROR).Some? ==>
              invocation == Some(ErrorArguments(msg, error)) &&
              awaited == Some(if interrupted then Interrupted else Blocked) &&
              failure == (if interrupted then Some(NatsError(THREAD_INTERRUPTED_ERROR)) else None)
  {
    var onErrorPresent := FirstNamed(service.methods, ON_ERROR).Some?;
    if !onErrorPresent {
      return None, None, None;
    }
    var latch := new CountDownLatch(1);
    invocation := Some(ErrorArguments(msg, error));
    // The callback's notifySuccess and notifyFailure do not touch the latch.
    var outcome := latch.Await(interrupted);
    awaited := Some(outcome);
    failure := if outcome == Interrupted then Some(NatsError(THREAD_INTERRUPTED_ERROR)) else None;
  }

  /**
   * `dispatchError` as evidently intended: the callback holds the latch and
   * counts it down when `onError` completes, so the wait returns unless the
   * thread is interrupted.
   */
  method DispatchError(service: Service, msg: MessageRecord, error: Failure, interrupted: bool)
    returns (invocation: Option<seq<Arg>>, awaited: Option<AwaitOutcome>, failure: Option<Failure>)
    ensures FirstNamed(service.methods, ON_ERROR).None? ==> invocation.None? && awaited.None? && failure.None?
    ensures FirstNamed(service.methods, ON_ERROR).Some? ==>
              invocation == Some(ErrorArguments(msg, error)) &&
              awaited == Some(if interrupted then Interrupted else Released) &&
              failure == (if interrupted then Some(NatsError(THREAD_INTERRUPTED_ERROR)) else None)
  {
    var onErrorPresent := FirstNamed(service.methods, ON_ERROR).Some?;
    if !onErrorPresent {
      return None, None, None;
    }
    var latch := new CountDownLatch(1);
    invocation := Some(ErrorArguments(msg, error));
    latch.CountDown();
    var outcome := latch.Await(interrupted);
    awaited := Some(outcome);
    failure := if outcome == Interrupted then Some(NatsError(THREAD_INTERRUPTED_ERROR)) else None;
  }
}
