/**
 * The publish acknowledgement handler of the newer producer: completes the
 * Ballerina future of a publish call once the server acknowledges it.
 */
module ProducerAckListener {
  import opened Common
  import opened RuntimeTypes

  const NUID_PREFIX: string := "NUID: "
  const NUID_SEPARATOR: string := "; "

  /** A Ballerina future that native code completes; `completions` counts the `complete` calls. */
  class Future {
    var async: bool
    var result: Option<Result<string, Failure>>
    ghost var completions: nat

    constructor ()
      ensures !async && result.None? && completions == 0
    {
      async := false;
      result := None;
      completions := 0;
    }

    /** `markAsync`: the call returning this future completes later. */
    method MarkAsync()
      modifies this
      ensures async && result == old(result) && completions == old(completions)
    {
      async := true;
    }

    method Complete(value: Result<string, Failure>)
      modifies this
      ensures result == Some(value) && async == old(async) && completions == old(completions) + 1
    {
      result := Some(value);
      completions := completions + 1;
    }
  }

  /** The error an acknowledgement failure completes the future with. */
  function AckError(nuid: string, e: JavaException): (f: Failure)
    ensures f.NatsError?
    ensures StartsWith(f.message, NUID_PREFIX + nuid + NUID_SEPARATOR) && EndsWith(f.message, e.message)
    ensures |f.message| == |NUID_PREFIX| + |nuid| + |NUID_SEPARATOR| + |e.message|
  {
    var m := NUID_PREFIX + nuid + NUID_SEPARATOR + e.message;
    assert m[..|NUID_PREFIX + nuid + NUID_SEPARATOR|] == NUID_PREFIX + nuid + NUID_SEPARATOR;
    assert m[|m| - |e.message|..] == e.message;
    NatsError(m)
  }

  /** `AckListener`: its future, subject and metrics reporter are fixed when it is built. */
  class AckListener {
    const future: Future
    const subject: string
    const reporter: MetricsLog

    constructor (future: Future, subject: string, reporter: MetricsLog)
      ensures this.future == future && this.subject == subject && this.reporter == reporter
    {
      this.future := future;
      this.subject := subject;
      this.reporter := reporter;
    }

    /**
     * `onAck`: completes the future exactly once, with the NUID when there is
     * no exception and with the error naming the NUID otherwise, and reports
     * an acknowledgement or an acknowledgement error accordingly.
     */
    method OnAck(nuid: string, ex: Option<JavaException>)
      modifies future, reporter
      ensures future.completions == old(future.completions) + 1
      ensures future.result == Some(if ex.None? then Ok(nuid) else Err(AckError(nuid, ex.value)))
      ensures future.async == old(future.async)
      ensures reporter.events == old(reporter.events) +
                                 [if ex.None? then Acknowledgement(subject) else ProducerError(subject, AcknowledgementError)]
    {
      match ex {
        case None =>
          reporter.Report(Acknowledgement(subject));
          future.Complete(Ok(nuid));
        case Some(e) =>
          reporter.Report(ProducerError(subject, AcknowledgementError));
          future.Complete(Err(AckError(nuid, e)));
      }
    }
  }
}
