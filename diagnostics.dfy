/**
 * The compile-time diagnostics both compiler plugins report for a STAN
 * service: the error kinds with their codes and texts, where each is
 * reported, and the analysis context that collects them.
 */
module Diagnostics {
  /** The compilation errors the function validators report (all of severity ERROR). */
  datatype CompilationError =
    | NoOnMessage
    | FunctionShouldBeRemote
    | MustHaveMessage
    | MustHaveMessageAndError
    | InvalidFunctionParamMessage
    | InvalidFunctionParamError
    | InvalidFunctionParamCaller
    | OnlyParamsAllowed
    | OnlyParamsAllowedOnError
    | InvalidReturnTypeErrorOrNil

  /** The diagnostic code; both plugin generations use the same codes. */
  function Code(e: CompilationError): string
  {
    match e
    case NoOnMessage => "STAN_101"
    case FunctionShouldBeRemote => "STAN_103"
    case MustHaveMessage => "STAN_104"
    case MustHaveMessageAndError => "STAN_105"
    case InvalidFunctionParamMessage => "STAN_107"
    case InvalidFunctionParamError => "STAN_108"
    case InvalidFunctionParamCaller => "STAN_109"
    case OnlyParamsAllowed => "STAN_110"
    case OnlyParamsAllowedOnError => "STAN_111"
    case InvalidReturnTypeErrorOrNil => "STAN_112"
  }

  /** A diagnostic is identified by its code: distinct errors never share one. */
  lemma CodesDistinct(e1: CompilationError, e2: CompilationError)
    ensures Code(e1) == Code(e2) <==> e1 == e2
  {
    if e1 != e2 {
      assert Code(e1)[5..] != Code(e2)[5..];
    }
  }

  /** The two remote functions a STAN service may declare. */
  datatype Role = OnMessageRole | OnErrorRole

  /**
   * Where a diagnostic points: the service declaration, a function's
   * signature, the whole function definition, or one of its parameters.
   */
  datatype Site =
    | ServiceSite
    | SignatureSite(role: Role)
    | DefinitionSite(role: Role)
    | ParameterSite(role: Role, index: nat)

  datatype Diagnostic = Diagnostic(error: CompilationError, site: Site)

  /** The analysis context: `reportDiagnostic` appends to what it has collected. */
  class AnalysisContext {
    var reported: seq<Diagnostic>

    constructor ()
      ensures reported == []
    {
      reported := [];
    }

    method ReportDiagnostic(d: Diagnostic)
      modifies this
      ensures reported == old(reported) + [d]
    {
      reported := reported + [d];
    }
  }

  /** How many of `ds` carry `error`. */
  function Count(ds: seq<Diagnostic>, error: CompilationError): (n: nat)
    ensures n <= |ds|
    ensures n == 0 <==> forall i :: 0 <= i < |ds| ==> ds[i].error != error
  {
    if |ds| == 0 then 0
    else Count(ds[..|ds| - 1], error) + (if ds[|ds| - 1].error == error then 1 else 0)
  }

  lemma {:induction false} CountAppend(a: seq<Diagnostic>, b: seq<Diagnostic>, error: CompilationError)
    ensures Count(a + b, error) == Count(a, error) + Count(b, error)
    decreases |b|
  {
    if |b| == 0 {
      assert a + b == a;
    } else {
      assert (a + b)[..|a + b| - 1] == a + b[..|b| - 1];
      CountAppend(a, b[..|b| - 1], error);
    }
  }

  /** Regroups the diagnostics a validation step appends after what was already reported. */
  lemma AppendAssociative(a: seq<Diagnostic>, b: seq<Diagnostic>, c: seq<Diagnostic>, d: seq<Diagnostic>)
    ensures a + b + c + d == a + (b + c + d)
  {
  }
}
