/**
 * The older compiler plugin's check of a STAN service's remote functions. It
 * looks only at the syntax: a parameter's type must be written as the
 * qualified name it expects, and the return type's text must be one of four
 * spellings. Every finding is reported through the analysis context.
 */
module SyntacticValidator {
  import opened Common
  import opened Diagnostics

  const PACKAGE_PREFIX: string := "stan"
  const MESSAGE: string := "Message"
  const CALLER: string := "Caller"
  const ERROR: string := "error"
  /** The return-type spellings accepted: `error?`, `()|error`, `stan:Error?`, `()|stan:Error`. */
  const ACCEPTED_RETURN_TYPES: set<string> := {"error?", "()|error", "stan:Error?", "()|stan:Error"}

  /** A parameter's type as written: a qualified name `prefix:identifier`, or anything else. */
  datatype TypeName = QualifiedName(modulePrefix: string, identifier: string) | OtherTypeName

  /**
   * A remote function definition as the validator sees it: whether it carries
   * the `remote` qualifier, its parameters' types, and the text of its
   * return type if it declares one.
   */
  datatype FunctionDefinition = FunctionDefinition(isRemote: bool, parameters: seq<TypeName>, returnType: Option<string>)

  /** A diagnostic about one of the service's functions: it points into that function. */
  predicate About(d: Diagnostic, role: Role)
  {
    d.error != NoOnMessage && !d.site.ServiceSite? && d.site.role == role
  }

  /** The text before the first space, as `split(" ")[0]` gives it. */
  function FirstToken(text: string): (token: string)
    ensures token <= text && ' ' !in token
    ensures |token| < |text| ==> text[|token|] == ' '
  {
    if |text| == 0 || text[0] == ' ' then "" else [text[0]] + FirstToken(text[1..])
  }

  function AsciiUpper(c: char): char
  {
    if 'a' <= c <= 'z' then (c as int - 32) as char else c
  }

  /** `equalsIgnoreCase`, with the ASCII case mapping. */
  predicate EqualsIgnoreCase(a: string, b: string)
  {
    |a| == |b| && forall i :: 0 <= i < |a| ==> AsciiUpper(a[i]) == AsciiUpper(b[i])
  }

  /** An absent return type, or one whose first token is an accepted spelling. */
  predicate ReturnTypeAccepted(returnType: Option<string>)
  {
    returnType.None? || FirstToken(returnType.value) in ACCEPTED_RETURN_TYPES
  }

  /** `validateReturnTypeErrorOrNil`: one diagnostic on the definition when the return type is not accepted. */
  function ReturnTypeDiagnostics(role: Role, f: FunctionDefinition): (ds: seq<Diagnostic>)
    ensures ds == [] <==> ReturnTypeAccepted(f.returnType)
    ensures ds != [] ==> ds == [Diagnostic(InvalidReturnTypeErrorOrNil, DefinitionSite(role))]
  {
    if ReturnTypeAccepted(f.returnType) then [] else [Diagnostic(InvalidReturnTypeErrorOrNil, DefinitionSite(role))]
  }

  /** `validateFirstParam`: the type must be written `stan:Message`. */
  function MessageParamDiagnostics(role: Role, t: TypeName): (ds: seq<Diagnostic>)
    ensures ds == [] <==> t == QualifiedName(PACKAGE_PREFIX, MESSAGE)
    ensures ds != [] ==> ds == [Diagnostic(InvalidFunctionParamMessage, DefinitionSite(role))]
  {
    match t
    case OtherTypeName => [Diagnostic(InvalidFunctionParamMessage, DefinitionSite(role))]
    case QualifiedName(prefix, identifier) =>
      if prefix != PACKAGE_PREFIX || identifier != MESSAGE then [Diagnostic(InvalidFunctionParamMessage, DefinitionSite(role))]
      else []
  }

  /** `validateSecondParam`: the type must be written `stan:Caller`. */
  function CallerParamDiagnostics(t: TypeName): (ds: seq<Diagnostic>)
    ensures ds == [] <==> t == QualifiedName(PACKAGE_PREFIX, CALLER)
    ensures ds != [] ==> ds == [Diagnostic(InvalidFunctionParamCaller, DefinitionSite(OnMessageRole))]
  {
    match t
    case OtherTypeName => [Diagnostic(InvalidFunctionParamCaller, DefinitionSite(OnMessageRole))]
    case QualifiedName(prefix, identifier) =>
      if prefix != PACKAGE_PREFIX || identifier != CALLER then [Diagnostic(InvalidFunctionParamCaller, DefinitionSite(OnMessageRole))]
      else []
  }

  /**
   * `validateErrorParam`: the prefix must be `stan` and, separately, the
   * identifier must be `error` in any letter case; a qualified name that
   * fails both gets two diagnostics, any other type one.
   */
  function ErrorParamDiagnostics(t: TypeName): (ds: seq<Diagnostic>)
    ensures ds == [] <==> t.QualifiedName? && t.modulePrefix == PACKAGE_PREFIX && EqualsIgnoreCase(t.identifier, ERROR)
    ensures |ds| == 2 <==> t.QualifiedName? && t.modulePrefix != PACKAGE_PREFIX && !EqualsIgnoreCase(t.identifier, ERROR)
    ensures forall i :: 0 <= i < |ds| ==> ds[i] == Diagnostic(InvalidFunctionParamError, DefinitionSite(OnErrorRole))
  {
    var d := Diagnostic(InvalidFunctionParamError, DefinitionSite(OnErrorRole));
    match t
    case OtherTypeName => [d]
    case QualifiedName(prefix, identifier) =>
      (if prefix != PACKAGE_PREFIX then [d] else []) + (if !EqualsIgnoreCase(identifier, ERROR) then [d] else [])
  }

  /**
   * `validateFunctionParameters` for `onMessage`: one or two parameters are
   * checked one by one; none gives "must have the message", more than two
   * gives the count error alone.
   */
  function OnMessageParameterDiagnostics(f: FunctionDefinition): (ds: seq<Diagnostic>)
    ensures |f.parameters| == 0 ==> ds == [Diagnostic(MustHaveMessage, SignatureSite(OnMessageRole))]
    ensures |f.parameters| > 2 ==> ds == [Diagnostic(OnlyParamsAllowed, SignatureSite(OnMessageRole))]
    ensures ds == [] <==> 1 <= |f.parameters| <= 2 && f.parameters[0] == QualifiedName(PACKAGE_PREFIX, MESSAGE) &&
                          (|f.parameters| == 2 ==> f.parameters[1] == QualifiedName(PACKAGE_PREFIX, CALLER))
    ensures forall i :: 0 <= i < |ds| ==> About(ds[i], OnMessageRole)
  {
    var n := |f.parameters|;
    (if n == 1 then MessageParamDiagnostics(OnMessageRole, f.parameters[0])
     else if n == 2 then MessageParamDiagnostics(OnMessageRole, f.parameters[0]) + CallerParamDiagnostics(f.parameters[1])
     else []) +
    (if n < 1 then [Diagnostic(MustHaveMessage, SignatureSite(OnMessageRole))] else []) +
    (if n > 2 then [Diagnostic(OnlyParamsAllowed, SignatureSite(OnMessageRole))] else [])
  }

  /**
   * `validateOnErrorFunctionParameters`: with two or more parameters the
   * first two are checked; fewer than two gives "must have message and
   * error", more than two adds the count error after the per-parameter ones.
   */
  function OnErrorParameterDiagnostics(f: FunctionDefinition): (ds: seq<Diagnostic>)
    ensures |f.parameters| < 2 ==> ds == [Diagnostic(MustHaveMessageAndError, SignatureSite(OnErrorRole))]
    ensures |f.parameters| > 2 ==> |ds| > 0 && ds[|ds| - 1] == Diagnostic(OnlyParamsAllowedOnError, SignatureSite(OnErrorRole))
    ensures ds == [] <==> |f.parameters| == 2 && f.parameters[0] == QualifiedName(PACKAGE_PREFIX, MESSAGE) &&
                          ErrorParamDiagnostics(f.parameters[1]) == []
    ensures forall i :: 0 <= i < |ds| ==> About(ds[i], OnErrorRole)
  {
    var n := |f.parameters|;
    (if n > 1 then MessageParamDiagnostics(OnErrorRole, f.parameters[0]) + ErrorParamDiagnostics(f.parameters[1]) else []) +
    (if n < 2 then [Diagnostic(MustHaveMessageAndError, SignatureSite(OnErrorRole))] else []) +
    (if n > 2 then [Diagnostic(OnlyParamsAllowedOnError, SignatureSite(OnErrorRole))] else [])
  }

  function RemoteDiagnostics(role: Role, f: FunctionDefinition): (ds: seq<Diagnostic>)
    ensures ds == [] <==> f.isRemote
    ensures ds != [] ==> ds == [Diagnostic(FunctionShouldBeRemote, SignatureSite(role))]
  {
    if f.isRemote then [] else [Diagnostic(FunctionShouldBeRemote, SignatureSite(role))]
  }

  /** `validateOnMessage`: the qualifier, then the parameters, then the return type. */
  function OnMessageDiagnostics(f: FunctionDefinition): (ds: seq<Diagnostic>)
    ensures forall i :: 0 <= i < |ds| ==> About(ds[i], OnMessageRole)
  {
    RemoteDiagnostics(OnMessageRole, f) + OnMessageParameterDiagnostics(f) + ReturnTypeDiagnostics(OnMessageRole, f)
  }

  /** `validateOnError`: the qualifier, then the parameters, then the return type. */
  function OnErrorDiagnostics(f: FunctionDefinition): (ds: seq<Diagnostic>)
    ensures forall i :: 0 <= i < |ds| ==> About(ds[i], OnErrorRole)
  {
    RemoteDiagnostics(OnErrorRole, f) + OnErrorParameterDiagnostics(f) + ReturnTypeDiagnostics(OnErrorRole, f)
  }

  /** `validate`: the mandatory `onMessage`, then each function that is present. */
  function ValidationDiagnostics(onMessage: Option<FunctionDefinition>, onError: Option<FunctionDefinition>): seq<Diagnostic>
  {
    (if onMessage.None? then [Diagnostic(NoOnMessage, ServiceSite)] else []) +
    (if onMessage.Some? then OnMessageDiagnostics(onMessage.value) else []) +
    (if onError.Some? then OnErrorDiagnostics(onError.value) else [])
  }

  /** The `onMessage` the plugin accepts, stated directly. */
  predicate WellFormedOnMessage(f: FunctionDefinition)
  {
    && f.isRemote
    && (f.parameters == [QualifiedName("stan", "Message")] ||
        f.parameters == [QualifiedName("stan", "Message"), QualifiedName("stan", "Caller")])
    && (f.returnType.Some? ==> FirstToken(f.returnType.value) in ACCEPTED_RETURN_TYPES)
  }

  /** The `onError` the plugin accepts, stated directly. */
  predicate WellFormedOnError(f: FunctionDefinition)
  {
    && f.isRemote
    && |f.parameters| == 2
    && f.parameters[0] == QualifiedName("stan", "Message")
    && f.parameters[1].QualifiedName? && f.parameters[1].modulePrefix == "stan"
    && EqualsIgnoreCase(f.parameters[1].identifier, "error")
    && (f.returnType.Some? ==> FirstToken(f.returnType.value) in ACCEPTED_RETURN_TYPES)
  }

  lemma OnMessageAccepted(f: FunctionDefinition)
    ensures OnMessageDiagnostics(f) == [] <==> WellFormedOnMessage(f)
  {
    var ps := f.parameters;
    if |ps| == 1 && ps[0] == QualifiedName(PACKAGE_PREFIX, MESSAGE) {
      assert ps == [QualifiedName("stan", "Message")];
    }
    if |ps| == 2 && ps[0] == QualifiedName(PACKAGE_PREFIX, MESSAGE) && ps[1] == QualifiedName(PACKAGE_PREFIX, CALLER) {
      assert ps == [QualifiedName("stan", "Message"), QualifiedName("stan", "Caller")];
    }
  }

  lemma OnErrorAccepted(f: FunctionDefinition)
    ensures OnErrorDiagnostics(f) == [] <==> WellFormedOnError(f)
  {
  }

  /** A service passes exactly when it has a well-formed `onMessage` and any `onError` is well formed. */
  lemma ServiceAccepted(onMessage: Option<FunctionDefinition>, onError: Option<FunctionDefinition>)
    ensures ValidationDiagnostics(onMessage, onError) == [] <==>
              onMessage.Some? && WellFormedOnMessage(onMessage.value) &&
              (onError.Some? ==> WellFormedOnError(onError.value))
  {
    if onMessage.Some? {
      OnMessageAccepted(onMessage.value);
    }
    if onError.Some? {
      OnErrorAccepted(onError.value);
    }
  }

  /** "Service must have remote function onMessage" is reported once exactly when `onMessage` is missing. */
  lemma {:induction false} MissingOnMessageReportedOnce(onMessage: Option<FunctionDefinition>, onError: Option<FunctionDefinition>)
    ensures Count(ValidationDiagnostics(onMessage, onError), NoOnMessage) == if onMessage.None? then 1 else 0
  {
    var head := if onMessage.None? then [Diagnostic(NoOnMessage, ServiceSite)] else [];
    var middle := if onMessage.Some? then OnMessageDiagnostics(onMessage.value) else [];
    var tail := if onError.Some? then OnErrorDiagnostics(onError.value) else [];
    assert Count(middle, NoOnMessage) == 0;
    assert Count(tail, NoOnMessage) == 0;
    CountAppend(head + middle, tail, NoOnMessage);
    CountAppend(head, middle, NoOnMessage);
    if onMessage.None? {
      assert Count(head, NoOnMessage) == 1 by {
        assert head[..0] == [];
      }
    }
  }

  /**
   * The older validator: it holds the analysis context and the service's
   * `onMessage` and `onError` definitions (absent when not declared).
   */
  class FunctionValidator {
    const context: AnalysisContext
    const onMessage: Option<FunctionDefinition>
    const onError: Option<FunctionDefinition>

    constructor (context: AnalysisContext, onMessage: Option<FunctionDefinition>, onError: Option<FunctionDefinition>)
      ensures this.context == context && this.onMessage == onMessage && this.onError == onError
    {
      this.context := context;
      this.onMessage := onMessage;
      this.onError := onError;
    }

    /** Reports, in order, every diagnostic the service's remote functions call for, and nothing else. */
    method Validate()
      modifies context
      ensures context.reported == old(context.reported) + ValidationDiagnostics(onMessage, onError)
    {
      ghost var head := if onMessage.None? then [Diagnostic(NoOnMessage, ServiceSite)] else [];
      ghost var middle := if onMessage.Some? then OnMessageDiagnostics(onMessage.value) else [];
      ghost var tail := if onError.Some? then OnErrorDiagnostics(onError.value) else [];
      ValidateMandatoryFunction();
      if onMessage.Some? {
        ValidateOnMessage(onMessage.value);
      }
      if onError.Some? {
        ValidateOnError(onError.value);
      }
      assert ValidationDiagnostics(onMessage, onError) == head + middle + tail;
      AppendAssociative(old(context.reported), head, middle, tail);
    }

    method ValidateMandatoryFunction()
      modifies context
      ensures context.reported == old(context.reported) + if onMessage.None? then [Diagnostic(NoOnMessage, ServiceSite)] else []
    {
      if onMessage.None? {
        context.ReportDiagnostic(Diagnostic(NoOnMessage, ServiceSite));
      }
    }

    method ValidateOnMessage(f: FunctionDefinition)
      modifies context
      ensures context.reported == old(context.reported) + OnMessageDiagnostics(f)
    {
      if !f.isRemote {
        context.ReportDiagnostic(Diagnostic(FunctionShouldBeRemote, SignatureSite(OnMessageRole)));
      }
      ValidateFunctionParameters(f);
      ValidateReturnTypeErrorOrNil(OnMessageRole, f);
      AppendAssociative(old(context.reported), RemoteDiagnostics(OnMessageRole, f), OnMessageParameterDiagnostics(f), ReturnTypeDiagnostics(OnMessageRole, f));
    }

    method ValidateOnError(f: FunctionDefinition)
      modifies context
      ensures context.reported == old(context.reported) + OnErrorDiagnostics(f)
    {
      if !f.isRemote {
        context.ReportDiagnostic(Diagnostic(FunctionShouldBeRemote, SignatureSite(OnErrorRole)));
      }
      ValidateOnErrorFunctionParameters(f);
      ValidateReturnTypeErrorOrNil(OnErrorRole, f);
      AppendAssociative(old(context.reported), RemoteDiagnostics(OnErrorRole, f), OnErrorParameterDiagnostics(f), ReturnTypeDiagnostics(OnErrorRole, f));
    }

    method ValidateReturnTypeErrorOrNil(role: Role, f: FunctionDefinition)
      modifies context
      ensures context.reported == old(context.reported) + ReturnTypeDiagnostics(role, f)
    {
      if f.returnType.Some? {
        var returnType := FirstToken(f.returnType.value);
        if returnType !in ACCEPTED_RETURN_TYPES {
          context.ReportDiagnostic(Diagnostic(InvalidReturnTypeErrorOrNil, DefinitionSite(role)));
        }
      }
    }

    method ValidateFunctionParameters(f: FunctionDefinition)
      modifies context
      ensures context.reported == old(context.reported) + OnMessageParameterDiagnostics(f)
    {
      var parameters := f.parameters;
      if |parameters| == 1 {
        ValidateFirstParam(OnMessageRole, parameters[0]);
      } else if |parameters| == 2 {
        ValidateFirstParam(OnMessageRole, parameters[0]);
        ValidateTypedParam(parameters[1], CALLER, InvalidFunctionParamCaller, OnMessageRole);
      }
      if |parameters| < 1 {
        context.ReportDiagnostic(Diagnostic(MustHaveMessage, SignatureSite(OnMessageRole)));
      }
      if |parameters| > 2 {
        context.ReportDiagnostic(Diagnostic(OnlyParamsAllowed, SignatureSite(OnMessageRole)));
      }
    }

    method ValidateOnErrorFunctionParameters(f: FunctionDefinition)
      modifies context
      ensures context.reported == old(context.reported) + OnErrorParameterDiagnostics(f)
    {
      var parameters := f.parameters;
      if |parameters| > 1 {
        ValidateFirstParam(OnErrorRole, parameters[0]);
        ValidateErrorParam(parameters[1]);
      }
      if |parameters| < 2 {
        context.ReportDiagnostic(Diagnostic(MustHaveMessageAndError, SignatureSite(OnErrorRole)));
      }
      if |parameters| > 2 {
        context.ReportDiagnostic(Diagnostic(OnlyParamsAllowedOnError, SignatureSite(OnErrorRole)));
      }
    }

    method ValidateFirstParam(role: Role, t: TypeName)
      modifies context
      ensures context.reported == old(context.reported) + MessageParamDiagnostics(role, t)
    {
      ValidateTypedParam(t, MESSAGE, InvalidFunctionParamMessage, role);
    }

    /** A parameter that must be written `stan:<identifier>`, reported as `error` otherwise. */
    method ValidateTypedParam(t: TypeName, identifier: string, error: CompilationError, role: Role)
      modifies context
      ensures context.reported == old(context.reported) +
                                  if t == QualifiedName(PACKAGE_PREFIX, identifier) then [] else [Diagnostic(error, DefinitionSite(role))]
    {
      if !t.QualifiedName? {
        context.ReportDiagnostic(Diagnostic(error, DefinitionSite(role)));
      } else if t.modulePrefix != PACKAGE_PREFIX || t.identifier != identifier {
        context.ReportDiagnostic(Diagnostic(error, DefinitionSite(role)));
      }
    }

    method ValidateErrorParam(t: TypeName)
      modifies context
      ensures context.reported == old(context.reported) + ErrorParamDiagnostics(t)
    {
      var d := Diagnostic(InvalidFunctionParamError, DefinitionSite(OnErrorRole));
      if !t.QualifiedName? {
        context.ReportDiagnostic(d);
      } else {
        if t.modulePrefix != PACKAGE_PREFIX {
          context.ReportDiagnostic(d);
        }
        if !EqualsIgnoreCase(t.identifier, ERROR) {
          context.ReportDiagnostic(d);
        }
      }
    }
  }
}
