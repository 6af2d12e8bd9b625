/**
 * The newer compiler plugin's check of a STAN service's remote methods. It
 * asks the semantic model: the message parameter's type may reach
 * `stan:Message` through aliases declared in other modules, the caller and
 * error parameters must resolve to the `stan` module's `Caller` and `Error`,
 * and the return type must be nil or a union of nil and error types.
 *
 * Whether a module is the `stan` module is decided by a helper that is not
 * part of this model; it is the `isStanModule` parameter.
 */
module SemanticValidator {
  import opened Common
  import opened Diagnostics

  const MESSAGE: string := "Message"
  const CALLER: string := "Caller"
  const ERROR_PARAM: string := "Error"
  const ERROR: string := "error"

  /** A module as the semantic model names it. */
  datatype ModuleSymbol = ModuleSymbol(org: string, name: string)

  /**
   * A type as the semantic model describes it. A type reference names a
   * declared type (its module and name may be unknown) and refers to the
   * type it stands for; every chain of references is finite.
   */
  datatype TypeSymbol =
    | TypeReference(moduleSymbol: Option<ModuleSymbol>, name: Option<string>, signature: string, referred: TypeSymbol)
    | NilType
    | ErrorType
    | UnionType(members: seq<TypeSymbol>)
    | OtherType

  /** The symbol a qualified type name resolves to. */
  datatype NamedSymbol = NamedSymbol(moduleSymbol: Option<ModuleSymbol>, name: Option<string>)

  /** A parameter's type as written: a qualified name with what it resolves to, if anything, or another form. */
  datatype TypeName = QualifiedNameRef(symbol: Option<NamedSymbol>) | OtherTypeName

  /** A required parameter: the type of its symbol (absent when the model has no symbol for it) and its type as written. */
  datatype Parameter = Parameter(declaredType: Option<TypeSymbol>, typeName: TypeName)

  /** What the method symbol says of the return type: no method symbol, no return type, or the type. */
  datatype ReturnInfo = NoMethodSymbol | NoReturnType | Returns(returnType: TypeSymbol)

  datatype MethodDefinition = MethodDefinition(isRemote: bool, parameters: seq<Parameter>, returnInfo: ReturnInfo)

  /**
   * `isValidParamTypeMessage`: a reference in another module is followed to
   * the type it refers to while that is a reference too; a reference in the
   * `stan` module is valid when it is named `Message`; a reference whose
   * module is unknown is not.
   */
  function IsValidParamTypeMessage(t: TypeSymbol, isStanModule: ModuleSymbol -> bool): bool
    requires t.TypeReference?
    decreases t
  {
    match t.moduleSymbol
    case None => false
    case Some(m) =>
      if !isStanModule(m) then t.referred.TypeReference? && IsValidParamTypeMessage(t.referred, isStanModule)
      else t.name == Some(MESSAGE)
  }

  /** The type reached from `t` after following `n` references (stopping at a type that is not one). */
  function Follow(t: TypeSymbol, n: nat): TypeSymbol
  {
    if n == 0 || !t.TypeReference? then t else Follow(t.referred, n - 1)
  }

  /** A reference, in a known module other than `stan`, that the check looks through. */
  predicate PassesThrough(t: TypeSymbol, isStanModule: ModuleSymbol -> bool)
  {
    t.TypeReference? && t.moduleSymbol.Some? && !isStanModule(t.moduleSymbol.value)
  }

  /** The `stan` module's `Message` type. */
  predicate IsStanMessage(t: TypeSymbol, isStanModule: ModuleSymbol -> bool)
  {
    t.TypeReference? && t.moduleSymbol.Some? && isStanModule(t.moduleSymbol.value) && t.name == Some(MESSAGE)
  }

  /** `t` is a chain of references through other modules ending at `stan:Message`. */
  ghost predicate ReachesStanMessage(t: TypeSymbol, isStanModule: ModuleSymbol -> bool)
  {
    exists n: nat :: IsStanMessage(Follow(t, n), isStanModule) &&
                     forall j :: 0 <= j < n ==> PassesThrough(Follow(t, j), isStanModule)
  }

  /**
   * The message type check accepts exactly the chains of aliases from other
   * modules that end at `stan:Message`.
   */
  lemma {:induction false} ParamTypeMessageFollowsAliases(t: TypeSymbol, isStanModule: ModuleSymbol -> bool)
    requires t.TypeReference?
    ensures IsValidParamTypeMessage(t, isStanModule) <==> ReachesStanMessage(t, isStanModule)
    decreases t
  {
    if IsValidParamTypeMessage(t, isStanModule) {
      if isStanModule(t.moduleSymbol.value) {
        assert Follow(t, 0) == t;
        assert IsStanMessage(Follow(t, 0), isStanModule);
      } else {
        var r := t.referred;
        ParamTypeMessageFollowsAliases(r, isStanModule);
        var n: nat :| IsStanMessage(Follow(r, n), isStanModule) &&
                      forall j :: 0 <= j < n ==> PassesThrough(Follow(r, j), isStanModule);
        assert Follow(t, n + 1) == Follow(r, n);
        forall j | 0 <= j < n + 1
          ensures PassesThrough(Follow(t, j), isStanModule)
        {
          if j > 0 {
            assert Follow(t, j) == Follow(r, j - 1);
          }
        }
      }
    }
    if exists n: nat :: IsStanMessage(Follow(t, n), isStanModule) &&
                        forall j :: 0 <= j < n ==> PassesThrough(Follow(t, j), isStanModule) {
      var n: nat :| IsStanMessage(Follow(t, n), isStanModule) &&
                    forall j :: 0 <= j < n ==> PassesThrough(Follow(t, j), isStanModule);
      if n > 0 {
        assert PassesThrough(Follow(t, 0), isStanModule);
        var r := t.referred;
        assert Follow(t, 1) == r;
        assert r.TypeReference? by {
          if n == 1 {
            assert IsStanMessage(Follow(t, 1), isStanModule);
          } else {
            assert PassesThrough(Follow(t, 1), isStanModule);
          }
        }
        forall j | 0 <= j < n - 1
          ensures PassesThrough(Follow(r, j), isStanModule)
        {
          assert Follow(t, j + 1) == Follow(r, j);
        }
        assert Follow(t, n) == Follow(r, n - 1);
        ParamTypeMessageFollowsAliases(r, isStanModule);
      }
    }
  }

  /** `validateFirstParam`: no symbol, no finding; otherwise the type must be a reference that reaches `stan:Message`. */
  function MessageParamDiagnostics(role: Role, p: Parameter, isStanModule: ModuleSymbol -> bool): (ds: seq<Diagnostic>)
    ensures ds == [] <==> p.declaredType.None? ||
                          (p.declaredType.value.TypeReference? && IsValidParamTypeMessage(p.declaredType.value, isStanModule))
    ensures ds != [] ==> ds == [Diagnostic(InvalidFunctionParamMessage, ParameterSite(role, 0))]
  {
    match p.declaredType
    case None => []
    case Some(t) =>
      if t.TypeReference? && IsValidParamTypeMessage(t, isStanModule) then []
      else [Diagnostic(InvalidFunctionParamMessage, ParameterSite(role, 0))]
  }

  /**
   * A qualified name is accepted when it resolves to the `stan` module's type
   * `expected`, or when its symbol or the symbol's module is unknown; any
   * other form of type is not.
   */
  predicate NamedTypeAccepted(t: TypeName, expected: string, isStanModule: ModuleSymbol -> bool)
  {
    match t
    case OtherTypeName => false
    case QualifiedNameRef(None) => true
    case QualifiedNameRef(Some(symbol)) =>
      symbol.moduleSymbol.None? || (isStanModule(symbol.moduleSymbol.value) && symbol.name.GetOr("") == expected)
  }

  /** `validateSecondParam` and `validateErrorParam`: one finding at the second parameter unless accepted. */
  function NamedParamDiagnostics(role: Role, p: Parameter, expected: string, error: CompilationError,
                                 isStanModule: ModuleSymbol -> bool): (ds: seq<Diagnostic>)
    ensures ds == [] <==> NamedTypeAccepted(p.typeName, expected, isStanModule)
    ensures ds != [] ==> ds == [Diagnostic(error, ParameterSite(role, 1))]
  {
    var d := Diagnostic(error, ParameterSite(role, 1));
    match p.typeName
    case OtherTypeName => [d]
    case QualifiedNameRef(None) => []
    case QualifiedNameRef(Some(symbol)) =>
      match symbol.moduleSymbol
      case None => []
      case Some(m) =>
        var paramName := symbol.name.GetOr("");
        if !isStanModule(m) || paramName != expected then [d] else []
  }

  /** A union member's module is known wherever the return check asks for it. */
  predicate ModuleKnown(t: TypeSymbol)
  {
    t.TypeReference? && t.signature != ERROR ==> t.moduleSymbol.Some?
  }

  /** What the return type check asks of the return type. */
  predicate ReturnModulesKnown(returnInfo: ReturnInfo)
  {
    returnInfo.Returns? && returnInfo.returnType.UnionType? ==>
      forall i :: 0 <= i < |returnInfo.returnType.members| ==> ModuleKnown(returnInfo.returnType.members[i])
  }

  /** An acceptable member of a returned union: nil, an error type, or a reference to `error` or into `stan`. */
  predicate ValidReturnMember(t: TypeSymbol, isStanModule: ModuleSymbol -> bool)
    requires ModuleKnown(t)
  {
    || t.NilType?
    || t.ErrorType?
    || (t.TypeReference? && (t.signature == ERROR || isStanModule(t.moduleSymbol.value)))
  }

  /** The findings for the union members, in order: one per member that is not acceptable. */
  function UnionDiagnostics(role: Role, members: seq<TypeSymbol>, isStanModule: ModuleSymbol -> bool): (ds: seq<Diagnostic>)
    requires forall i :: 0 <= i < |members| ==> ModuleKnown(members[i])
    ensures |ds| <= |members|
    ensures forall i :: 0 <= i < |ds| ==> ds[i] == Diagnostic(InvalidReturnTypeErrorOrNil, DefinitionSite(role))
  {
    if |members| == 0 then []
    else
      var last := members[|members| - 1];
      assert ModuleKnown(last);
      var d := Diagnostic(InvalidReturnTypeErrorOrNil, DefinitionSite(role));
      var reported :=
        if last.NilType? then false
        else if last.TypeReference? then last.signature != ERROR && !isStanModule(last.moduleSymbol.value)
        else !last.ErrorType?;
      UnionDiagnostics(role, members[..|members| - 1], isStanModule) + (if reported then [d] else [])
  }

  /** A returned union draws no finding exactly when every member is acceptable. */
  lemma {:induction false} UnionAccepted(role: Role, members: seq<TypeSymbol>, isStanModule: ModuleSymbol -> bool)
    requires forall i :: 0 <= i < |members| ==> ModuleKnown(members[i])
    ensures UnionDiagnostics(role, members, isStanModule) == [] <==>
              forall i :: 0 <= i < |members| ==> ValidReturnMember(members[i], isStanModule)
    decreases |members|
  {
    if |members| > 0 {
      var init := members[..|members| - 1];
      UnionAccepted(role, init, isStanModule);
      assert forall i :: 0 <= i < |init| ==> init[i] == members[i];
    }
  }

  /**
   * `validateReturnTypeErrorOrNil`: nothing without a method symbol or a
   * return type; a union is checked member by member; any other type must
   * be nil.
   */
  function ReturnTypeDiagnostics(role: Role, returnInfo: ReturnInfo, isStanModule: ModuleSymbol -> bool): (ds: seq<Diagnostic>)
    requires ReturnModulesKnown(returnInfo)
    ensures returnInfo.Returns? && !returnInfo.returnType.UnionType? ==>
              (ds == [] <==> returnInfo.returnType.NilType?)
    ensures !returnInfo.Returns? ==> ds == []
    ensures forall i :: 0 <= i < |ds| ==> ds[i] == Diagnostic(InvalidReturnTypeErrorOrNil, DefinitionSite(role))
  {
    match returnInfo
    case Returns(t) =>
      if t.UnionType? then UnionDiagnostics(role, t.members, isStanModule)
      else if t.NilType? then []
      else [Diagnostic(InvalidReturnTypeErrorOrNil, DefinitionSite(role))]
    case _ => []
  }

  /** The return type the plugin accepts, stated directly. */
  predicate ReturnAccepted(returnInfo: ReturnInfo, isStanModule: ModuleSymbol -> bool)
    requires ReturnModulesKnown(returnInfo)
  {
    match returnInfo
    case Returns(t) =>
      if t.UnionType? then forall i :: 0 <= i < |t.members| ==> ValidReturnMember(t.members[i], isStanModule)
      else t.NilType?
    case _ => true
  }

  lemma ReturnTypeAccepted(role: Role, returnInfo: ReturnInfo, isStanModule: ModuleSymbol -> bool)
    requires ReturnModulesKnown(returnInfo)
    ensures ReturnTypeDiagnostics(role, returnInfo, isStanModule) == [] <==> ReturnAccepted(returnInfo, isStanModule)
  {
    if returnInfo.Returns? && returnInfo.returnType.UnionType? {
      UnionAccepted(role, returnInfo.returnType.members, isStanModule);
    }
  }

  /** The service-level requirement on both methods' return types. */
  predicate ReturnsChecked(onMessage: Option<MethodDefinition>, onError: Option<MethodDefinition>)
  {
    (onMessage.Some? ==> ReturnModulesKnown(onMessage.value.returnInfo)) &&
    (onError.Some? ==> ReturnModulesKnown(onError.value.returnInfo))
  }

  /** `validateFunctionParameters` for `onMessage`. */
  function OnMessageParameterDiagnostics(f: MethodDefinition, isStanModule: ModuleSymbol -> bool): (ds: seq<Diagnostic>)
    ensures |f.parameters| == 0 ==> ds == [Diagnostic(MustHaveMessage, SignatureSite(OnMessageRole))]
    ensures |f.parameters| > 2 ==> ds == [Diagnostic(OnlyParamsAllowed, SignatureSite(OnMessageRole))]
  {
    var n := |f.parameters|;
    (if n == 1 then MessageParamDiagnostics(OnMessageRole, f.parameters[0], isStanModule)
     else if n == 2 then
       MessageParamDiagnostics(OnMessageRole, f.parameters[0], isStanModule) +
       NamedParamDiagnostics(OnMessageRole, f.parameters[1], CALLER, InvalidFunctionParamCaller, isStanModule)
     else []) +
    (if n < 1 then [Diagnostic(MustHaveMessage, SignatureSite(OnMessageRole))] else []) +
    (if n > 2 then [Diagnostic(OnlyParamsAllowed, SignatureSite(OnMessageRole))] else [])
  }

  /** `validateOnErrorFunctionParameters`. */
  function OnErrorParameterDiagnostics(f: MethodDefinition, isStanModule: ModuleSymbol -> bool): (ds: seq<Diagnostic>)
    ensures |f.parameters| < 2 ==> ds == [Diagnostic(MustHaveMessageAndError, SignatureSite(OnErrorRole))]
    ensures |f.parameters| > 2 ==> |ds| > 0 && ds[|ds| - 1] == Diagnostic(OnlyParamsAllowedOnError, SignatureSite(OnErrorRole))
  {
    var n := |f.parameters|;
    (if n > 1 then
       MessageParamDiagnostics(OnErrorRole, f.parameters[0], isStanModule) +
       NamedParamDiagnostics(OnErrorRole, f.parameters[1], ERROR_PARAM, InvalidFunctionParamError, isStanModule)
     else []) +
    (if n < 2 then [Diagnostic(MustHaveMessageAndError, SignatureSite(OnErrorRole))] else []) +
    (if n > 2 then [Diagnostic(OnlyParamsAllowedOnError, SignatureSite(OnErrorRole))] else [])
  }

  function RemoteDiagnostics(role: Role, f: MethodDefinition): (ds: seq<Diagnostic>)
    ensures ds == [] <==> f.isRemote
    ensures ds != [] ==> ds == [Diagnostic(FunctionShouldBeRemote, SignatureSite(role))]
  {
    if f.isRemote then [] else [Diagnostic(FunctionShouldBeRemote, SignatureSite(role))]
  }

  /** `validateOnMessage`: the qualifier, then the parameters, then the return type. */
  function OnMessageDiagnostics(f: MethodDefinition, isStanModule: ModuleSymbol -> bool): seq<Diagnostic>
    requires ReturnModulesKnown(f.returnInfo)
  {
    RemoteDiagnostics(OnMessageRole, f) + OnMessageParameterDiagnostics(f, isStanModule) +
    ReturnTypeDiagnostics(OnMessageRole, f.returnInfo, isStanModule)
  }

  /** `validateOnError`: the qualifier, then the parameters, then the return type. */
  function OnErrorDiagnostics(f: MethodDefinition, isStanModule: ModuleSymbol -> bool): seq<Diagnostic>
    requires ReturnModulesKnown(f.returnInfo)
  {
    RemoteDiagnostics(OnErrorRole, f) + OnErrorParameterDiagnostics(f, isStanModule) +
    ReturnTypeDiagnostics(OnErrorRole, f.returnInfo, isStanModule)
  }

  /** `validate`: the mandatory `onMessage`, then each method that is present, once. */
  function ValidationDiagnostics(onMessage: Option<MethodDefinition>, onError: Option<MethodDefinition>,
                                 isStanModule: ModuleSymbol -> bool): seq<Diagnostic>
    requires ReturnsChecked(onMessage, onError)
  {
    (if onMessage.None? then [Diagnostic(NoOnMessage, ServiceSite)] else []) +
    (if onMessage.Some? then OnMessageDiagnostics(onMessage.value, isStanModule) else []) +
    (if onError.Some? then OnErrorDiagnostics(onError.value, isStanModule) else [])
  }

  /** The `onMessage` the plugin accepts, stated directly. */
  ghost predicate WellFormedOnMessage(f: MethodDefinition, isStanModule: ModuleSymbol -> bool)
    requires ReturnModulesKnown(f.returnInfo)
  {
    && f.isRemote
    && 1 <= |f.parameters| <= 2
    && (f.parameters[0].declaredType.Some? ==>
          ReachesStanMessage(f.parameters[0].declaredType.value, isStanModule))
    && (|f.parameters| == 2 ==> NamedTypeAccepted(f.parameters[1].typeName, "Caller", isStanModule))
    && ReturnAccepted(f.returnInfo, isStanModule)
  }

  /** The `onError` the plugin accepts, stated directly. */
  ghost predicate WellFormedOnError(f: MethodDefinition, isStanModule: ModuleSymbol -> bool)
    requires ReturnModulesKnown(f.returnInfo)
  {
    && f.isRemote
    && |f.parameters| == 2
    && (f.parameters[0].declaredType.Some? ==>
          ReachesStanMessage(f.parameters[0].declaredType.value, isStanModule))
    && NamedTypeAccepted(f.parameters[1].typeName, "Error", isStanModule)
    && ReturnAccepted(f.returnInfo, isStanModule)
  }

  /** A message parameter draws no finding exactly when its type is unknown or is an alias chain ending at `stan:Message`. */
  lemma MessageParamAccepted(role: Role, p: Parameter, isStanModule: ModuleSymbol -> bool)
    ensures MessageParamDiagnostics(role, p, isStanModule) == [] <==>
              (p.declaredType.Some? ==> ReachesStanMessage(p.declaredType.value, isStanModule))
  {
    if p.declaredType.Some? {
      var t := p.declaredType.value;
      if t.TypeReference? {
        ParamTypeMessageFollowsAliases(t, isStanModule);
      } else {
        assert forall n: nat :: Follow(t, n) == t;
      }
    }
  }

  lemma OnMessageAccepted(f: MethodDefinition, isStanModule: ModuleSymbol -> bool)
    requires ReturnModulesKnown(f.returnInfo)
    ensures OnMessageDiagnostics(f, isStanModule) == [] <==> WellFormedOnMessage(f, isStanModule)
  {
    ReturnTypeAccepted(OnMessageRole, f.returnInfo, isStanModule);
    if 1 <= |f.parameters| <= 2 {
      MessageParamAccepted(OnMessageRole, f.parameters[0], isStanModule);
    }
  }

  lemma OnErrorAccepted(f: MethodDefinition, isStanModule: ModuleSymbol -> bool)
    requires ReturnModulesKnown(f.returnInfo)
    ensures OnErrorDiagnostics(f, isStanModule) == [] <==> WellFormedOnError(f, isStanModule)
  {
    ReturnTypeAccepted(OnErrorRole, f.returnInfo, isStanModule);
    if |f.parameters| > 1 {
      MessageParamAccepted(OnErrorRole, f.parameters[0], isStanModule);
    }
  }

  /** A service passes exactly when it has a well-formed `onMessage` and any `onError` is well formed. */
  lemma ServiceAccepted(onMessage: Option<MethodDefinition>, onError: Option<MethodDefinition>,
                        isStanModule: ModuleSymbol -> bool)
    requires ReturnsChecked(onMessage, onError)
    ensures ValidationDiagnostics(onMessage, onError, isStanModule) == [] <==>
              onMessage.Some? && WellFormedOnMessage(onMessage.value, isStanModule) &&
              (onError.Some? ==> WellFormedOnError(onError.value, isStanModule))
  {
    if onMessage.Some? {
      OnMessageAccepted(onMessage.value, isStanModule);
    }
    if onError.Some? {
      OnErrorAccepted(onError.value, isStanModule);
    }
  }

  /**
   * The newer validator: it holds the analysis context, the service's
   * `onMessage` and `onError` definitions (absent when not declared) and the
   * `stan`-module test.
   */
  class FunctionValidator {
    const context: AnalysisContext
    const onMessage: Option<MethodDefinition>
    const onError: Option<MethodDefinition>
    const isStanModule: ModuleSymbol -> bool

    constructor (context: AnalysisContext, onMessage: Option<MethodDefinition>, onError: Option<MethodDefinition>,
                 isStanModule: ModuleSymbol -> bool)
      ensures this.context == context && this.onMessage == onMessage && this.onError == onError
      ensures this.isStanModule == isStanModule
    {
      this.context := context;
      this.onMessage := onMessage;
      this.onError := onError;
      this.isStanModule := isStanModule;
    }

    /** Reports, in order, every diagnostic the service's remote methods call for, and nothing else. */
    method Validate()
      requires ReturnsChecked(onMessage, onError)
      modifies context
      ensures context.reported == old(context.reported) + ValidationDiagnostics(onMessage, onError, isStanModule)
    {
      ghost var head := if onMessage.None? then [Diagnostic(NoOnMessage, ServiceSite)] else [];
      ghost var middle := if onMessage.Some? then OnMessageDiagnostics(onMessage.value, isStanModule) else [];
      ghost var tail := if onError.Some? then OnErrorDiagnostics(onError.value, isStanModule) else [];
      ValidateMandatoryFunction();
      if onMessage.Some? {
        ValidateOnMessage(onMessage.value);
      }
      if onError.Some? {
        ValidateOnError(onError.value);
      }
      assert ValidationDiagnostics(onMessage, onError, isStanModule) == head + middle + tail;
      AppendAssociative(old(context.reported), head, middle, tail);
    }

    method ValidateMandatoryFunction()
      modifies context
      ensures context.reported == old(context.reported) + if onMessage.None? then [Diagnostic(NoOnMessage, ServiceSite)] else []
    {
      if onMessage.None? {
        context.ReportDiagnostic(Diagnostic(NoOnMessage, ServiceSite));
      }
    }

    method ValidateOnMessage(f: MethodDefinition)
      requires ReturnModulesKnown(f.returnInfo)
      modifies context
      ensures context.reported == old(context.reported) + OnMessageDiagnostics(f, isStanModule)
    {
      if !f.isRemote {
        context.ReportDiagnostic(Diagnostic(FunctionShouldBeRemote, SignatureSite(OnMessageRole)));
      }
      ValidateFunctionParameters(f);
      ValidateReturnTypeErrorOrNil(OnMessageRole, f.returnInfo);
      AppendAssociative(old(context.reported), RemoteDiagnostics(OnMessageRole, f),
                        OnMessageParameterDiagnostics(f, isStanModule),
                        ReturnTypeDiagnostics(OnMessageRole, f.returnInfo, isStanModule));
    }

    method ValidateOnError(f: MethodDefinition)
      requires ReturnModulesKnown(f.returnInfo)
      modifies context
      ensures context.reported == old(context.reported) + OnErrorDiagnostics(f, isStanModule)
    {
      if !f.isRemote {
        context.ReportDiagnostic(Diagnostic(FunctionShouldBeRemote, SignatureSite(OnErrorRole)));
      }
      ValidateOnErrorFunctionParameters(f);
      ValidateReturnTypeErrorOrNil(OnErrorRole, f.returnInfo);
      AppendAssociative(old(context.reported), RemoteDiagnostics(OnErrorRole, f),
                        OnErrorParameterDiagnostics(f, isStanModule),
                        ReturnTypeDiagnostics(OnErrorRole, f.returnInfo, isStanModule));
    }

    method ValidateFunctionParameters(f: MethodDefinition)
      modifies context
      ensures context.reported == old(context.reported) + OnMessageParameterDiagnostics(f, isStanModule)
    {
      var parameters := f.parameters;
      if |parameters| == 1 {
        ValidateFirstParam(OnMessageRole, parameters[0]);
      } else if |parameters| == 2 {
        ValidateFirstParam(OnMessageRole, parameters[0]);
        ValidateNamedParam(OnMessageRole, parameters[1], CALLER, InvalidFunctionParamCaller);
      }
      if |parameters| < 1 {
        context.ReportDiagnostic(Diagnostic(MustHaveMessage, SignatureSite(OnMessageRole)));
      }
      if |parameters| > 2 {
        context.ReportDiagnostic(Diagnostic(OnlyParamsAllowed, SignatureSite(OnMessageRole)));
      }
    }

    method ValidateOnErrorFunctionParameters(f: MethodDefinition)
      modifies context
      ensures context.reported == old(context.reported) + OnErrorParameterDiagnostics(f, isStanModule)
    {
      var parameters := f.parameters;
      if |parameters| > 1 {
        ValidateFirstParam(OnErrorRole, parameters[0]);
        ValidateNamedParam(OnErrorRole, parameters[1], ERROR_PARAM, InvalidFunctionParamError);
      }
      if |parameters| < 2 {
        context.ReportDiagnostic(Diagnostic(MustHaveMessageAndError, SignatureSite(OnErrorRole)));
      }
      if |parameters| > 2 {
        context.ReportDiagnostic(Diagnostic(OnlyParamsAllowedOnError, SignatureSite(OnErrorRole)));
      }
    }

    method ValidateFirstParam(role: Role, p: Parameter)
      modifies context
      ensures context.reported == old(context.reported) + MessageParamDiagnostics(role, p, isStanModule)
    {
      if p.declaredType.Some? {
        var t := p.declaredType.value;
        if t.TypeReference? {
          if !IsValidParamTypeMessage(t, isStanModule) {
            context.ReportDiagnostic(Diagnostic(InvalidFunctionParamMessage, ParameterSite(role, 0)));
          }
        } else {
          context.ReportDiagnostic(Diagnostic(InvalidFunctionParamMessage, ParameterSite(role, 0)));
        }
      }
    }

    /** `validateSecondParam` (expecting `Caller`) and `validateErrorParam` (expecting `Error`). */
    method ValidateNamedParam(role: Role, p: Parameter, expected: string, error: CompilationError)
      modifies context
      ensures context.reported == old(context.reported) + NamedParamDiagnostics(role, p, expected, error, isStanModule)
    {
      match p.typeName {
        case QualifiedNameRef(symbol) =>
          if symbol.Some? && symbol.value.moduleSymbol.Some? {
            var paramName := if symbol.value.name.Some? then symbol.value.name.value else "";
            if !isStanModule(symbol.value.moduleSymbol.value) || paramName != expected {
              context.ReportDiagnostic(Diagnostic(error, ParameterSite(role, 1)));
            }
          }
        case OtherTypeName =>
          context.ReportDiagnostic(Diagnostic(error, ParameterSite(role, 1)));
      }
    }

    method ValidateReturnTypeErrorOrNil(role: Role, returnInfo: ReturnInfo)
      requires ReturnModulesKnown(returnInfo)
      modifies context
      ensures context.reported == old(context.reported) + ReturnTypeDiagnostics(role, returnInfo, isStanModule)
    {
      if returnInfo.Returns? {
        var t := returnInfo.returnType;
        if t.UnionType? {
          var members := t.members;
          for i := 0 to |members|
            invariant context.reported == old(context.reported) + UnionDiagnostics(role, members[..i], isStanModule)
          {
            var returnType := members[i];
            if !returnType.NilType? {
              if returnType.TypeReference? {
                if returnType.signature != ERROR && !isStanModule(returnType.moduleSymbol.value) {
                  context.ReportDiagnostic(Diagnostic(InvalidReturnTypeErrorOrNil, DefinitionSite(role)));
                }
              } else if !returnType.ErrorType? {
                context.ReportDiagnostic(Diagnostic(InvalidReturnTypeErrorOrNil, DefinitionSite(role)));
              }
            }
            assert members[..i + 1][..i] == members[..i];
          }
          assert members[..|members|] == members;
        } else if !t.NilType? {
          context.ReportDiagnostic(Diagnostic(InvalidReturnTypeErrorOrNil, DefinitionSite(role)));
        }
      }
    }
  }
}
