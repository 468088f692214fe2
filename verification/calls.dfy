/** The call check of the semantic analysis: the callee of every call in a
    module must be defined or imported (unless it is dynamic), references to
    deprecated functions are warned about, and a function reference must be
    applied to as many arguments as its arity. */
module Calls {
  import opened Names
  import opened Ast
  import opened Diagnostics
  import opened Verify

  /** How a function or module was deprecated; titles and flags are dropped. */
  datatype Deprecation = ModuleDeprecated | FunctionDeprecated | FunctionAnyArity

  /** The deprecation tables of the application being compiled, as the two
      lookups `get_function_deprecation` and `get_module_deprecation`. */
  datatype AppMetadata = AppMetadata(
    functionDeprecations: map<FunctionName, Deprecation>,
    moduleDeprecations: map<Atom, Deprecation>
  )

  /** Function deprecations declared for any arity have already been
      expanded into per-arity entries by the time calls are checked. */
  predicate Normalized(app: AppMetadata) {
    forall n | n in app.functionDeprecations :: !app.functionDeprecations[n].FunctionAnyArity?
  }

  /** What the call visitor knows while it walks one function. */
  datatype Context = Context(
    mod: Atom,
    locals: set<FunctionName>,
    imports: map<FunctionName, FunctionName>,
    app: AppMetadata
  )

  /** The kinds of diagnostic a call can draw. */
  predicate IsCallKind(k: Kind) {
    k == UndefinedFunction || k == DeprecatedModule || k == DeprecatedFunction
    || k == MissingArguments || k == TooManyArguments
  }

  predicate CallKinds(ds: seq<Diagnostic>) {
    forall d | d in ds :: IsCallKind(d.kind)
  }

  // ----- what one call must report ----------------------------------------

  /** What a callee asks of the function table. */
  datatype Requirement =
    /** Calls into other modules and dynamic callees are not looked up. */
    | NoRequirement
    /** Same-module forms must name a local definition. */
    | MustBeLocal(name: FunctionName)
    /** Unqualified forms must name a local definition or an import. */
    | MustBeLocalOrImported(name: FunctionName)

  /** The name a callee must resolve to when called with `arity` arguments. */
  function RequirementOf(ctx: Context, callee: Expr, arity: U8): Requirement {
    match callee
    case Remote(AtomLit(m), AtomLit(f)) => if m == ctx.mod then MustBeLocal(Local(f, arity)) else NoRequirement
    case Remote(_, AtomLit(f)) => MustBeLocalOrImported(Local(f, arity))
    case FunRef(Resolved(name)) => if name.mod == Some(ctx.mod) then MustBeLocal(name.ToLocal()) else NoRequirement
    case FunRef(PartiallyResolved(f, _)) => MustBeLocalOrImported(Local(f, arity))
    case FunRef(Unresolved(None, AtomName(f), _)) => MustBeLocalOrImported(Local(f, arity))
    case AtomLit(a) => MustBeLocalOrImported(Local(a, arity))
    case _ => NoRequirement
  }

  /** The reference meaning of "the callee can be found". */
  predicate CalleeResolves(ctx: Context, callee: Expr, arity: U8) {
    match RequirementOf(ctx, callee, arity)
    case NoRequirement => true
    case MustBeLocal(n) => n in ctx.locals
    case MustBeLocalOrImported(n) => n in ctx.locals || n in ctx.imports
  }

  /** The warning a deprecation entry for `target` calls for, if it has one. */
  function FunctionDeprecationWarning(app: AppMetadata, target: FunctionName): Option<Diagnostic> {
    if target !in app.functionDeprecations then None
    else if app.functionDeprecations[target] == ModuleDeprecated
    then Some(Diagnostic(Warning, DeprecatedModule, OfFunction(target)))
    else Some(Diagnostic(Warning, DeprecatedFunction, OfFunction(target)))
  }

  /** The deprecation warning a callee calls for: that of the target of a
      call into another module, of a reference resolved outside this module,
      or of the import an unqualified name falls back to; for a reference
      whose module is a literal but whose other parts are not, that of the
      module itself. */
  function DeprecationWarning(ctx: Context, callee: Expr, arity: U8): Option<Diagnostic> {
    match callee
    case Remote(AtomLit(m), AtomLit(f)) =>
      if m == ctx.mod then None else FunctionDeprecationWarning(ctx.app, FunctionName(Some(m), f, arity))
    case FunRef(Resolved(name)) =>
      if name.mod == Some(ctx.mod) then None else FunctionDeprecationWarning(ctx.app, name)
    case FunRef(Unresolved(Some(AtomName(m)), _, _)) =>
      if m in ctx.app.moduleDeprecations && ctx.app.moduleDeprecations[m] == ModuleDeprecated
      then Some(Diagnostic(Warning, DeprecatedModule, OfModule(m)))
      else None
    case _ =>
      match RequirementOf(ctx, callee, arity)
      case MustBeLocalOrImported(n) =>
        if n !in ctx.locals && n in ctx.imports then FunctionDeprecationWarning(ctx.app, ctx.imports[n]) else None
      case _ => None
  }

  /** The literal arity a function reference declares, if any. */
  function DeclaredArity(callee: Expr): Option<U8> {
    match callee
    case FunRef(Resolved(name)) => Some(name.arity)
    case FunRef(PartiallyResolved(_, a)) => Some(a)
    case FunRef(Unresolved(_, _, IntArity(i))) => Some(i)
    case _ => None
  }

  /** The reference meaning of "the arity agrees". */
  predicate ArityAgrees(callee: Expr, arity: U8) {
    DeclaredArity(callee).None? || DeclaredArity(callee).value == arity
  }

  /** An optional diagnostic as a list of at most one. */
  function OptionList(w: Option<Diagnostic>): seq<Diagnostic> {
    match w
    case Some(d) => [d]
    case None => []
  }

  /** The error a callee that cannot be found draws. */
  function UndefinedError(ctx: Context, callee: Expr, arity: U8): seq<Diagnostic> {
    if CalleeResolves(ctx, callee, arity) then []
    else [Diagnostic(Error, UndefinedFunction, OfFunction(RequirementOf(ctx, callee, arity).name))]
  }

  /** The error a declared arity calls for when `given` arguments are passed. */
  function ArityErrors(declared: Option<U8>, given: U8): seq<Diagnostic> {
    match declared
    case Some(a) =>
      if a > given then [Diagnostic(Error, MissingArguments, OfCall)]
      else if a < given then [Diagnostic(Error, TooManyArguments, OfCall)]
      else []
    case None => []
  }

  /** Everything a call made with `arity` arguments must report, in order:
      an undefined-function error when the callee cannot be found, the
      callee's deprecation warning, and an arity error when a declared arity
      is larger or smaller than the argument count. */
  function ExpectedDiagnostics(ctx: Context, callee: Expr, arity: U8): seq<Diagnostic> {
    UndefinedError(ctx, callee, arity)
    + OptionList(DeprecationWarning(ctx, callee, arity))
    + ArityErrors(DeclaredArity(callee), arity)
  }

  // ----- the three checks a callee may undergo ------------------------------

  /** Warns when `target` is deprecated, as a module or as a function. */
  function DeprecationCheck(app: AppMetadata, target: FunctionName): (r: seq<Diagnostic>)
    requires Normalized(app)
    ensures Consistent(r) && CallKinds(r) && !HasError(r)
    ensures |r| <= 1
    ensures r != [] <==> target in app.functionDeprecations
    ensures forall d | d in r ::
      && d.subject == OfFunction(target)
      && (d.kind == DeprecatedModule <==> app.functionDeprecations[target] == ModuleDeprecated)
    ensures r == OptionList(FunctionDeprecationWarning(app, target))
  {
    if target !in app.functionDeprecations then []
    else
      match app.functionDeprecations[target]
      case ModuleDeprecated => [Diagnostic(Warning, DeprecatedModule, OfFunction(target))]
      case FunctionDeprecated => [Diagnostic(Warning, DeprecatedFunction, OfFunction(target))]
      case FunctionAnyArity => assert false; []
  }

  /** Resolves a local name: a local definition wins; otherwise an import
      is used and its target checked for deprecation; otherwise the name is
      undefined. */
  function ResolveLocal(ctx: Context, name: FunctionName): (r: seq<Diagnostic>)
    requires Normalized(ctx.app)
    ensures Consistent(r) && CallKinds(r)
    ensures |r| <= 1
    ensures name in ctx.locals ==> r == []
    ensures HasError(r) <==> name !in ctx.locals && name !in ctx.imports
    ensures HasError(r) ==> r == [Diagnostic(Error, UndefinedFunction, OfFunction(name))]
    ensures name !in ctx.locals && name in ctx.imports ==>
      && r == DeprecationCheck(ctx.app, ctx.imports[name])
      && (r != [] <==> ctx.imports[name] in ctx.app.functionDeprecations)
      && forall d | d in r :: d.subject == OfFunction(ctx.imports[name])
  {
    if name !in ctx.locals then
      if name !in ctx.imports then
        var d := Diagnostic(Error, UndefinedFunction, OfFunction(name));
        assert d in [d];
        [d]
      else DeprecationCheck(ctx.app, ctx.imports[name])
    else []
  }

  /** Compares a reference's declared arity with the number of arguments. */
  function ArityCheck(declared: U8, given: U8): (r: seq<Diagnostic>)
    ensures Consistent(r) && CallKinds(r)
    ensures |r| <= 1
    ensures forall d | d in r :: d.severity == Error
    ensures r == [] <==> declared == given
    ensures Diagnostic(Error, MissingArguments, OfCall) in r <==> declared > given
    ensures Diagnostic(Error, TooManyArguments, OfCall) in r <==> declared < given
    ensures r == ArityErrors(Some(declared), given)
  {
    if declared > given then [Diagnostic(Error, MissingArguments, OfCall)]
    else if declared < given then [Diagnostic(Error, TooManyArguments, OfCall)]
    else []
  }

  // ----- one call ---------------------------------------------------------

  /** `M:f(...)`: a call into this module must name a local function, a call
      into another module is checked for deprecation, and a call whose
      module is not a literal atom is resolved like an unqualified name. */
  function CheckRemote(ctx: Context, me: Expr, fe: Expr, arity: U8): (r: seq<Diagnostic>)
    requires Normalized(ctx.app)
    ensures Consistent(r) && CallKinds(r) && |r| <= 1
    ensures r == ExpectedDiagnostics(ctx, Remote(me, fe), arity)
  {
    match (AsAtom(me), AsAtom(fe))
    case (Some(m), Some(f)) =>
      if m == ctx.mod then
        var name := Local(f, arity);
        if name !in ctx.locals then [Diagnostic(Error, UndefinedFunction, OfFunction(name))] else []
      else DeprecationCheck(ctx.app, FunctionName(Some(m), f, arity))
    case (None, Some(f)) => ResolveLocal(ctx, Local(f, arity))
    case _ => []
  }

  /** `fun m:f/a` fully resolved: a reference into this module must name a
      local function, any other is checked for deprecation; then its arity
      is compared with the argument count. */
  function CheckResolved(ctx: Context, name: FunctionName, arity: U8): (r: seq<Diagnostic>)
    requires Normalized(ctx.app)
    ensures Consistent(r) && CallKinds(r) && |r| <= 2
    ensures r == ExpectedDiagnostics(ctx, FunRef(Resolved(name)), arity)
  {
    var resolution :=
      if name.mod == Some(ctx.mod) then
        if name.ToLocal() !in ctx.locals
        then [Diagnostic(Error, UndefinedFunction, OfFunction(name.ToLocal()))]
        else []
      else DeprecationCheck(ctx.app, name);
    resolution + ArityCheck(name.arity, arity)
  }

  /** `fun f/a` whose module is not known: resolved as a local name under
      the call's argument count, then its arity is compared with it. */
  function CheckPartiallyResolved(ctx: Context, f: Atom, a: U8, arity: U8): (r: seq<Diagnostic>)
    requires Normalized(ctx.app)
    ensures Consistent(r) && CallKinds(r) && |r| <= 2
    ensures r == ExpectedDiagnostics(ctx, FunRef(PartiallyResolved(f, a)), arity)
  {
    ResolveLocal(ctx, Local(f, arity)) + ArityCheck(a, arity)
  }

  /** A reference with variable parts: a literal module is checked for
      deprecation, a literal name with no module is resolved locally, and a
      literal arity is compared with the argument count. */
  function CheckUnresolved(ctx: Context, mn: Option<Name>, fn: Name, ar: Arity, arity: U8): (r: seq<Diagnostic>)
    requires Normalized(ctx.app)
    ensures Consistent(r) && CallKinds(r) && |r| <= 2
    ensures r == ExpectedDiagnostics(ctx, FunRef(Unresolved(mn, fn, ar)), arity)
  {
    var moduleWarning :=
      match mn
      case Some(AtomName(m)) =>
        if m in ctx.app.moduleDeprecations && ctx.app.moduleDeprecations[m] == ModuleDeprecated
        then [Diagnostic(Warning, DeprecatedModule, OfModule(m))]
        else []
      case _ => [];
    var resolution :=
      match (mn, fn)
      case (None, AtomName(f)) => ResolveLocal(ctx, Local(f, arity))
      case _ => [];
    var arityErrors :=
      match ar
      case IntArity(i) => ArityCheck(i, arity)
      case VarArity(_) => [];
    assert |resolution| == 0 || |moduleWarning| == 0;
    moduleWarning + resolution + arityErrors
  }

  /** Diagnoses the callee of one call made with `arity` arguments. */
  function CheckApply(ctx: Context, callee: Expr, arity: U8): (r: seq<Diagnostic>)
    requires Normalized(ctx.app)
    ensures Consistent(r) && CallKinds(r)
    ensures |r| <= 2
    ensures r == ExpectedDiagnostics(ctx, callee, arity)
  {
    match callee
    case Remote(me, fe) => CheckRemote(ctx, me, fe, arity)
    case FunRef(Resolved(name)) => CheckResolved(ctx, name, arity)
    case FunRef(PartiallyResolved(f, a)) => CheckPartiallyResolved(ctx, f, a, arity)
    case FunRef(Unresolved(mn, fn, ar)) => CheckUnresolved(ctx, mn, fn, ar, arity)
    case AtomLit(a) => ResolveLocal(ctx, Local(a, arity))
    case _ => []
  }

  /** Which diagnostics one call draws: an undefined-function error iff its
      callee cannot be found, a warning iff the callee is deprecated (and then
      only that warning), and a missing- or too-many-arguments error iff its
      declared arity is larger or smaller than the argument count. */
  lemma CheckApplyReports(ctx: Context, callee: Expr, arity: U8)
    requires Normalized(ctx.app)
    ensures var r := CheckApply(ctx, callee, arity);
      && ((exists d | d in r :: d.kind == UndefinedFunction) <==> !CalleeResolves(ctx, callee, arity))
      && ((exists d | d in r :: d.severity == Warning) <==> DeprecationWarning(ctx, callee, arity).Some?)
      && (forall d | d in r && d.severity == Warning :: DeprecationWarning(ctx, callee, arity) == Some(d))
      && (Diagnostic(Error, MissingArguments, OfCall) in r <==>
            DeclaredArity(callee).Some? && DeclaredArity(callee).value > arity)
      && (Diagnostic(Error, TooManyArguments, OfCall) in r <==>
            DeclaredArity(callee).Some? && DeclaredArity(callee).value < arity)
  {
    var undefined := UndefinedError(ctx, callee, arity);
    assert undefined != [] <==> !CalleeResolves(ctx, callee, arity);
    DeprecationWarningIsWarning(ctx, callee, arity);
    PartsReport(undefined, DeprecationWarning(ctx, callee, arity), DeclaredArity(callee), arity);
  }

  lemma DeprecationWarningIsWarning(ctx: Context, callee: Expr, arity: U8)
    ensures var w := DeprecationWarning(ctx, callee, arity);
      w.Some? ==> w.value.severity == Warning && (w.value.kind == DeprecatedModule || w.value.kind == DeprecatedFunction)
  {
  }

  /** How the three parts of a call's report show in the whole. */
  lemma PartsReport(undefined: seq<Diagnostic>, warning: Option<Diagnostic>, declared: Option<U8>, arity: U8)
    requires forall d | d in undefined :: d.kind == UndefinedFunction && d.severity == Error
    requires warning.Some? ==> warning.value.severity == Warning && warning.value.kind != UndefinedFunction
    ensures var r := undefined + OptionList(warning) + ArityErrors(declared, arity);
      && ((exists d | d in r :: d.kind == UndefinedFunction) <==> undefined != [])
      && ((exists d | d in r :: d.severity == Warning) <==> warning.Some?)
      && (forall d | d in r && d.severity == Warning :: warning == Some(d))
      && (Diagnostic(Error, MissingArguments, OfCall) in r <==> declared.Some? && declared.value > arity)
      && (Diagnostic(Error, TooManyArguments, OfCall) in r <==> declared.Some? && declared.value < arity)
  {
    var r := undefined + OptionList(warning) + ArityErrors(declared, arity);
    if undefined != [] {
      assert undefined[0] in r;
    }
    if warning.Some? {
      assert warning.value in r;
    }
  }

  /** A call draws one error if its callee cannot be found, one more if its
      arity disagrees, and no other error. */
  lemma CheckApplyErrors(ctx: Context, callee: Expr, arity: U8)
    requires Normalized(ctx.app)
    ensures CountErrors(CheckApply(ctx, callee, arity))
      == (if CalleeResolves(ctx, callee, arity) then 0 else 1)
       + (if ArityAgrees(callee, arity) then 0 else 1)
  {
    var undefined := UndefinedError(ctx, callee, arity);
    var warning := OptionList(DeprecationWarning(ctx, callee, arity));
    var arityErrors := ArityErrors(DeclaredArity(callee), arity);
    CountErrorsAppend(undefined, warning);
    CountErrorsAppend(undefined + warning, arityErrors);
  }

  /** A same-module remote call `m:f(...)` is checked against the local
      definitions only: imports and deprecations do not change its outcome. */
  lemma SameModuleRemoteIgnoresImports(ctx: Context, imports: map<FunctionName, FunctionName>,
                                       app: AppMetadata, f: Atom, arity: U8)
    requires Normalized(ctx.app) && Normalized(app)
    ensures var callee := Remote(AtomLit(ctx.mod), AtomLit(f));
      && CheckApply(ctx, callee, arity) == CheckApply(ctx.(imports := imports, app := app), callee, arity)
      && (HasError(CheckApply(ctx, callee, arity)) <==> Local(f, arity) !in ctx.locals)
      && (CheckApply(ctx, callee, arity) == [] <==> Local(f, arity) in ctx.locals)
  {
    var d := Diagnostic(Error, UndefinedFunction, OfFunction(Local(f, arity)));
    assert d in [d];
  }

  /** An unqualified call, by bare atom or through a remote with a dynamic
      module, that names a local function draws no diagnostic at all, and
      one naming neither a local nor an import draws exactly one error. */
  lemma UnqualifiedCallResolution(ctx: Context, me: Expr, f: Atom, arity: U8)
    requires Normalized(ctx.app)
    requires !me.AtomLit?
    ensures CheckApply(ctx, Remote(me, AtomLit(f)), arity) == CheckApply(ctx, AtomLit(f), arity)
    ensures Local(f, arity) in ctx.locals ==>
      CheckApply(ctx, AtomLit(f), arity) == [] && CheckApply(ctx, Remote(me, AtomLit(f)), arity) == []
    ensures Local(f, arity) !in ctx.locals && Local(f, arity) !in ctx.imports ==>
      && CheckApply(ctx, AtomLit(f), arity) == [Diagnostic(Error, UndefinedFunction, OfFunction(Local(f, arity)))]
      && CheckApply(ctx, Remote(me, AtomLit(f)), arity) == CheckApply(ctx, AtomLit(f), arity)
    ensures Local(f, arity) !in ctx.locals && Local(f, arity) in ctx.imports ==>
      && !HasError(CheckApply(ctx, AtomLit(f), arity))
      && (CheckApply(ctx, AtomLit(f), arity) != [] <==>
            ctx.imports[Local(f, arity)] in ctx.app.functionDeprecations)
  {
  }

  // ----- walking a function -----------------------------------------------

  /** A call the visitor reaches: its callee and its argument count as `u8`. */
  datatype Call = Call(callee: Expr, arity: U8)

  /** The calls a walk of `e` checks, in the order it checks them: a call's
      arguments before the call itself, never inside its callee. */
  function ReachedCalls(e: Expr): seq<Call>
    decreases e
  {
    match e
    case Apply(callee, args) => AllReachedCalls(args) + [Call(callee, AsU8(|args|))]
    case Remote(me, fe) => ReachedCalls(me) + ReachedCalls(fe)
    case Node(children) => AllReachedCalls(children)
    case _ => []
  }

  function AllReachedCalls(es: seq<Expr>): seq<Call>
    decreases es
  {
    if es == [] then [] else ReachedCalls(es[0]) + AllReachedCalls(es[1..])
  }

  /** What a list of calls must report, call after call. */
  function CallsDiagnostics(ctx: Context, calls: seq<Call>): seq<Diagnostic> {
    if calls == [] then []
    else ExpectedDiagnostics(ctx, calls[0].callee, calls[0].arity) + CallsDiagnostics(ctx, calls[1..])
  }

  lemma {:induction false} CallsDiagnosticsAppend(ctx: Context, a: seq<Call>, b: seq<Call>)
    ensures CallsDiagnostics(ctx, a + b) == CallsDiagnostics(ctx, a) + CallsDiagnostics(ctx, b)
  {
    if a == [] {
      assert a + b == b;
    } else {
      assert (a + b)[1..] == a[1..] + b;
      CallsDiagnosticsAppend(ctx, a[1..], b);
    }
  }

  /** A diagnostic is reported for a list of calls exactly when one of the
      calls must report it. */
  lemma {:induction false} CallsDiagnosticsMembers(ctx: Context, calls: seq<Call>, d: Diagnostic)
    ensures d in CallsDiagnostics(ctx, calls) <==>
      exists c | c in calls :: d in ExpectedDiagnostics(ctx, c.callee, c.arity)
  {
    if calls != [] {
      CallsDiagnosticsMembers(ctx, calls[1..], d);
      assert forall c | c in calls :: c == calls[0] || c in calls[1..];
    }
  }

  /** Within one call, the warnings are exactly its deprecation warning and
      everything else is an error. */
  lemma ExpectedWarnings(ctx: Context, callee: Expr, arity: U8, d: Diagnostic)
    requires d in ExpectedDiagnostics(ctx, callee, arity)
    ensures d.severity == Warning <==> DeprecationWarning(ctx, callee, arity) == Some(d)
  {
  }

  /** The warnings reported for a list of calls are exactly the calls'
      deprecation warnings. */
  lemma CallsDiagnosticsWarnings(ctx: Context, calls: seq<Call>)
    ensures forall d | d in CallsDiagnostics(ctx, calls) && d.severity == Warning ::
      exists c | c in calls :: DeprecationWarning(ctx, c.callee, c.arity) == Some(d)
    ensures forall c | c in calls && DeprecationWarning(ctx, c.callee, c.arity).Some? ::
      DeprecationWarning(ctx, c.callee, c.arity).value in CallsDiagnostics(ctx, calls)
  {
    var ds := CallsDiagnostics(ctx, calls);
    forall d | d in ds && d.severity == Warning
      ensures exists c | c in calls :: DeprecationWarning(ctx, c.callee, c.arity) == Some(d)
    {
      CallsDiagnosticsMembers(ctx, calls, d);
      var c :| c in calls && d in ExpectedDiagnostics(ctx, c.callee, c.arity);
      ExpectedWarnings(ctx, c.callee, c.arity, d);
    }
    forall c | c in calls && DeprecationWarning(ctx, c.callee, c.arity).Some?
      ensures DeprecationWarning(ctx, c.callee, c.arity).value in ds
    {
      var w := DeprecationWarning(ctx, c.callee, c.arity).value;
      assert w in ExpectedDiagnostics(ctx, c.callee, c.arity);
      CallsDiagnosticsMembers(ctx, calls, w);
    }
  }

  /** Visits an expression: a call's arguments are visited first, then its
      callee is checked; the callee expression itself is not descended into. */
  function VisitExpr(ctx: Context, e: Expr): (r: seq<Diagnostic>)
    requires Normalized(ctx.app)
    ensures Consistent(r) && CallKinds(r)
    ensures r == CallsDiagnostics(ctx, ReachedCalls(e))
    decreases e
  {
    match e
    case Apply(callee, args) =>
      var call := Call(callee, AsU8(|args|));
      CallsDiagnosticsAppend(ctx, AllReachedCalls(args), [call]);
      VisitExprs(ctx, args) + CheckApply(ctx, callee, AsU8(|args|))
    case Remote(me, fe) =>
      CallsDiagnosticsAppend(ctx, ReachedCalls(me), ReachedCalls(fe));
      VisitExpr(ctx, me) + VisitExpr(ctx, fe)
    case Node(children) => VisitExprs(ctx, children)
    case _ => []
  }

  function VisitExprs(ctx: Context, es: seq<Expr>): (r: seq<Diagnostic>)
    requires Normalized(ctx.app)
    ensures Consistent(r) && CallKinds(r)
    ensures r == CallsDiagnostics(ctx, AllReachedCalls(es))
    decreases es
  {
    if es == [] then []
    else
      CallsDiagnosticsAppend(ctx, ReachedCalls(es[0]), AllReachedCalls(es[1..]));
      VisitExpr(ctx, es[0]) + VisitExprs(ctx, es[1..])
  }

  /** The reference meaning of "every call reached by the visitor is fine". */
  predicate CallsOk(ctx: Context, e: Expr)
    decreases e
  {
    match e
    case Apply(callee, args) =>
      && AllCallsOk(ctx, args)
      && CalleeResolves(ctx, callee, AsU8(|args|))
      && ArityAgrees(callee, AsU8(|args|))
    case Remote(me, fe) => CallsOk(ctx, me) && CallsOk(ctx, fe)
    case Node(children) => AllCallsOk(ctx, children)
    case _ => true
  }

  predicate AllCallsOk(ctx: Context, es: seq<Expr>)
    decreases es
  {
    forall i | 0 <= i < |es| :: CallsOk(ctx, es[i])
  }

  lemma {:induction false} VisitExprErrors(ctx: Context, e: Expr)
    requires Normalized(ctx.app)
    ensures !HasError(VisitExpr(ctx, e)) <==> CallsOk(ctx, e)
    decreases e
  {
    match e
    case Apply(callee, args) =>
      VisitExprsErrors(ctx, args);
      CheckApplyErrors(ctx, callee, AsU8(|args|));
      CountErrorsAppend(VisitExprs(ctx, args), CheckApply(ctx, callee, AsU8(|args|)));
    case Remote(me, fe) =>
      VisitExprErrors(ctx, me);
      VisitExprErrors(ctx, fe);
      CountErrorsAppend(VisitExpr(ctx, me), VisitExpr(ctx, fe));
    case Node(children) =>
      VisitExprsErrors(ctx, children);
    case FunRef(_) =>
    case AtomLit(_) =>
  }

  lemma {:induction false} VisitExprsErrors(ctx: Context, es: seq<Expr>)
    requires Normalized(ctx.app)
    ensures !HasError(VisitExprs(ctx, es)) <==> AllCallsOk(ctx, es)
    decreases es
  {
    if es != [] {
      VisitExprErrors(ctx, es[0]);
      VisitExprsErrors(ctx, es[1..]);
      CountErrorsAppend(VisitExpr(ctx, es[0]), VisitExprs(ctx, es[1..]));
      assert AllCallsOk(ctx, es) <==> CallsOk(ctx, es[0]) && AllCallsOk(ctx, es[1..]) by {
        assert forall i | 1 <= i < |es| :: es[i] == es[1..][i - 1];
      }
    }
  }

  // ----- the pass ---------------------------------------------------------

  /** The visitor's context for a module: its name, the names it defines and
      the MFA each import resolves to. */
  function CallContext(m: Module, app: AppMetadata): (r: Context)
    ensures r.mod == m.name && r.imports == m.imports && r.app == app
    ensures forall n :: n in r.locals <==> Defines(m.functions, n)
  {
    Context(m.name, Locals(m.functions), m.imports, app)
  }

  /** The calls reached in every function of a table, function by function. */
  function FunctionsCalls(fs: seq<FunctionDef>): seq<Call> {
    if fs == [] then [] else AllReachedCalls(fs[0].body) + FunctionsCalls(fs[1..])
  }

  function FunctionsDiagnostics(ctx: Context, fs: seq<FunctionDef>): (r: seq<Diagnostic>)
    requires Normalized(ctx.app)
    ensures Consistent(r) && CallKinds(r)
    ensures !HasError(r) <==> forall f | f in fs :: AllCallsOk(ctx, f.body)
    ensures r == CallsDiagnostics(ctx, FunctionsCalls(fs))
  {
    if fs == [] then []
    else
      VisitExprsErrors(ctx, fs[0].body);
      CountErrorsAppend(VisitExprs(ctx, fs[0].body), FunctionsDiagnostics(ctx, fs[1..]));
      CallsDiagnosticsAppend(ctx, AllReachedCalls(fs[0].body), FunctionsCalls(fs[1..]));
      assert forall f | f in fs :: f == fs[0] || f in fs[1..];
      VisitExprs(ctx, fs[0].body) + FunctionsDiagnostics(ctx, fs[1..])
  }

  /** Checks every call in every function of the module. Errors are
      reported exactly when some call reached by the visitor has a callee
      that cannot be found or a reference arity that disagrees with its
      argument count; a warning is reported exactly for each reached call
      whose target, import or module is deprecated. */
  function VerifyCalls(app: AppMetadata, m: Module): (r: PassResult)
    requires Normalized(app)
    ensures r.mod == m
    ensures Consistent(r.diagnostics) && CallKinds(r.diagnostics)
    ensures forall d | d in r.diagnostics && d.severity == Warning ::
      d.kind == DeprecatedModule || d.kind == DeprecatedFunction
    ensures !HasError(r.diagnostics) <==>
      forall f | f in m.functions :: AllCallsOk(CallContext(m, app), f.body)
    ensures r.diagnostics == CallsDiagnostics(CallContext(m, app), FunctionsCalls(m.functions))
    ensures forall d | d in r.diagnostics && d.severity == Warning ::
      exists c | c in FunctionsCalls(m.functions) :: DeprecationWarning(CallContext(m, app), c.callee, c.arity) == Some(d)
    ensures forall c | c in FunctionsCalls(m.functions) && DeprecationWarning(CallContext(m, app), c.callee, c.arity).Some? ::
      DeprecationWarning(CallContext(m, app), c.callee, c.arity).value in r.diagnostics
  {
    var ctx := CallContext(m, app);
    var calls := FunctionsCalls(m.functions);
    CallsDiagnosticsWarnings(ctx, calls);
    var ds := FunctionsDiagnostics(ctx, m.functions);
    PassResult(m, ds)
  }

  /** The argument count is narrowed to `u8`: a local reference whose arity
      is congruent to the argument count modulo 256 draws no diagnostic,
      even when the counts differ, as they do from 256 arguments on. */
  lemma CallArityWraps(ctx: Context, name: FunctionName, args: seq<Expr>)
    requires Normalized(ctx.app)
    requires |args| % 256 == name.arity
    requires name.mod == Some(ctx.mod) && name.ToLocal() in ctx.locals
    ensures CheckApply(ctx, FunRef(Resolved(name)), AsU8(|args|)) == []
    ensures |args| >= 256 ==> |args| != name.arity
  {
  }
}
