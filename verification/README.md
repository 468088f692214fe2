# Semantic verification passes and runtime function values

This project models two pieces of an ahead-of-time compiler and runtime for an Erlang-family language.

1. The compiler's semantic verification passes. These are checks over a parsed module. The module has a function table keyed by `name/arity`, plus exports, `-nifs` entries, an optional `-on_load` function, type specs and imports. Each pass reports diagnostics and hands its module back unchanged:
   - **VerifyExports**: every export must be defined.
   - **VerifyOnLoadFunctions**: the `-on_load` function, if there is one, must be defined.
   - **VerifyNifs**: every `-nifs` entry must be defined and marked as a NIF.
   - **VerifyTypeSpecs**: a type spec with no function gets a warning.
   - **VerifyCalls**: walks every call in every function and looks at the callee. It checks that the callee is defined or imported, warns about deprecated targets, and compares the arity of a function reference with the number of arguments.
2. The runtime's `Function` value. It holds an MFA (`module:function/arity`) and a native code address. It builds the stack frame for a call, and its equality and hashing are keyed on the code address alone.

Modules:
- `names.dfy` (`Names`): atoms, `u8` arities, the `u8` narrowing cast, and function names.
- `ast.dfy` (`Ast`): the module record, function definitions, function references, and a small expression type.
- `diagnostics.dfy` (`Diagnostics`): severities, diagnostic kinds, and error counting.
- `verify.dfy` (`Verify`): the four declaration passes.
- `calls.dfy` (`Calls`): the call visitor and the `VerifyCalls` pass.
- `function.dfy` (`RuntimeFunction`): function values, frames, equality and hashing.

Modelling choices:
- A diagnostic is a severity, a kind (one per title the source reports) and a subject. The subject stands in for the primary span: a function name, a module, or the call itself.
- The function table, exports, `-nifs` entries and specs are sequences in the iteration order of the maps and sets that hold them.
  - `Ast.Defines` is the table's `contains_key`, written as a scan.
  - `Ast.Lookup` is its `get`.
  - `Ast.Locals` is the set of defined names.
  - Function-table lookups inside the contracts use `Ast.Locals`.
- The function table comes from a map, so it never holds two entries with the same name. `Verify.VerifyNifs` requires this (`Verify.UniqueNames`): it is what makes the table's lookup find *the* definition of a name.
- The count of call arguments is narrowed to `u8` (`args.len() as u8`), so it wraps modulo 256.
- What a call must report is given by a reference definition, `Calls.ExpectedDiagnostics`, built from three independent parts:
  - `Calls.RequirementOf`: the name the callee must resolve to, and whether an import may stand in for a local definition;
  - `Calls.DeprecationWarning`: the warning the call's target, import or module calls for;
  - `Calls.DeclaredArity`: the literal arity a function reference declares.
  The per-branch checks are proved to produce exactly that reference, and the walk is proved to produce it for every reached call (`Calls.ReachedCalls`) in order.
- The visitor visits a call's arguments first and then checks the callee. It does not walk into the callee expression. Every other expression form is a `Node` whose children are visited in order.
- Some behaviours are modelled as written:
  - A remote call `M:f(...)` whose module is not a literal atom but whose function is one is looked up like an unqualified local call. The doc comment of `VerifyCalls` says dynamic callees are not analysed; the code does look this one up, and the model follows the code.
  - A partially resolved reference `fun f/N` is looked up under the call's argument count. Its own arity `N` is used only by the arity comparison.
  - A resolved reference with no module is checked for deprecation, not against the local definitions.

## Model

| member | source | states |
|---|---|---|
| Names.AsU8 | compiler/syntax_erl/src/passes/sema/verify.rs:242 | The call arity is the argument count narrowed to `u8`: unchanged below 256, otherwise congruent to it modulo 256 |
| Ast.Defines | compiler/syntax_erl/src/passes/sema/verify.rs:32 | `contains_key` on the function table holds exactly for the names the module defines |
| Ast.Lookup | compiler/syntax_erl/src/passes/sema/verify.rs:125 | `get` on the function table finds a definition exactly when the name is defined, and the definition found carries that name |
| Verify.ExportDiagnostics | compiler/syntax_erl/src/passes/sema/verify.rs:31-76 | Each export entry naming an undefined function gives one "invalid export" error about that name, counted with multiplicity. No other diagnostic is produced |
| Verify.VerifyExports | compiler/syntax_erl/src/passes/sema/verify.rs:31-78 | The module is returned unchanged. "Invalid export" errors appear exactly for undefined exports, one per occurrence. Nothing is reported iff every export is defined |
| Verify.VerifyOnLoadFunctions | compiler/syntax_erl/src/passes/sema/verify.rs:96-106 | The module is returned unchanged. At most one diagnostic, "invalid on_load function" about the `-on_load` name. It is an error iff `-on_load` is present and undefined. No `-on_load` means no diagnostic |
| Verify.NifCheck | compiler/syntax_erl/src/passes/sema/verify.rs:125-147 | One `-nifs` entry yields the error kind of the reference outcome (undefined: invalid, defined but not a NIF: misplaced), or nothing when it is defined as a NIF |
| Verify.NifDiagnostics | compiler/syntax_erl/src/passes/sema/verify.rs:124-149 | Every diagnostic is an error about a `-nifs` entry, with that entry's reference outcome. Each entry with an outcome is reported once per occurrence |
| Verify.VerifyNifs | compiler/syntax_erl/src/passes/sema/verify.rs:124-151 | The module is returned unchanged. The diagnostics are exactly the reference outcomes of the `-nifs` entries, with multiplicity |
| Verify.NifOutcomes | compiler/syntax_erl/src/passes/sema/verify.rs:124-148 | Each `-nifs` entry meets exactly one of three outcomes: invalid (undefined), misplaced (defined, not a NIF), or nothing reported (defined as a NIF) |
| Verify.SpecDiagnostics | compiler/syntax_erl/src/passes/sema/verify.rs:169-180 | Each spec whose local name is undefined gives one "type spec for undefined function" warning, per occurrence. Nothing else is reported |
| Verify.VerifyTypeSpecs | compiler/syntax_erl/src/passes/sema/verify.rs:169-181 | The module is returned unchanged. A spec for an undefined function yields a warning and never an error |
| Calls.DeprecationCheck | compiler/syntax_erl/src/passes/sema/verify.rs:264-292 | A target draws at most one warning, and draws one iff it has a deprecation entry. The warning says "deprecated module" iff the entry is a module deprecation. The result is the reference `FunctionDeprecationWarning` of the target |
| Calls.ResolveLocal | compiler/syntax_erl/src/passes/sema/verify.rs:294-340 | A local name is never reported. A name neither local nor imported draws exactly one undefined-function error about that name. An imported name draws exactly the deprecation check of the imported target's MFA, and never an error |
| Calls.ArityCheck | compiler/syntax_erl/src/passes/sema/verify.rs:383-397 | Exactly one of three outcomes: one "missing arguments" error iff declared > given, one "too many arguments" error iff declared < given, nothing iff equal. The result is the reference `ArityErrors` |
| Calls.CheckRemote | compiler/syntax_erl/src/passes/sema/verify.rs:244-341 | A remote callee draws exactly what the reference `ExpectedDiagnostics` prescribes, and at most one diagnostic: an undefined-function error for a same-module name that is not local, the target's deprecation warning for another module, local-or-import resolution when only the function is a literal |
| Calls.CheckResolved | compiler/syntax_erl/src/passes/sema/verify.rs:343-398 | A resolved reference draws exactly the reference diagnostics: a same-module reference must be local, any other is checked for deprecation, and a declared arity other than the argument count draws one arity error |
| Calls.CheckPartiallyResolved | compiler/syntax_erl/src/passes/sema/verify.rs:400-453 | A partially resolved reference draws exactly the reference diagnostics: local-or-import resolution under the argument count, plus one arity error when its own arity differs |
| Calls.CheckUnresolved | compiler/syntax_erl/src/passes/sema/verify.rs:455-541 | A reference with variable parts draws exactly the reference diagnostics: the module's deprecation warning for a literal module, local-or-import resolution for a literal name with no module, one arity error for a literal arity that differs |
| Calls.CheckApply | compiler/syntax_erl/src/passes/sema/verify.rs:241-581 | Every call draws exactly the reference diagnostics, in order: an undefined-function error iff the callee's required name is neither local (nor imported, for unqualified forms), the deprecation warning of the call's target, import or module, and a missing- or too-many-arguments error iff the declared arity is larger or smaller than the argument count. At most two diagnostics |
| Calls.CheckApplyReports | compiler/syntax_erl/src/passes/sema/verify.rs:241-581 | A call draws an undefined-function error iff its callee does not resolve, a warning iff the reference deprecation warning exists (and then only that warning), a "missing arguments" error iff the declared arity exceeds the argument count, and a "too many arguments" error iff it is below it |
| Calls.CheckApplyErrors | compiler/syntax_erl/src/passes/sema/verify.rs:243-581 | A call draws one error if its callee cannot be found and one if its reference arity disagrees (a variable arity never disagrees). These are its only errors |
| Calls.SameModuleRemoteIgnoresImports | compiler/syntax_erl/src/passes/sema/verify.rs:250-260 | A same-module `m:f(...)` errors iff `f/arity` is not local. Otherwise it draws nothing. Imports and deprecations never change its outcome |
| Calls.UnqualifiedCallResolution | compiler/syntax_erl/src/passes/sema/verify.rs:294-340 | A dynamic-module call `M:f(...)` always draws exactly what the bare-atom call `f(...)` draws. A call naming a local draws nothing. One naming neither a local nor an import draws exactly one undefined-function error. An imported one draws no error, only a warning iff the target is deprecated |
| Calls.CallsDiagnosticsMembers | compiler/syntax_erl/src/passes/sema/verify.rs:237-243 | A diagnostic is reported for a list of reached calls iff one of those calls must report it |
| Calls.CallsDiagnosticsWarnings | compiler/syntax_erl/src/passes/sema/verify.rs:237-243 | The warnings reported for a list of reached calls are exactly the deprecation warnings those calls call for |
| Calls.VisitExpr | compiler/syntax_erl/src/passes/sema/verify.rs:237-242 | A walk reports, call after call, exactly the reference diagnostics of the calls it reaches: a call's arguments before the call, never inside its callee |
| Calls.VisitExprErrors | compiler/syntax_erl/src/passes/sema/verify.rs:237-243 | A walk reports no error iff every call it reaches (arguments before callee, not inside the callee) resolves and has an agreeing arity |
| Calls.CallContext | compiler/syntax_erl/src/passes/sema/verify.rs:207-213 | The visitor's context holds the module's name, its imports, the application metadata, and as locals exactly the names the function table defines |
| Calls.FunctionsDiagnostics | compiler/syntax_erl/src/passes/sema/verify.rs:215-224 | Walking every function reports exactly the reference diagnostics of every call reached, function by function. It reports no error iff every function body passes the reference call check |
| Calls.VerifyCalls | compiler/syntax_erl/src/passes/sema/verify.rs:206-226 | The module is returned unchanged. The diagnostics are exactly those every reached call calls for. There are errors iff some reached call is unresolved or mis-applied. A warning is reported iff some reached call has a deprecated target, import or module, and every warning is that call's deprecation warning |
| Calls.CallArityWraps | compiler/syntax_erl/src/passes/sema/verify.rs:242 | The call arity is the argument count modulo 256: a defined local reference whose arity is congruent to the argument count draws nothing, even from 256 arguments on, where the counts differ |
| RuntimeFunction.NewFrame | lumen_runtime/src/function.rs:47-49 | A fresh frame carries the function's MFA and code and holds nothing |
| RuntimeFunction.Push | lumen_runtime/src/function.rs:32 | Pushing keeps the MFA and code, grows the stack by one, puts the term on top and leaves everything below unchanged |
| RuntimeFunction.Reverse | lumen_runtime/src/function.rs:31 | Reversal keeps the length and puts element `k` at position `len-1-k` |
| RuntimeFunction.ReverseReverse | lumen_runtime/src/function.rs:31-33 | Reversing twice gives the original arguments back |
| RuntimeFunction.ModuleFunctionArityOf | lumen_runtime/src/function.rs:41-43 | `module_function_arity()` hands back the function's own MFA |
| RuntimeFunction.FrameWithArguments | lumen_runtime/src/function.rs:27-39 | A frame comes back iff the argument count equals the arity. It carries the function's MFA and code, holds exactly arity terms, and the last argument is pushed first |
| RuntimeFunction.FrameRoundTrip | lumen_runtime/src/function.rs:27-43 | Popping a built frame gives the arguments in call order, with the first argument on top. The frame's MFA and size agree with `module_function_arity()` |
| RuntimeFunction.Equal | lumen_runtime/src/function.rs:58-62 | Two functions are equal iff they feed the same words to a hasher; every function equals itself |
| RuntimeFunction.HashWords | lumen_runtime/src/function.rs:52-56 | Hashing writes exactly one word, the code address |
| RuntimeFunction.EqualIsEquivalence | lumen_runtime/src/function.rs:58-62 | Equality on code addresses is reflexive, symmetric and transitive |
| RuntimeFunction.EqualIgnoresMfa | lumen_runtime/src/function.rs:52-62 | Replacing the MFA changes neither equality nor the hashed words |
| RuntimeFunction.HashAgreesWithEqual | lumen_runtime/src/function.rs:52-62 | Two functions are equal iff they hash the same words, so equal functions hash equally under any hasher |

## Left out

- The "maybe you meant to export ..." suggestion for an invalid export is left out. It uses a Jaro–Winkler string similarity from an external crate, with floating-point scores and a 0.85 threshold. The model records only that the "invalid export" error occurs.
- The reporter, message text, spans and deprecation flags are left out. A diagnostic is a severity, a kind and a subject.
- The generic syntax-tree visitor is reduced to the expression forms the call check tells apart. All other forms are `Node`s with children.
- Some ApplicationMetadata lookups are replaced by maps, because their internals are not part of this model:
  - `get_function_deprecation` becomes `AppMetadata.functionDeprecations`.
  - `get_module_deprecation` becomes `AppMetadata.moduleDeprecations`.
- The source panics (`unreachable!()`) on a `FunctionAnyArity` function deprecation. Callers of the call check therefore require `Normalized`: no such entry remains.
- The order in which BTreeMap and BTreeSet iterate is taken as the order of the sequences in the module record. The model does not compute it from an ordering of names.
- The passes' `anyhow::Result` is left out. Every pass in the source always returns `Ok`.
- `Function.header` is dead code, and the value of its tag is not shown, so it is left out.
- `Arc` reference counting is left out. The internals of `Frame` and `Code` are not part of this model:
  - a frame is an MFA, a code address and a sequence of pushed terms;
  - `Code` is an address.
- The hasher is left out. The model states the words a function writes to it; the hasher itself is a parameter.
- `compiler/mlir/c_src/lib/CAPI/Attributes.cpp` is left out. It is a set of thin C wrappers over MLIR attribute constructors.
- `liblumen_alloc/src/erts/process/gc.rs` is left out. It only declares an error enum and re-exports the collector's submodules, which are not part of this model.
- `runtimes/core/src/lib.rs` is left out. It only declares modules.
