/** The declaration checks of the semantic analysis: every export, `-nifs`
    entry, `-on_load` function and type spec must refer to a function the
    module defines. Each check only reports; it hands its module back
    unchanged. */
module Verify {
  import opened Names
  import opened Ast
  import opened Diagnostics

  /** What a check produces: the module it was given and what it reported. */
  datatype PassResult = PassResult(mod: Module, diagnostics: seq<Diagnostic>)

  /** A function table built from a map: no name has two entries. */
  predicate UniqueNames(fs: seq<FunctionDef>) {
    forall i, j | 0 <= i < |fs| && 0 <= j < |fs| && fs[i].name == fs[j].name :: i == j
  }

  // ----- exports -----------------------------------------------------------

  function ExportDiagnostics(fs: seq<FunctionDef>, exports: seq<FunctionName>): (r: seq<Diagnostic>)
    ensures Consistent(r)
    ensures |r| <= |exports|
    ensures forall d | d in r ::
      d.kind == InvalidExport && d.subject.OfFunction?
      && d.subject.name in exports && d.subject.name !in Locals(fs)
    ensures forall e | e !in Locals(fs) ::
      multiset(r)[Diagnostic(Error, InvalidExport, OfFunction(e))] == multiset(exports)[e]
  {
    if exports == [] then []
    else
      assert exports == [exports[0]] + exports[1..];
      var here := if !Defines(fs, exports[0])
        then [Diagnostic(Error, InvalidExport, OfFunction(exports[0]))]
        else [];
      here + ExportDiagnostics(fs, exports[1..])
  }

  /** Reports an "invalid export" error once for every export entry that
      names a function the module does not define. */
  function VerifyExports(m: Module): (r: PassResult)
    ensures r.mod == m
    ensures Consistent(r.diagnostics)
    ensures forall d | d in r.diagnostics ::
      d.kind == InvalidExport && d.subject.OfFunction?
      && d.subject.name in m.exports && d.subject.name !in Locals(m.functions)
    ensures forall e | e !in Locals(m.functions) ::
      multiset(r.diagnostics)[Diagnostic(Error, InvalidExport, OfFunction(e))] == multiset(m.exports)[e]
    ensures r.diagnostics == [] <==> forall e | e in m.exports :: e in Locals(m.functions)
  {
    var ds := ExportDiagnostics(m.functions, m.exports);
    assert (forall e | e in m.exports :: e in Locals(m.functions)) ==> ds == [] by {
      if ds != [] {
        assert ds[0] in ds;
      }
    }
    assert ds == [] ==> forall e | e in m.exports :: e in Locals(m.functions) by {
      if ds == [] {
        forall e | e in m.exports
          ensures e in Locals(m.functions)
        {
          assert multiset(m.exports)[e] > 0;
        }
      }
    }
    PassResult(m, ds)
  }

  // ----- on_load -----------------------------------------------------------

  /** Reports an "invalid on_load function" error when `-on_load` names a
      function the module does not define; a module without `-on_load` is
      never reported. */
  function VerifyOnLoadFunctions(m: Module): (r: PassResult)
    ensures r.mod == m
    ensures Consistent(r.diagnostics)
    ensures |r.diagnostics| <= 1
    ensures HasError(r.diagnostics) <==> m.onLoad.Some? && m.onLoad.value !in Locals(m.functions)
    ensures forall d | d in r.diagnostics ::
      m.onLoad.Some? && d == Diagnostic(Error, InvalidOnLoad, OfFunction(m.onLoad.value))
    ensures m.onLoad.None? ==> r.diagnostics == []
  {
    match m.onLoad
    case Some(name) =>
      if !Defines(m.functions, name) then
        var d := Diagnostic(Error, InvalidOnLoad, OfFunction(name));
        assert d in [d];
        PassResult(m, [d])
      else PassResult(m, [])
    case None => PassResult(m, [])
  }

  // ----- nifs --------------------------------------------------------------

  /** The reference outcome for one `-nifs` entry: an error kind, or None
      when the entry is fine. */
  function NifOutcome(fs: seq<FunctionDef>, n: FunctionName): Option<Kind> {
    if n !in Locals(fs) then Some(InvalidNif)
    else if exists f | f in fs :: f.name == n && !f.isNif then Some(MisplacedNif)
    else None
  }

  lemma {:induction false} SameNameSameDef(fs: seq<FunctionDef>, f: FunctionDef, g: FunctionDef)
    requires UniqueNames(fs)
    requires f in fs && g in fs && f.name == g.name
    ensures f == g
  {
    var i :| 0 <= i < |fs| && fs[i] == f;
    var j :| 0 <= j < |fs| && fs[j] == g;
    assert i == j;
  }

  /** The diagnostic for one `-nifs` entry, found through the table lookup. */
  function NifCheck(fs: seq<FunctionDef>, n: FunctionName): (r: seq<Diagnostic>)
    requires UniqueNames(fs)
    ensures NifOutcome(fs, n).None? ==> r == []
    ensures NifOutcome(fs, n).Some? ==> r == [Diagnostic(Error, NifOutcome(fs, n).value, OfFunction(n))]
  {
    match Lookup(fs, n)
    case None => [Diagnostic(Error, InvalidNif, OfFunction(n))]
    case Some(fun) =>
      if !fun.isNif then [Diagnostic(Error, MisplacedNif, OfFunction(fun.name))]
      else
        assert forall f | f in fs && f.name == n :: f.isNif by {
          forall f | f in fs && f.name == n
            ensures f.isNif
          {
            SameNameSameDef(fs, f, fun);
          }
        }
        []
  }

  function NifDiagnostics(fs: seq<FunctionDef>, nifs: seq<FunctionName>): (r: seq<Diagnostic>)
    requires UniqueNames(fs)
    ensures Consistent(r)
    ensures |r| <= |nifs|
    ensures forall d | d in r ::
      d.subject.OfFunction? && d.subject.name in nifs
      && d.severity == Error && NifOutcome(fs, d.subject.name) == Some(d.kind)
    ensures forall n | NifOutcome(fs, n).Some? ::
      multiset(r)[Diagnostic(Error, NifOutcome(fs, n).value, OfFunction(n))] == multiset(nifs)[n]
  {
    if nifs == [] then []
    else
      assert nifs == [nifs[0]] + nifs[1..];
      NifCheck(fs, nifs[0]) + NifDiagnostics(fs, nifs[1..])
  }

  /** Reports each `-nifs` entry that names no function ("invalid -nif
      declaration") or names a function not marked as a NIF ("misplaced -nif
      declaration"). */
  function VerifyNifs(m: Module): (r: PassResult)
    requires UniqueNames(m.functions)
    ensures r.mod == m
    ensures Consistent(r.diagnostics)
    ensures forall d | d in r.diagnostics ::
      d.subject.OfFunction? && d.subject.name in m.nifs
      && NifOutcome(m.functions, d.subject.name) == Some(d.kind)
    ensures forall n | NifOutcome(m.functions, n).Some? ::
      multiset(r.diagnostics)[Diagnostic(Error, NifOutcome(m.functions, n).value, OfFunction(n))]
        == multiset(m.nifs)[n]
  {
    PassResult(m, NifDiagnostics(m.functions, m.nifs))
  }

  /** Each `-nifs` entry meets exactly one of three outcomes: undefined
      (one "invalid -nif declaration" per occurrence), defined but not a NIF
      (one "misplaced -nif declaration" per occurrence), or defined as a NIF
      (nothing reported about it). */
  lemma NifOutcomes(m: Module, n: FunctionName)
    requires UniqueNames(m.functions)
    requires n in m.nifs
    ensures var ds := VerifyNifs(m).diagnostics;
      var invalid := Diagnostic(Error, InvalidNif, OfFunction(n));
      var misplaced := Diagnostic(Error, MisplacedNif, OfFunction(n));
      && (n !in Locals(m.functions) ==> invalid in ds && misplaced !in ds)
      && (n in Locals(m.functions) && (exists f | f in m.functions :: f.name == n && !f.isNif) ==>
            misplaced in ds && invalid !in ds)
      && (n in Locals(m.functions) && (forall f | f in m.functions && f.name == n :: f.isNif) ==>
            invalid !in ds && misplaced !in ds)
  {
    var ds := VerifyNifs(m).diagnostics;
    assert multiset(m.nifs)[n] > 0;
    var o := NifOutcome(m.functions, n);
    if o.Some? {
      assert multiset(ds)[Diagnostic(Error, o.value, OfFunction(n))] > 0;
    }
  }

  // ----- type specs --------------------------------------------------------

  function SpecDiagnostics(fs: seq<FunctionDef>, specs: seq<FunctionName>): (r: seq<Diagnostic>)
    ensures Consistent(r)
    ensures |r| <= |specs|
    ensures forall d | d in r ::
      d.severity == Warning && d.kind == SpecForUndefinedFunction && d.subject.OfFunction?
      && d.subject.name in specs && d.subject.name.ToLocal() !in Locals(fs)
    ensures forall s: FunctionName | s.ToLocal() !in Locals(fs) ::
      multiset(r)[Diagnostic(Warning, SpecForUndefinedFunction, OfFunction(s))] == multiset(specs)[s]
  {
    if specs == [] then []
    else
      assert specs == [specs[0]] + specs[1..];
      var here := if !Defines(fs, specs[0].ToLocal())
        then [Diagnostic(Warning, SpecForUndefinedFunction, OfFunction(specs[0]))]
        else [];
      here + SpecDiagnostics(fs, specs[1..])
  }

  /** Warns once for every type spec whose function, taken as a local name,
      is not defined; a missing definition is never an error. */
  function VerifyTypeSpecs(m: Module): (r: PassResult)
    ensures r.mod == m
    ensures Consistent(r.diagnostics)
    ensures !HasError(r.diagnostics)
    ensures forall d | d in r.diagnostics ::
      d.kind == SpecForUndefinedFunction && d.subject.OfFunction?
      && d.subject.name in m.specs && d.subject.name.ToLocal() !in Locals(m.functions)
    ensures forall s: FunctionName | s.ToLocal() !in Locals(m.functions) ::
      multiset(r.diagnostics)[Diagnostic(Warning, SpecForUndefinedFunction, OfFunction(s))]
        == multiset(m.specs)[s]
  {
    PassResult(m, SpecDiagnostics(m.functions, m.specs))
  }
}
