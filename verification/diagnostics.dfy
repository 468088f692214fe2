/** Diagnostics reported by the semantic checks, without spans or message text. */
module Diagnostics {
  import opened Names

  datatype Severity = Error | Warning

  /** One kind per diagnostic title the checks report. */
  datatype Kind =
    | InvalidExport            // "invalid export"
    | InvalidOnLoad            // "invalid on_load function"
    | InvalidNif               // "invalid -nif declaration"
    | MisplacedNif             // "misplaced -nif declaration"
    | SpecForUndefinedFunction // "type spec for undefined function"
    | UndefinedFunction        // "reference to undefined function"
    | DeprecatedModule         // "use of deprecated module"
    | DeprecatedFunction       // "use of deprecated function"
    | MissingArguments         // "missing arguments"
    | TooManyArguments         // "too many arguments"

  /** What a diagnostic points at, in place of its primary span. */
  datatype Subject = OfFunction(name: FunctionName) | OfModule(mod: Atom) | OfCall

  datatype Diagnostic = Diagnostic(severity: Severity, kind: Kind, subject: Subject)

  /** The severity each kind is reported with: only a missing type spec
      target and deprecations are warnings. */
  function SeverityOf(k: Kind): Severity {
    match k
    case SpecForUndefinedFunction => Warning
    case DeprecatedModule => Warning
    case DeprecatedFunction => Warning
    case _ => Error
  }

  predicate Consistent(ds: seq<Diagnostic>) {
    forall d | d in ds :: d.severity == SeverityOf(d.kind)
  }

  predicate HasError(ds: seq<Diagnostic>) {
    exists d | d in ds :: d.severity == Error
  }

  /** The number of errors in a diagnostic list. */
  function CountErrors(ds: seq<Diagnostic>): (n: nat)
    ensures n <= |ds|
    ensures n == 0 <==> !HasError(ds)
  {
    if ds == [] then 0
    else
      assert ds == [ds[0]] + ds[1..];
      (if ds[0].severity == Error then 1 else 0) + CountErrors(ds[1..])
  }

  lemma {:induction false} CountErrorsAppend(a: seq<Diagnostic>, b: seq<Diagnostic>)
    ensures CountErrors(a + b) == CountErrors(a) + CountErrors(b)
  {
    if a == [] {
      assert a + b == b;
    } else {
      assert (a + b)[1..] == a[1..] + b;
      CountErrorsAppend(a[1..], b);
    }
  }
}
