/** A runtime function value: the MFA it implements and the native code
    entry point, with the frame it builds for a call. */
module RuntimeFunction {
  import opened Names

  /** `module:function/arity` as the runtime stores it. */
  datatype ModuleFunctionArity = ModuleFunctionArity(mod: Atom, func: Atom, arity: nat)

  /** The address of a function's native entry point. */
  type Code = nat

  /** A term, by its tagged machine word. */
  datatype Term = Term(tagged: nat)

  datatype Function = Function(mfa: ModuleFunctionArity, code: Code)

  /** A stack frame: what it runs, and the terms pushed onto it, the most
      recently pushed last. */
  datatype Frame = Frame(mfa: ModuleFunctionArity, code: Code, stack: seq<Term>)

  /** A fresh frame for `f`, with nothing pushed. */
  function NewFrame(f: Function): (r: Frame)
    ensures r.mfa == f.mfa && r.code == f.code && r.stack == []
  {
    Frame(f.mfa, f.code, [])
  }

  function Push(frame: Frame, t: Term): (r: Frame)
    ensures r.mfa == frame.mfa && r.code == frame.code
    ensures |r.stack| == |frame.stack| + 1 && r.stack[|frame.stack|] == t
    ensures r.stack[..|frame.stack|] == frame.stack
  {
    frame.(stack := frame.stack + [t])
  }

  /** `s` back to front. */
  function Reverse(s: seq<Term>): (r: seq<Term>)
    ensures |r| == |s|
    ensures forall k | 0 <= k < |s| :: r[k] == s[|s| - 1 - k]
  {
    if s == [] then [] else Reverse(s[1..]) + [s[0]]
  }

  /** Reversal is its own inverse. */
  lemma ReverseReverse(s: seq<Term>)
    ensures Reverse(Reverse(s)) == s
  {
  }

  /** The function's MFA, shared with the caller. */
  function ModuleFunctionArityOf(f: Function): (r: ModuleFunctionArity)
    ensures r == f.mfa
  {
    f.mfa
  }

  /** Builds the frame for calling `f` with `args`: only when there are
      exactly as many arguments as the arity, pushing them last to first so
      that the first argument ends on top. */
  method FrameWithArguments(f: Function, args: seq<Term>) returns (r: Option<Frame>)
    ensures r.Some? <==> |args| == f.mfa.arity
    ensures r.Some? ==> r.value.mfa == f.mfa && r.value.code == f.code
    ensures r.Some? ==> |r.value.stack| == f.mfa.arity
    ensures r.Some? ==> forall k | 0 <= k < |args| :: r.value.stack[k] == args[|args| - 1 - k]
  {
    if |args| == f.mfa.arity {
      var frame := NewFrame(f);
      var i := |args|;
      while i > 0
        invariant 0 <= i <= |args|
        invariant frame.mfa == f.mfa && frame.code == f.code
        invariant frame.stack == Reverse(args[i..])
      {
        i := i - 1;
        assert args[i..][1..] == args[i + 1..];
        frame := Push(frame, args[i]);
      }
      r := Some(frame);
    } else {
      r := None;
    }
  }

  /** Popping the frame built for a call gives the arguments back in order,
      and the frame agrees with the function's MFA. */
  lemma FrameRoundTrip(f: Function, args: seq<Term>, frame: Frame)
    requires frame.mfa == f.mfa && frame.code == f.code
    requires frame.stack == Reverse(args) && |args| == f.mfa.arity
    ensures Reverse(frame.stack) == args
    ensures |args| > 0 ==> frame.stack[|frame.stack| - 1] == args[0]
    ensures frame.mfa == ModuleFunctionArityOf(f) && |frame.stack| == ModuleFunctionArityOf(f).arity
  {
    ReverseReverse(args);
  }

  // ----- identity ---------------------------------------------------------

  /** Functions are equal when their code addresses are. */
  predicate Equal(a: Function, b: Function)
    ensures Equal(a, b) <==> HashWords(a) == HashWords(b)
    ensures a == b ==> Equal(a, b)
  {
    a.code == b.code
  }

  /** The words a function feeds to a hasher: its code address alone. */
  function HashWords(f: Function): (r: seq<nat>)
    ensures |r| == 1 && r[0] == f.code
  {
    [f.code]
  }

  lemma EqualIsEquivalence(a: Function, b: Function, c: Function)
    ensures Equal(a, a)
    ensures Equal(a, b) ==> Equal(b, a)
    ensures Equal(a, b) && Equal(b, c) ==> Equal(a, c)
  {
  }

  /** Equality ignores the MFA: replacing it never changes the outcome. */
  lemma EqualIgnoresMfa(a: Function, b: Function, mfa: ModuleFunctionArity)
    ensures Equal(a, b) <==> Equal(a.(mfa := mfa), b)
    ensures HashWords(a) == HashWords(a.(mfa := mfa))
  {
  }

  /** Hashing agrees with equality: equal functions feed the same words to
      any hasher, and functions feeding the same words are equal. */
  lemma HashAgreesWithEqual(a: Function, b: Function, hasher: seq<nat> -> nat)
    ensures Equal(a, b) <==> HashWords(a) == HashWords(b)
    ensures Equal(a, b) ==> hasher(HashWords(a)) == hasher(HashWords(b))
  {
  }
}
