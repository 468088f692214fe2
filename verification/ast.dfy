/** The parts of an Erlang module's syntax tree that the semantic checks read. */
module Ast {
  import opened Names

  /** A name in a `fun M:F/A` reference: a literal atom or a variable. */
  datatype Name = AtomName(atom: Atom) | VarName(variable: nat)

  /** The arity in a `fun M:F/A` reference: a literal or a variable. */
  datatype Arity = IntArity(value: U8) | VarArity(variable: nat)

  /** A function reference used as a callee. */
  datatype FunctionVar =
    /** `fun m:f/a` or `fun f/a` with every part known. */
    | Resolved(name: FunctionName)
    /** `fun f/a` whose module was not resolved. */
    | PartiallyResolved(func: Atom, arity: U8)
    /** A reference with at least one part still a variable. */
    | Unresolved(modName: Option<Name>, funcName: Name, arityRef: Arity)

  /** Expressions, reduced to what the call checks distinguish. */
  datatype Expr =
    /** A call `callee(args...)`. */
    | Apply(callee: Expr, args: seq<Expr>)
    /** `module:function`, the callee of a remote call. */
    | Remote(mod: Expr, func: Expr)
    /** A function reference. */
    | FunRef(fv: FunctionVar)
    /** A literal atom. */
    | AtomLit(atom: Atom)
    /** Any other expression form (variables, other literals, tuples, case,
        receive, ...): only its sub-expressions matter here. */
    | Node(children: seq<Expr>)

  /** The literal atom an expression is, if it is one. */
  function AsAtom(e: Expr): (r: Option<Atom>)
    ensures r.Some? <==> e.AtomLit?
    ensures r.Some? ==> e == AtomLit(r.value)
  {
    match e
    case AtomLit(a) => Some(a)
    case _ => None
  }

  /** A function definition: its name, whether a `-nif` attribute preceded
      it, and every expression of its clauses (patterns, guards and bodies)
      in order. */
  datatype FunctionDef = FunctionDef(name: FunctionName, isNif: bool, body: seq<Expr>)

  /** A parsed module. `functions`, `exports`, `nifs` and `specs` are listed in
      the iteration order of the maps and sets that hold them; `imports` maps
      each imported local name to the MFA of its signature. */
  datatype Module = Module(
    name: Atom,
    functions: seq<FunctionDef>,
    exports: seq<FunctionName>,
    nifs: seq<FunctionName>,
    onLoad: Option<FunctionName>,
    specs: seq<FunctionName>,
    imports: map<FunctionName, FunctionName>
  )

  /** The names of the functions defined in a table. */
  function Locals(fs: seq<FunctionDef>): set<FunctionName> {
    set f | f in fs :: f.name
  }

  /** Whether a function table has an entry for `name` (a scan of the table). */
  function Defines(fs: seq<FunctionDef>, name: FunctionName): (r: bool)
    ensures r <==> name in Locals(fs)
  {
    if fs == [] then false
    else if fs[0].name == name then true
    else
      assert Locals(fs) == {fs[0].name} + Locals(fs[1..]);
      Defines(fs[1..], name)
  }

  /** The first definition of `name` in a function table, if any. */
  function Lookup(fs: seq<FunctionDef>, name: FunctionName): (r: Option<FunctionDef>)
    ensures r.Some? <==> name in Locals(fs)
    ensures r.Some? ==> r.value in fs && r.value.name == name
  {
    if fs == [] then None
    else if fs[0].name == name then Some(fs[0])
    else
      assert Locals(fs) == {fs[0].name} + Locals(fs[1..]);
      Lookup(fs[1..], name)
  }
}
