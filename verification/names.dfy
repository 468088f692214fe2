/** Names shared by the semantic checks: interned atoms, byte-wide arities
    and function names of the form `module:function/arity`. */
module Names {

  /** The conventional Some/None datatype. */
  datatype Option<+T> = None | Some(value: T)

  /** An interned symbol, identified by its index in the atom table. */
  type Atom = nat

  /** An unsigned 8-bit integer, the width of every arity in the compiler. */
  type U8 = x: int | 0 <= x < 256

  /** Converts a length to `u8` the way a Rust `as u8` cast does: it keeps
      the low eight bits, so lengths wrap modulo 256. */
  function AsU8(n: nat): (r: U8)
    ensures n < 256 ==> r == n
    ensures (n - r) % 256 == 0
  {
    n % 256
  }

  /** `module:function/arity`; a local name has no module. */
  datatype FunctionName = FunctionName(mod: Option<Atom>, func: Atom, arity: U8)
  {
    predicate IsLocal() {
      mod.None?
    }

    /** The same function, with its module dropped. */
    function ToLocal(): (r: FunctionName)
      ensures r.IsLocal()
      ensures r.func == func && r.arity == arity
      ensures IsLocal() ==> r == this
    {
      FunctionName(None, func, arity)
    }
  }

  function Local(func: Atom, arity: U8): FunctionName {
    FunctionName(None, func, arity)
  }
}
