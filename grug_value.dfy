/** The Python values a running grug program handles (`GrugValue`): the
    booleans, numbers and strings of the language, the integer id of an
    entity, and whatever else a game function hands back. */
module GrugValues {
  import opened Wrappers

  datatype Value =
    | VBool(b: bool)
    /** A Python `int`: an entity id such as `me`, or a length or position. */
    | VInt(i: int)
    /** A Python `float`: every number literal of a grug file. */
    | VFloat(r: real)
    | VStr(s: string)
    /** Any other object, known by its identity and its truth value. */
    | VOpaque(handle: nat, truthy: bool)

  /** A game function as the host registers it: a Python callable, known by
      its `__name__` and its identity. What it does when called is the
      host's code, given to the model as a parameter. */
  datatype GameFn = GameFn(name: string, handle: nat)

  /** What calling a game function returns: `None` or a value. */
  type GameCode = (GameFn, seq<Value>) -> Option<Value>

  /** Python's truth value of `v`, as `if` and `while` test it. */
  predicate Truthy(v: Value): (b: bool)
    ensures v == VBool(false) || v == VInt(0) || v == VFloat(0.0) || v == VStr("") ==> !b
    ensures v == VBool(true) ==> b
    ensures !v.VOpaque? ==> (b <==> !(v == VBool(false) || v == VInt(0) || v == VFloat(0.0) || v == VStr("")))
    ensures v.VOpaque? ==> (b <==> v.truthy)
  {
    match v
    case VBool(b) => b
    case VInt(i) => i != 0
    case VFloat(r) => r != 0.0
    case VStr(s) => s != ""
    case VOpaque(_, t) => t
  }

  predicate IsNumeric(v: Value) {
    v.VBool? || v.VInt? || v.VFloat?
  }

  /** A `bool` counts as 0 or 1 and an `int` as itself wherever Python
      compares numbers. */
  function NumericValue(v: Value): real
    requires IsNumeric(v)
  {
    match v
    case VBool(b) => if b then 1.0 else 0.0
    case VInt(i) => i as real
    case VFloat(r) => r
  }

  /** Python's `==` on two values: numbers by value across `bool`, `int` and
      `float`, strings by content, and every other object by its handle.
      For a list held as a value this is identity, where Python compares
      two lists element by element. */
  predicate PyEq(a: Value, b: Value): (eq: bool)
    // values of different kinds are never equal, numbers aside
    ensures eq ==> (IsNumeric(a) <==> IsNumeric(b)) && (a.VStr? <==> b.VStr?) && (a.VOpaque? <==> b.VOpaque?)
    ensures a.VStr? && b.VStr? ==> (eq <==> a.s == b.s)
    ensures a.VOpaque? && b.VOpaque? ==> (eq <==> a.handle == b.handle)
    ensures a == VBool(true) && b == VInt(1) ==> eq
  {
    if IsNumeric(a) && IsNumeric(b) then NumericValue(a) == NumericValue(b)
    else if a.VStr? && b.VStr? then a.s == b.s
    else if a.VOpaque? && b.VOpaque? then a.handle == b.handle
    else false
  }
}
