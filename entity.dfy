/** The tree-walking interpreter of src/grug/entity.py.  An `Entity` runs the
    on_ functions of one compiled grug file against its own global variables.

    The semantics is given by the functions `EvalExpr`, `Exec` and their
    companions over a `Machine`: the entity's globals, the dictionary its
    `local_variables` attribute refers to, and the height of its
    `local_variable_scopes` stack.  The methods of the class `Entity` do what
    the source's methods do, step by step, and each is proved to leave the
    entity in the state the corresponding function computes.

    Python exceptions become the `Signal` of a `Result`: `Break`, `Continue`
    and `Return` are the source's own exception classes, `Raised` any other.
    A `fuel` parameter bounds the number of while-loop iterations and the
    depth of helper calls, so that every run ends. */
module Entities {
  import opened Wrappers
  import opened Tokenizer
  import opened Ast
  import opened GrugValues
  import opened GrugStates
  import GrugParser

  /** The Python exceptions other than the three control-flow classes. */
  datatype Failure =
    /** An unknown helper or game function, or a local variable never assigned. */
    | KeyError(name: string)
    /** `run_on_fn` of a function the file does not define. */
    | RuntimeError(name: string)
    | AssertionError
    | ZeroDivisionError
    /** Subscripting the bound method `__getattr__` hands out for an
        attribute that has not been assigned yet. */
    | TypeError
    /** Calling `append` on that bound method. */
    | AttributeError
    /** The model's bound on loop iterations and call depth ran out. */
    | OutOfFuel

  datatype Signal =
    | Break
    | Continue
    | Return(value: Option<Value>)
    | Raised(failure: Failure)

  /** What the running code reads but never changes: the file's mod and
      helper functions, and the game functions of its state. */
  datatype Context = Context(
    mod: string, helperFns: map<string, HelperFn>, gameFns: map<string, GameFn>, gameCode: GameCode)

  /** The entity's changing state. `locals` is `None` while the attribute
      `local_variables` is not yet assigned, `depth` is `None` while
      `local_variable_scopes` is not; `depth` is the height of that stack,
      whose dictionaries are pushed and popped but never read. */
  datatype Machine = Machine(
    globals: map<string, Value>, locals: Option<map<string, Value>>, depth: Option<nat>)

  /** A state after a step, and what the step returned or raised. */
  datatype Step<T> = Step(m: Machine, out: Result<T, Signal>)

  // ---------------------------------------------------------------------------
  // Invariants of every step
  // ---------------------------------------------------------------------------

  /** No step pops more than it pushed, and no step adds or removes a global
      variable. */
  predicate Grows(m: Machine, m': Machine) {
    && (m.depth.None? ==> m'.depth.None?)
    && (m.depth.Some? ==> m'.depth.Some? && m'.depth.value >= m.depth.value)
    && m'.globals.Keys == m.globals.Keys
  }

  predicate IsJump<T>(out: Result<T, Signal>) {
    out.Err? && (out.error.Break? || out.error.Continue?)
  }

  /** Every helper function has no `break` or `continue` outside a loop, as
      the parser guarantees. */
  predicate JumpFree(ctx: Context) {
    forall name :: name in ctx.helperFns ==> GrugParser.NoLooseJumps(ctx.helperFns[name].body)
  }

  // ---------------------------------------------------------------------------
  // Single operations
  // ---------------------------------------------------------------------------

  /** An entity string: qualified by the file's mod unless it has a `:`. */
  function EntityString(mod: string, s: string): (r: string)
    ensures ':' in r
    ensures ':' in s ==> r == s
    ensures ':' !in s ==> |r| == |mod| + 1 + |s| && r[|mod|] == ':' && r[|mod| + 1..] == s
  {
    if ':' in s then s else mod + ":" + s
  }

  /** Reading a variable: a global first, else a local. */
  function Lookup(m: Machine, name: string): (r: Result<Value, Signal>)
    ensures name in m.globals ==> r == Ok(m.globals[name])
    ensures name !in m.globals && m.locals.Some? && name in m.locals.value ==> r == Ok(m.locals.value[name])
    ensures r.Err? <==> name !in m.globals && (m.locals.None? || name !in m.locals.value)
    ensures r.Err? && m.locals.Some? ==> r.error == Raised(KeyError(name))
    ensures r.Err? && m.locals.None? ==> r.error == Raised(TypeError)
  {
    if name in m.globals then Ok(m.globals[name])
    else if m.locals.None? then Err(Raised(TypeError))
    else if name in m.locals.value then Ok(m.locals.value[name])
    else Err(Raised(KeyError(name)))
  }

  /** Writing a variable: the global of that name if there is one, else a
      local of the current dictionary. */
  function Assign(m: Machine, name: string, v: Value): (r: Step<()>)
    ensures r.out.Ok? ==> Lookup(r.m, name) == Ok(v)
    ensures r.out.Ok? <==> name in m.globals || m.locals.Some?
    ensures Grows(m, r.m) && r.m.depth == m.depth
    ensures forall x :: x != name ==> Lookup(r.m, x) == Lookup(m, x)
  {
    if name in m.globals then Step(m.(globals := m.globals[name := v]), Ok(()))
    else if m.locals.None? then Step(m, Err(Raised(TypeError)))
    else Step(m.(locals := Some(m.locals.value[name := v])), Ok(()))
  }

  /** The names of the parameters that `zip` pairs with an argument. */
  ghost function ZippedNames(args: seq<Value>, params: seq<Argument>): set<string> {
    set k | 0 <= k < |args| && k < |params| :: params[k].name
  }

  lemma ZippedNamesFirst(args: seq<Value>, params: seq<Argument>)
    requires args != [] && params != []
    ensures ZippedNames(args, params) == {params[0].name} + ZippedNames(args[1..], params[1..])
  {
    forall x | x in ZippedNames(args, params)
      ensures x == params[0].name || x in ZippedNames(args[1..], params[1..])
    {
      var k :| 0 <= k < |args| && k < |params| && params[k].name == x;
      if k > 0 { assert params[1..][k - 1].name == x; }
    }
    forall x | x in ZippedNames(args[1..], params[1..])
      ensures x in ZippedNames(args, params)
    {
      var k :| 0 <= k < |args| - 1 && k < |params| - 1 && params[1..][k].name == x;
      assert params[k + 1].name == x;
    }
  }

  /** The `zip` of a call: each parameter, in order, gets the argument at
      its position; extra arguments or parameters are dropped, so a
      parameter without an argument stays unbound. */
  function Bind(d: map<string, Value>, args: seq<Value>, params: seq<Argument>): (r: map<string, Value>)
    decreases |args|
    ensures r.Keys == d.Keys + (set k | 0 <= k < |args| && k < |params| :: params[k].name)
  {
    if args == [] || params == [] then d
    else
      ZippedNamesFirst(args, params);
      Bind(d[params[0].name := args[0]], args[1..], params[1..])
  }

  /** With distinct parameter names, each parameter holds its argument. */
  lemma {:induction false} BindDistinct(d: map<string, Value>, args: seq<Value>, params: seq<Argument>, k: nat)
    requires k < |args| && k < |params|
    requires forall i, j :: 0 <= i < j < |params| ==> params[i].name != params[j].name
    ensures Bind(d, args, params)[params[k].name] == args[k]
    decreases |args|
  {
    if k == 0 {
      BindKeeps(d[params[0].name := args[0]], args[1..], params[1..], params[0].name);
    } else {
      BindDistinct(d[params[0].name := args[0]], args[1..], params[1..], k - 1);
    }
  }

  /** A name no remaining parameter has keeps its value. */
  lemma {:induction false} BindKeeps(d: map<string, Value>, args: seq<Value>, params: seq<Argument>, x: string)
    requires x in d
    requires forall i :: 0 <= i < |params| ==> params[i].name != x
    ensures Bind(d, args, params)[x] == d[x]
    decreases |args|
  {
    if args != [] && params != [] {
      BindKeeps(d[params[0].name := args[0]], args[1..], params[1..], x);
    }
  }

  /** `_run_binary_expr` once both operands are known. */
  function BinaryOp(op: TokenType, l: Value, r: Value): (res: Result<Value, Signal>)
    ensures res.Err? ==> res.error.Raised?
    ensures op in {PlusToken, MinusToken, MultiplicationToken, DivisionToken} ==>
      (res.Ok? <==> l.VFloat? && r.VFloat? && (op == DivisionToken ==> r.r != 0.0))
    ensures op in {PlusToken, MinusToken, MultiplicationToken, DivisionToken} && res.Ok? ==> res.value.VFloat?
    ensures op == DivisionToken && l.VFloat? && r == VFloat(0.0) ==> res == Err(Raised(ZeroDivisionError))
    ensures op in {EqualsToken, NotEqualsToken} ==>
      (res.Ok? <==> (l.VFloat? || l.VStr?) && (r.VFloat? || r.VStr?))
    ensures op in {GreaterOrEqualToken, GreaterToken, LessOrEqualToken, LessToken} ==>
      (res.Ok? <==> l.VFloat? && r.VFloat?)
    ensures op in {EqualsToken, NotEqualsToken, GreaterOrEqualToken, GreaterToken, LessOrEqualToken, LessToken} && res.Ok? ==>
      res.value.VBool?
    ensures op !in {PlusToken, MinusToken, MultiplicationToken, DivisionToken, EqualsToken, NotEqualsToken,
                    GreaterOrEqualToken, GreaterToken, LessOrEqualToken, LessToken} ==>
      res == Err(Raised(AssertionError))
  {
    var floats := l.VFloat? && r.VFloat?;
    var comparable := (l.VFloat? || l.VStr?) && (r.VFloat? || r.VStr?);
    if op == PlusToken then (if floats then Ok(VFloat(l.r + r.r)) else Err(Raised(AssertionError)))
    else if op == MinusToken then (if floats then Ok(VFloat(l.r - r.r)) else Err(Raised(AssertionError)))
    else if op == MultiplicationToken then (if floats then Ok(VFloat(l.r * r.r)) else Err(Raised(AssertionError)))
    else if op == DivisionToken then
      (if !floats then Err(Raised(AssertionError))
       else if r.r == 0.0 then Err(Raised(ZeroDivisionError))
       else Ok(VFloat(l.r / r.r)))
    else if op == EqualsToken then (if comparable then Ok(VBool(PyEq(l, r))) else Err(Raised(AssertionError)))
    else if op == NotEqualsToken then (if comparable then Ok(VBool(!PyEq(l, r))) else Err(Raised(AssertionError)))
    else if op == GreaterOrEqualToken then (if floats then Ok(VBool(l.r >= r.r)) else Err(Raised(AssertionError)))
    else if op == GreaterToken then (if floats then Ok(VBool(l.r > r.r)) else Err(Raised(AssertionError)))
    else if op == LessOrEqualToken then (if floats then Ok(VBool(l.r <= r.r)) else Err(Raised(AssertionError)))
    else if op == LessToken then (if floats then Ok(VBool(l.r < r.r)) else Err(Raised(AssertionError)))
    else Err(Raised(AssertionError))
  }

  /** `_run_game_fn`: the function registered under `name`, applied. */
  function CallGame(ctx: Context, name: string, args: seq<Value>): (r: Result<Option<Value>, Signal>)
    ensures r.Err? <==> name !in ctx.gameFns
    ensures r.Err? ==> r.error == Raised(KeyError(name))
    ensures r.Ok? ==> r.value == ctx.gameCode(ctx.gameFns[name], args)
  {
    if name !in ctx.gameFns then Err(Raised(KeyError(name)))
    else Ok(ctx.gameCode(ctx.gameFns[name], args))
  }

  // ---------------------------------------------------------------------------
  // Expressions
  // ---------------------------------------------------------------------------

  /** `_run_expr` */
  function EvalExpr(ctx: Context, m: Machine, fuel: nat, e: Expr): (r: Step<Value>)
    decreases fuel, e, 1
    ensures Grows(m, r.m)
    ensures m.depth.None? ==> r.m.globals == m.globals && (r.out.Ok? ==> r.m == m)
    ensures JumpFree(ctx) ==> !IsJump(r.out) && (r.out.Ok? ==> r.m.depth == m.depth)
    ensures e.CallExpr? && StartsWith(e.fnName, "helper_") ==> r.out.Err?
  {
    match e
    case TrueExpr(_) => Step(m, Ok(VBool(true)))
    case FalseExpr(_) => Step(m, Ok(VBool(false)))
    case StringExpr(s, _) => Step(m, Ok(VStr(s)))
    case ResourceExpr(s, _) => Step(m, Ok(VStr(s)))
    case EntityExpr(s, _) => Step(m, Ok(VStr(EntityString(ctx.mod, s))))
    case IdentifierExpr(name, _) => Step(m, Lookup(m, name))
    case NumberExpr(v, _, _) => Step(m, Ok(VFloat(v)))
    case UnaryExpr(_, _, _) => EvalUnary(ctx, m, fuel, e)
    case BinaryExpr(_, _, _, _) => EvalBinary(ctx, m, fuel, e)
    case LogicalExpr(_, _, _, _) => EvalLogical(ctx, m, fuel, e)
    case CallExpr(_, _, _) =>
      var st := EvalCall(ctx, m, fuel, e);
      if st.out.Err? then Step(st.m, Err(st.out.error))
      // a function that returns nothing cannot be used in an expression
      else if st.out.value.None? then Step(st.m, Err(Raised(AssertionError)))
      else Step(st.m, Ok(st.out.value.value))
    case ParenthesizedExpr(x, _) => EvalExpr(ctx, m, fuel, x)
  }

  /** `_run_unary_expr`: the operator is checked before its operand runs. */
  function EvalUnary(ctx: Context, m: Machine, fuel: nat, e: Expr): (r: Step<Value>)
    requires e.UnaryExpr?
    decreases fuel, e, 0
    ensures Grows(m, r.m)
    ensures m.depth.None? ==> r.m.globals == m.globals && (r.out.Ok? ==> r.m == m)
    ensures JumpFree(ctx) ==> !IsJump(r.out) && (r.out.Ok? ==> r.m.depth == m.depth)
    ensures e.op == MinusToken && r.out.Ok? ==> r.out.value.VFloat?
    ensures e.op == NotToken && r.out.Ok? ==> r.out.value.VBool?
    ensures e.op != MinusToken && e.op != NotToken ==> r == Step(m, Err(Raised(AssertionError)))
  {
    if e.op == MinusToken then
      var st := EvalExpr(ctx, m, fuel, e.expr);
      if st.out.Err? then st
      else if !st.out.value.VFloat? then Step(st.m, Err(Raised(AssertionError)))
      else Step(st.m, Ok(VFloat(-st.out.value.r)))
    else if e.op == NotToken then
      var st := EvalExpr(ctx, m, fuel, e.expr);
      if st.out.Err? then st
      else Step(st.m, Ok(VBool(!Truthy(st.out.value))))
    else Step(m, Err(Raised(AssertionError)))
  }

  /** `_run_binary_expr`: both operands run, left first, before the
      operator is looked at. */
  function EvalBinary(ctx: Context, m: Machine, fuel: nat, e: Expr): (r: Step<Value>)
    requires e.BinaryExpr?
    decreases fuel, e, 0
    ensures Grows(m, r.m)
    ensures m.depth.None? ==> r.m.globals == m.globals && (r.out.Ok? ==> r.m == m)
    ensures JumpFree(ctx) ==> !IsJump(r.out) && (r.out.Ok? ==> r.m.depth == m.depth)
  {
    var left := EvalExpr(ctx, m, fuel, e.left);
    if left.out.Err? then left
    else
      var right := EvalExpr(ctx, left.m, fuel, e.right);
      if right.out.Err? then right
      else Step(right.m, BinaryOp(e.op, left.out.value, right.out.value))
  }

  /** `_run_logical_expr`: Python's `and` and `or`, which give back an
      operand and run the right one only when the left does not decide. */
  function EvalLogical(ctx: Context, m: Machine, fuel: nat, e: Expr): (r: Step<Value>)
    requires e.LogicalExpr?
    decreases fuel, e, 0
    ensures Grows(m, r.m)
    ensures m.depth.None? ==> r.m.globals == m.globals && (r.out.Ok? ==> r.m == m)
    ensures JumpFree(ctx) ==> !IsJump(r.out) && (r.out.Ok? ==> r.m.depth == m.depth)
    ensures e.op == AndToken && EvalExpr(ctx, m, fuel, e.left).out.Ok? && !Truthy(EvalExpr(ctx, m, fuel, e.left).out.value) ==>
      r == EvalExpr(ctx, m, fuel, e.left)
    ensures e.op == OrToken && EvalExpr(ctx, m, fuel, e.left).out.Ok? && Truthy(EvalExpr(ctx, m, fuel, e.left).out.value) ==>
      r == EvalExpr(ctx, m, fuel, e.left)
    ensures e.op != AndToken && e.op != OrToken ==> r == Step(m, Err(Raised(AssertionError)))
  {
    if e.op != AndToken && e.op != OrToken then Step(m, Err(Raised(AssertionError)))
    else
      var left := EvalExpr(ctx, m, fuel, e.left);
      if left.out.Err? then left
      else if (e.op == AndToken) != Truthy(left.out.value) then left
      else EvalExpr(ctx, left.m, fuel, e.right)
  }

  /** The argument list of a call, evaluated left to right from `k` on, after
      the values `acc` of those before. */
  function EvalArgs(ctx: Context, m: Machine, fuel: nat, es: seq<Expr>, k: nat, acc: seq<Value>): (r: Step<seq<Value>>)
    requires k <= |es|
    decreases fuel, es, |es| - k
    ensures Grows(m, r.m)
    ensures m.depth.None? ==> r.m.globals == m.globals && (r.out.Ok? ==> r.m == m)
    ensures JumpFree(ctx) ==> !IsJump(r.out) && (r.out.Ok? ==> r.m.depth == m.depth)
    ensures r.out.Ok? ==> |r.out.value| == |acc| + |es| - k && r.out.value[..|acc|] == acc
  {
    if k == |es| then Step(m, Ok(acc))
    else
      var st := EvalExpr(ctx, m, fuel, es[k]);
      if st.out.Err? then Step(st.m, Err(st.out.error))
      else
        var r := EvalArgs(ctx, st.m, fuel, es, k + 1, acc + [st.out.value]);
        assert r.out.Ok? ==> r.out.value[..|acc|] == (acc + [st.out.value])[..|acc|];
        r
  }

  /** `_run_call_expr`: the arguments, then a helper function if the name
      says so, else a game function.  A helper call spends one unit of
      fuel. */
  function EvalCall(ctx: Context, m: Machine, fuel: nat, e: Expr): (r: Step<Option<Value>>)
    requires e.CallExpr?
    decreases fuel, e, 0
    ensures Grows(m, r.m)
    ensures m.depth.None? ==> r.m.globals == m.globals && (r.out.Ok? ==> r.m == m)
    ensures JumpFree(ctx) ==> !IsJump(r.out) && (r.out.Ok? ==> r.m.depth == m.depth)
    ensures StartsWith(e.fnName, "helper_") && r.out.Ok? ==> r.out.value.None?
  {
    var args := EvalArgs(ctx, m, fuel, e.args, 0, []);
    if args.out.Err? then Step(args.m, Err(args.out.error))
    else if StartsWith(e.fnName, "helper_") then
      if fuel == 0 then Step(args.m, Err(Raised(OutOfFuel)))
      else CallHelper(ctx, args.m, fuel - 1, e.fnName, args.out.value)
    else Step(args.m, CallGame(ctx, e.fnName, args.out.value))
  }

  /** `_run_helper_fn`: a fresh dictionary becomes the locals and is pushed,
      the arguments are bound, the body runs, and the stack is popped.  The
      caller's dictionary is not restored, and a `return` is not caught, so
      a helper call that completes returns `None`. */
  function CallHelper(ctx: Context, m: Machine, fuel: nat, name: string, args: seq<Value>): (r: Step<Option<Value>>)
    decreases fuel
    ensures Grows(m, r.m)
    ensures m.depth.None? ==> r.m.globals == m.globals && (r.out.Ok? ==> r.m == m)
    ensures JumpFree(ctx) ==> !IsJump(r.out) && (r.out.Ok? ==> r.m.depth == m.depth)
    ensures r.out.Ok? ==> r.out.value.None?
    ensures name !in ctx.helperFns ==> r == Step(m, Err(Raised(KeyError(name))))
    ensures name in ctx.helperFns && m.depth.None? ==> r.out == Err(Raised(AttributeError))
  {
    if name !in ctx.helperFns then Step(m, Err(Raised(KeyError(name))))
    else
      var f := ctx.helperFns[name];
      var cleared := m.(locals := Some(map[]));
      if cleared.depth.None? then Step(cleared, Err(Raised(AttributeError)))
      else
        var pushed := cleared.(depth := Some(cleared.depth.value + 1), locals := Some(Bind(map[], args, f.arguments)));
        var st := ExecFrom(ctx, pushed, fuel, f.body, 0);
        if st.out.Err? then Step(st.m, Err(st.out.error))
        else Step(st.m.(depth := Some(st.m.depth.value - 1)), Ok(None))
  }

  // ---------------------------------------------------------------------------
  // Statements
  // ---------------------------------------------------------------------------

  /** `_run_statement` */
  function Exec(ctx: Context, m: Machine, fuel: nat, s: Statement): (r: Step<()>)
    decreases fuel, s, 1
    ensures Grows(m, r.m)
    ensures JumpFree(ctx) ==> (r.out.Ok? || IsJump(r.out) ==> r.m.depth == m.depth)
    ensures JumpFree(ctx) && GrugParser.NoLooseJump(s) ==> !IsJump(r.out)
  {
    match s
    case VariableStatement(name, _, _, e) =>
      var st := EvalExpr(ctx, m, fuel, e);
      if st.out.Err? then Step(st.m, Err(st.out.error))
      else Assign(st.m, name, st.out.value)
    case CallStatement(c) =>
      // `_run_call_expr` reads `.arguments`, which only a call has
      if !c.CallExpr? then Step(m, Err(Raised(AttributeError)))
      else
        var st := EvalCall(ctx, m, fuel, c);
        if st.out.Err? then Step(st.m, Err(st.out.error)) else Step(st.m, Ok(()))
    case IfStatement(c, a, b) =>
      var st := EvalExpr(ctx, m, fuel, c);
      if st.out.Err? then Step(st.m, Err(st.out.error))
      else if Truthy(st.out.value) then ExecFrom(ctx, st.m, fuel, a, 0)
      else ExecFrom(ctx, st.m, fuel, b, 0)
    case ReturnStatement(v) =>
      if v.None? then Step(m, Err(Return(None)))
      else
        var st := EvalExpr(ctx, m, fuel, v.value);
        if st.out.Err? then Step(st.m, Err(st.out.error))
        else Step(st.m, Err(Return(Some(st.out.value))))
    case WhileStatement(_, _) => WhileLoop(ctx, m, fuel, s)
    case BreakStatement => Step(m, Err(Break))
    case ContinueStatement => Step(m, Err(Continue))
    case EmptyLineStatement => Step(m, Ok(()))
    case CommentStatement(_) => Step(m, Ok(()))
  }

  /** `_run_while_statement`: a `break` ends the loop, also one raised by the
      condition; a `continue` ends the iteration.  Each iteration spends one
      unit of fuel. */
  function WhileLoop(ctx: Context, m: Machine, fuel: nat, s: Statement): (r: Step<()>)
    requires s.WhileStatement?
    decreases fuel, s, 0
    ensures Grows(m, r.m)
    ensures JumpFree(ctx) ==> !IsJump(r.out) && (r.out.Ok? ==> r.m.depth == m.depth)
  {
    var c := EvalExpr(ctx, m, fuel, s.condition);
    if c.out.Err? then (if c.out.error.Break? then Step(c.m, Ok(())) else Step(c.m, Err(c.out.error)))
    else if !Truthy(c.out.value) then Step(c.m, Ok(()))
    else if fuel == 0 then Step(c.m, Err(Raised(OutOfFuel)))
    else
      var b := ExecFrom(ctx, c.m, fuel - 1, s.body, 0);
      if b.out.Err? && b.out.error.Break? then Step(b.m, Ok(()))
      else if b.out.Err? && !b.out.error.Continue? then b
      else WhileLoop(ctx, b.m, fuel - 1, s)
  }

  /** `_run_statements` from the `k`-th statement on. */
  function ExecFrom(ctx: Context, m: Machine, fuel: nat, ss: seq<Statement>, k: nat): (r: Step<()>)
    requires k <= |ss|
    decreases fuel, ss, |ss| - k
    ensures Grows(m, r.m)
    ensures JumpFree(ctx) ==> (r.out.Ok? || IsJump(r.out) ==> r.m.depth == m.depth)
    ensures JumpFree(ctx) && GrugParser.NoLooseJumps(ss[k..]) ==> !IsJump(r.out)
  {
    if k == |ss| then Step(m, Ok(()))
    else
      var st := Exec(ctx, m, fuel, ss[k]);
      assert GrugParser.NoLooseJumps(ss[k..]) ==> GrugParser.NoLooseJump(ss[k]) && GrugParser.NoLooseJumps(ss[k + 1..]) by {
        assert forall j :: k < j < |ss| ==> ss[k..][j - k] == ss[j];
      }
      if st.out.Err? then st else ExecFrom(ctx, st.m, fuel, ss, k + 1)
  }

  // ---------------------------------------------------------------------------
  // on_ functions and the globals
  // ---------------------------------------------------------------------------

  /** The frame of a call: a fresh dictionary holding the arguments, pushed
      on the stack. */
  function Enter(m: Machine, args: seq<Value>, params: seq<Argument>): (r: Machine)
    requires m.depth.Some?
    ensures r.depth == Some(m.depth.value + 1) && r.globals == m.globals
  {
    m.(depth := Some(m.depth.value + 1), locals := Some(Bind(map[], args, params)))
  }

  /** `run_on_fn`: like a helper call, but afterwards the stack must be
      empty again. */
  function OnFnCall(ctx: Context, onFns: map<string, OnFn>, m: Machine, fuel: nat, name: string, args: seq<Value>): (r: Step<()>)
    ensures Grows(m, r.m)
    ensures name !in onFns ==> r == Step(m, Err(Raised(RuntimeError(name))))
    // from an empty stack, a body that completes leaves the stack empty, so
    // the final assertion holds
    ensures JumpFree(ctx) && name in onFns && GrugParser.NoLooseJumps(onFns[name].body) && m.depth == Some(0) ==>
      (r.out.Ok? <==> ExecFrom(ctx, Enter(m.(locals := Some(map[])), args, onFns[name].arguments), fuel, onFns[name].body, 0).out.Ok?)
      && (r.out.Ok? ==> r.m.depth == Some(0))
    // a frame left on the stack makes every later call fail
    ensures m.depth.Some? && m.depth.value > 0 ==> r.out.Err?
  {
    if name !in onFns then Step(m, Err(Raised(RuntimeError(name))))
    else
      var f := onFns[name];
      var cleared := m.(locals := Some(map[]));
      if cleared.depth.None? then Step(cleared, Err(Raised(AttributeError)))
      else
        var st := ExecFrom(ctx, Enter(cleared, args, f.arguments), fuel, f.body, 0);
        if st.out.Err? then st
        else
          var popped := st.m.(depth := Some(st.m.depth.value - 1));
          if popped.depth.value != 0 then Step(popped, Err(Raised(AssertionError)))
          else Step(popped, Ok(()))
  }

  /** A `return` is never caught: it escapes `run_on_fn` and leaves its frame
      on the stack, and from then on every call of an on_ function fails. */
  lemma ReturnPoisonsEntity(ctx: Context, onFns: map<string, OnFn>, m: Machine, fuel: nat, name: string, args: seq<Value>,
                            fuel': nat, name': string, args': seq<Value>)
    requires m.depth.Some? && name in onFns
    requires OnFnCall(ctx, onFns, m, fuel, name, args).out.Err?
    requires OnFnCall(ctx, onFns, m, fuel, name, args).out.error.Return?
    ensures OnFnCall(ctx, onFns, m, fuel, name, args).m.depth.value > m.depth.value
    ensures OnFnCall(ctx, onFns, OnFnCall(ctx, onFns, m, fuel, name, args).m, fuel', name', args').out.Err?
  {
    var f := onFns[name];
    var entered := Enter(m.(locals := Some(map[])), args, f.arguments);
    var st := ExecFrom(ctx, entered, fuel, f.body, 0);
    assert OnFnCall(ctx, onFns, m, fuel, name, args) == st;
  }

  /** The names `gs[k..]` define. */
  function GlobalNames(gs: seq<GlobalStatement>, k: nat): (r: set<string>)
    requires k <= |gs|
    decreases |gs| - k
    ensures forall j :: k <= j < |gs| ==> gs[j].name in r
    ensures forall x :: x in r ==> exists j :: k <= j < |gs| && gs[j].name == x
  {
    if k == |gs| then {} else {gs[k].name} + GlobalNames(gs, k + 1)
  }

  /** The loop of `__init__` from the `k`-th global on: each initializer runs
      with the globals before it and is stored under its name. */
  function InitGlobals(ctx: Context, m: Machine, fuel: nat, gs: seq<GlobalStatement>, k: nat): (r: Step<()>)
    requires k <= |gs|
    decreases |gs| - k
    ensures r.m.depth.None? == m.depth.None?
    ensures m.globals.Keys <= r.m.globals.Keys
    ensures r.out.Ok? ==> r.m.globals.Keys == m.globals.Keys + GlobalNames(gs, k)
    // before the stack exists no initializer can change a global or the
    // locals, so `me` keeps the entity's id unless a global redefines it
    ensures m.depth.None? && r.out.Ok? ==> r.m.locals == m.locals
    ensures m.depth.None? && "me" in m.globals && "me" !in GlobalNames(gs, k) ==> r.m.globals["me"] == m.globals["me"]
  {
    if k == |gs| then Step(m, Ok(()))
    else
      var st := EvalExpr(ctx, m, fuel, gs[k].expr);
      if st.out.Err? then Step(st.m, Err(st.out.error))
      else InitGlobals(ctx, st.m.(globals := st.m.globals[gs[k].name := st.out.value]), fuel, gs, k + 1)
  }

  /** Running the globals `k..` is running `k..j-1` and then, if that
      succeeded, `j..`. */
  lemma {:induction false} InitGlobalsSplit(ctx: Context, m: Machine, fuel: nat, gs: seq<GlobalStatement>, k: nat, j: nat)
    requires k <= j <= |gs|
    decreases |gs| - k
    ensures var before := InitGlobals(ctx, m, fuel, gs[..j], k);
      InitGlobals(ctx, m, fuel, gs, k) == if before.out.Err? then before else InitGlobals(ctx, before.m, fuel, gs, j)
  {
    if k < j {
      assert gs[..j][k] == gs[k];
      var st := EvalExpr(ctx, m, fuel, gs[k].expr);
      if st.out.Ok? {
        InitGlobalsSplit(ctx, st.m.(globals := st.m.globals[gs[k].name := st.out.value]), fuel, gs, k + 1, j);
      }
    }
  }

  /** A global that no later global redefines keeps its value. */
  lemma {:induction false} InitGlobalsKeeps(ctx: Context, m: Machine, fuel: nat, gs: seq<GlobalStatement>, k: nat, x: string)
    requires k <= |gs| && m.depth.None? && x in m.globals
    requires forall i :: k <= i < |gs| ==> gs[i].name != x
    decreases |gs| - k
    ensures InitGlobals(ctx, m, fuel, gs, k).m.globals[x] == m.globals[x]
  {
    if k < |gs| {
      var st := EvalExpr(ctx, m, fuel, gs[k].expr);
      if st.out.Ok? {
        InitGlobalsKeeps(ctx, st.m.(globals := st.m.globals[gs[k].name := st.out.value]), fuel, gs, k + 1, x);
      }
    }
  }

  /** Each global holds, after `__init__`, the value its initializer gave in
      the state the globals before it left, unless a later global of the
      same name overwrote it. */
  lemma InitGlobalsStores(ctx: Context, m: Machine, fuel: nat, gs: seq<GlobalStatement>, j: nat)
    requires j < |gs| && m.depth.None?
    requires forall i :: j < i < |gs| ==> gs[i].name != gs[j].name
    requires InitGlobals(ctx, m, fuel, gs, 0).out.Ok?
    ensures var before := InitGlobals(ctx, m, fuel, gs[..j], 0);
      && before.out.Ok?
      && EvalExpr(ctx, before.m, fuel, gs[j].expr).out.Ok?
      && InitGlobals(ctx, m, fuel, gs, 0).m.globals[gs[j].name] == EvalExpr(ctx, before.m, fuel, gs[j].expr).out.value
  {
    InitGlobalsSplit(ctx, m, fuel, gs, 0, j);
    var before := InitGlobals(ctx, m, fuel, gs[..j], 0);
    var st := EvalExpr(ctx, before.m, fuel, gs[j].expr);
    var next := st.m.(globals := st.m.globals[gs[j].name := st.out.value]);
    InitGlobalsKeeps(ctx, next, fuel, gs, j + 1, gs[j].name);
  }

  /** While the globals are initialized no local variable exists: an
      initializer that reads a name neither defined before `__init__` nor by
      an earlier global raises a TypeError, unless an earlier global failed
      first. */
  lemma InitReadsOnlyEarlierGlobals(ctx: Context, m: Machine, fuel: nat, gs: seq<GlobalStatement>, k: nat, x: string)
    requires k < |gs| && m.depth.None? && m.locals.None?
    requires gs[k].expr.IdentifierExpr? && gs[k].expr.name == x
    requires x !in m.globals && x !in GlobalNames(gs[..k], 0)
    ensures var before := InitGlobals(ctx, m, fuel, gs[..k], 0);
      InitGlobals(ctx, m, fuel, gs, 0).out == if before.out.Err? then before.out else Err(Raised(TypeError))
  {
    InitGlobalsSplit(ctx, m, fuel, gs, 0, k);
  }

  /** The helper functions of a parsed file have no loose `break` or
      `continue`. */
  lemma ParsedHelpersJumpFree(items: seq<AstItem>, mod: string, gameFns: map<string, GameFn>, gameCode: GameCode)
    requires forall k :: 0 <= k < |items| ==> GrugParser.ItemOk(items[k])
    ensures JumpFree(Context(mod, GrugParser.HelperFnTable(items), gameFns, gameCode))
  {
    var table := GrugParser.HelperFnTable(items);
    forall name | name in table
      ensures GrugParser.NoLooseJumps(table[name].body)
    {
      GrugParser.HelperFnTableIndexes(items, name);
      var k :| 0 <= k < |items| && items[k] == HelperFnItem(table[name]);
      assert GrugParser.ItemOk(items[k]);
    }
  }

  /** A helper call does not give the caller its dictionary back: after a
      call of a helper whose body is empty, the caller's locals are gone. */
  lemma LocalsNotRestored(ctx: Context, m: Machine, fuel: nat, name: string, x: string)
    requires name in ctx.helperFns && ctx.helperFns[name].body == []
    requires m.depth.Some? && m.locals.Some? && x in m.locals.value && x !in m.globals
    ensures CallHelper(ctx, m, fuel, name, []).out == Ok(None)
    ensures Lookup(m, x).Ok? && Lookup(CallHelper(ctx, m, fuel, name, []).m, x) == Err(Raised(KeyError(x)))
  {
    assert Bind(map[], [], ctx.helperFns[name].arguments) == map[];
  }

  // ---------------------------------------------------------------------------
  // The entity
  // ---------------------------------------------------------------------------

  class Entity {
    const meId: int
    const file: GrugFile
    var globalVariables: map<string, Value>
    /** `None` until the attribute is assigned. */
    var localVariables: Option<map<string, Value>>
    /** The height of the stack of scopes, `None` until it is assigned. */
    var localVariableScopes: Option<nat>

    /** What the running code reads of the file and of its state. */
    function Ctx(): Context
      reads file.state
    {
      Context(file.mod, file.helperFns, file.state.gameFns, file.state.gameCode)
    }

    function Snapshot(): Machine
      reads this
    {
      Machine(globalVariables, localVariables, localVariableScopes)
    }

    /** `__init__` up to the loop over the globals: the entity takes the next
        id, and `me` is its first global. */
    constructor(file: GrugFile)
      modifies file.state
      ensures this.file == file && meId == old(file.state.nextId)
      ensures file.state.nextId == old(file.state.nextId) + 1 && file.state.gameFns == old(file.state.gameFns)
      ensures Snapshot() == Machine(map["me" := VInt(meId)], None, None)
    {
      meId := file.state.nextId;
      this.file := file;
      globalVariables := map["me" := VInt(file.state.nextId)];
      localVariables := None;
      localVariableScopes := None;
      new;
      file.state.nextId := file.state.nextId + 1;
    }

    /** The rest of `__init__`: the globals in file order, then an empty
        stack and an empty dictionary of locals. */
    method InitGlobalVariables(fuel: nat) returns (r: Result<(), Signal>)
      modifies this
      ensures var st := InitGlobals(Ctx(), old(Snapshot()), fuel, file.globalVariables, 0);
        && r == st.out
        && (r.Err? ==> Snapshot() == st.m)
        && (r.Ok? ==> Snapshot() == st.m.(locals := Some(map[]), depth := Some(0)))
    {
      for k := 0 to |file.globalVariables|
        invariant InitGlobals(Ctx(), old(Snapshot()), fuel, file.globalVariables, 0)
               == InitGlobals(Ctx(), Snapshot(), fuel, file.globalVariables, k)
      {
        var g := file.globalVariables[k];
        var value := RunExpr(g.expr, fuel);
        if value.Err? {
          return Err(value.error);
        }
        globalVariables := globalVariables[g.name := value.value];
      }
      localVariableScopes := Some(0);
      localVariables := Some(map[]);
      return Ok(());
    }

    // -------------------------------------------------------------------------
    // Expressions
    // -------------------------------------------------------------------------

    /** `_run_expr` */
    method RunExpr(e: Expr, fuel: nat) returns (r: Result<Value, Signal>)
      modifies this
      decreases fuel, e, 1
      ensures var st := EvalExpr(Ctx(), old(Snapshot()), fuel, e); Snapshot() == st.m && r == st.out
    {
      match e
      case TrueExpr(_) => r := Ok(VBool(true));
      case FalseExpr(_) => r := Ok(VBool(false));
      case StringExpr(s, _) => r := Ok(VStr(s));
      case ResourceExpr(s, _) => r := Ok(VStr(s));
      case EntityExpr(s, _) => r := Ok(VStr(if ':' in s then s else file.mod + ":" + s));
      case IdentifierExpr(name, _) =>
        if name in globalVariables {
          r := Ok(globalVariables[name]);
        } else if localVariables.None? {
          r := Err(Raised(TypeError));
        } else if name in localVariables.value {
          r := Ok(localVariables.value[name]);
        } else {
          r := Err(Raised(KeyError(name)));
        }
      case NumberExpr(v, _, _) => r := Ok(VFloat(v));
      case UnaryExpr(_, _, _) => r := RunUnaryExpr(e, fuel);
      case BinaryExpr(_, _, _, _) => r := RunBinaryExpr(e, fuel);
      case LogicalExpr(_, _, _, _) => r := RunLogicalExpr(e, fuel);
      case CallExpr(_, _, _) =>
        var value := RunCallExpr(e, fuel);
        if value.Err? {
          r := Err(value.error);
        } else if value.value.None? {
          r := Err(Raised(AssertionError));
        } else {
          r := Ok(value.value.value);
        }
      case ParenthesizedExpr(x, _) => r := RunExpr(x, fuel);
    }

    /** `_run_unary_expr` */
    method RunUnaryExpr(e: Expr, fuel: nat) returns (r: Result<Value, Signal>)
      requires e.UnaryExpr?
      modifies this
      decreases fuel, e, 0
      ensures var st := EvalUnary(Ctx(), old(Snapshot()), fuel, e); Snapshot() == st.m && r == st.out
    {
      if e.op == MinusToken {
        var number := RunExpr(e.expr, fuel);
        if number.Err? {
          return number;
        }
        if !number.value.VFloat? {
          return Err(Raised(AssertionError));
        }
        return Ok(VFloat(-number.value.r));
      }
      if e.op != NotToken {
        return Err(Raised(AssertionError));
      }
      var value := RunExpr(e.expr, fuel);
      if value.Err? {
        return value;
      }
      return Ok(VBool(!Truthy(value.value)));
    }

    /** `_run_binary_expr` */
    method RunBinaryExpr(e: Expr, fuel: nat) returns (r: Result<Value, Signal>)
      requires e.BinaryExpr?
      modifies this
      decreases fuel, e, 0
      ensures var st := EvalBinary(Ctx(), old(Snapshot()), fuel, e); Snapshot() == st.m && r == st.out
    {
      var left := RunExpr(e.left, fuel);
      if left.Err? {
        return left;
      }
      var right := RunExpr(e.right, fuel);
      if right.Err? {
        return right;
      }
      r := BinaryOp(e.op, left.value, right.value);
    }

    /** `_run_logical_expr` */
    method RunLogicalExpr(e: Expr, fuel: nat) returns (r: Result<Value, Signal>)
      requires e.LogicalExpr?
      modifies this
      decreases fuel, e, 0
      ensures var st := EvalLogical(Ctx(), old(Snapshot()), fuel, e); Snapshot() == st.m && r == st.out
    {
      if e.op == AndToken {
        var left := RunExpr(e.left, fuel);
        if left.Err? || !Truthy(left.value) {
          return left;
        }
        r := RunExpr(e.right, fuel);
      } else {
        if e.op != OrToken {
          return Err(Raised(AssertionError));
        }
        var left := RunExpr(e.left, fuel);
        if left.Err? || Truthy(left.value) {
          return left;
        }
        r := RunExpr(e.right, fuel);
      }
    }

    /** The list comprehension over a call's arguments. */
    method RunArguments(es: seq<Expr>, fuel: nat) returns (r: Result<seq<Value>, Signal>)
      modifies this
      decreases fuel, es
      ensures var st := EvalArgs(Ctx(), old(Snapshot()), fuel, es, 0, []); Snapshot() == st.m && r == st.out
    {
      var values := [];
      for k := 0 to |es|
        invariant EvalArgs(Ctx(), old(Snapshot()), fuel, es, 0, []) == EvalArgs(Ctx(), Snapshot(), fuel, es, k, values)
      {
        var value := RunExpr(es[k], fuel);
        if value.Err? {
          return Err(value.error);
        }
        values := values + [value.value];
      }
      return Ok(values);
    }

    /** `_run_call_expr` */
    method RunCallExpr(e: Expr, fuel: nat) returns (r: Result<Option<Value>, Signal>)
      requires e.CallExpr?
      modifies this
      decreases fuel, e, 0
      ensures var st := EvalCall(Ctx(), old(Snapshot()), fuel, e); Snapshot() == st.m && r == st.out
    {
      var args := RunArguments(e.args, fuel);
      if args.Err? {
        return Err(args.error);
      }
      if StartsWith(e.fnName, "helper_") {
        if fuel == 0 {
          return Err(Raised(OutOfFuel));
        }
        r := RunHelperFn(e.fnName, args.value, fuel - 1);
      } else {
        r := RunGameFn(e.fnName, args.value);
      }
    }

    /** The `zip` loop that binds a call's arguments in the current
        dictionary. */
    method BindArguments(args: seq<Value>, params: seq<Argument>)
      requires localVariables.Some?
      modifies this
      ensures localVariables == Some(Bind(old(localVariables.value), args, params))
      ensures globalVariables == old(globalVariables) && localVariableScopes == old(localVariableScopes)
    {
      var n := if |args| < |params| then |args| else |params|;
      for k := 0 to n
        invariant localVariables.Some?
        invariant Bind(old(localVariables.value), args, params) == Bind(localVariables.value, args[k..], params[k..])
        invariant globalVariables == old(globalVariables) && localVariableScopes == old(localVariableScopes)
      {
        assert args[k..][1..] == args[k + 1..] && params[k..][1..] == params[k + 1..];
        localVariables := Some(localVariables.value[params[k].name := args[k]]);
      }
    }

    /** `_run_helper_fn` */
    method RunHelperFn(name: string, args: seq<Value>, fuel: nat) returns (r: Result<Option<Value>, Signal>)
      modifies this
      decreases fuel
      ensures var st := CallHelper(Ctx(), old(Snapshot()), fuel, name, args); Snapshot() == st.m && r == st.out
    {
      if name !in file.helperFns {
        return Err(Raised(KeyError(name)));
      }
      var helperFn := file.helperFns[name];
      localVariables := Some(map[]);
      if localVariableScopes.None? {
        return Err(Raised(AttributeError));
      }
      localVariableScopes := Some(localVariableScopes.value + 1);
      BindArguments(args, helperFn.arguments);
      var result := RunStatements(helperFn.body, fuel);
      if result.Err? {
        return Err(result.error);
      }
      localVariableScopes := Some(localVariableScopes.value - 1);
      return Ok(None);
    }

    /** `_run_game_fn` */
    method RunGameFn(name: string, args: seq<Value>) returns (r: Result<Option<Value>, Signal>)
      ensures r == CallGame(Ctx(), name, args)
    {
      if name !in file.state.gameFns {
        return Err(Raised(KeyError(name)));
      }
      var gameFn := file.state.gameFns[name];
      return Ok(file.state.gameCode(gameFn, args));
    }

    // -------------------------------------------------------------------------
    // Statements
    // -------------------------------------------------------------------------

    /** `_run_statements` */
    method RunStatements(ss: seq<Statement>, fuel: nat) returns (r: Result<(), Signal>)
      modifies this
      decreases fuel, ss
      ensures var st := ExecFrom(Ctx(), old(Snapshot()), fuel, ss, 0); Snapshot() == st.m && r == st.out
    {
      for k := 0 to |ss|
        invariant ExecFrom(Ctx(), old(Snapshot()), fuel, ss, 0) == ExecFrom(Ctx(), Snapshot(), fuel, ss, k)
      {
        var result := RunStatement(ss[k], fuel);
        if result.Err? {
          return result;
        }
      }
      return Ok(());
    }

    /** `_run_statement` */
    method RunStatement(s: Statement, fuel: nat) returns (r: Result<(), Signal>)
      modifies this
      decreases fuel, s, 1
      ensures var st := Exec(Ctx(), old(Snapshot()), fuel, s); Snapshot() == st.m && r == st.out
    {
      match s
      case VariableStatement(_, _, _, _) => r := RunVariableStatement(s, fuel);
      case CallStatement(_) => r := RunCallStatement(s, fuel);
      case IfStatement(_, _, _) => r := RunIfStatement(s, fuel);
      case ReturnStatement(_) => r := RunReturnStatement(s, fuel);
      case WhileStatement(_, _) => r := RunWhileStatement(s, fuel);
      case BreakStatement => r := Err(Break);
      case ContinueStatement => r := Err(Continue);
      case EmptyLineStatement => r := Ok(());
      case CommentStatement(_) => r := Ok(());
    }

    /** `_run_variable_statement` */
    method RunVariableStatement(s: Statement, fuel: nat) returns (r: Result<(), Signal>)
      requires s.VariableStatement?
      modifies this
      decreases fuel, s, 0
      ensures var st := Exec(Ctx(), old(Snapshot()), fuel, s); Snapshot() == st.m && r == st.out
    {
      var value := RunExpr(s.expr, fuel);
      if value.Err? {
        return Err(value.error);
      }
      if s.name in globalVariables {
        globalVariables := globalVariables[s.name := value.value];
      } else if localVariables.None? {
        return Err(Raised(TypeError));
      } else {
        localVariables := Some(localVariables.value[s.name := value.value]);
      }
      return Ok(());
    }

    /** `_run_call_statement`: the call's result is dropped. */
    method RunCallStatement(s: Statement, fuel: nat) returns (r: Result<(), Signal>)
      requires s.CallStatement?
      modifies this
      decreases fuel, s, 0
      ensures var st := Exec(Ctx(), old(Snapshot()), fuel, s); Snapshot() == st.m && r == st.out
    {
      if !s.call.CallExpr? {
        return Err(Raised(AttributeError));
      }
      var result := RunCallExpr(s.call, fuel);
      if result.Err? {
        return Err(result.error);
      }
      return Ok(());
    }

    /** `_run_if_statement` */
    method RunIfStatement(s: Statement, fuel: nat) returns (r: Result<(), Signal>)
      requires s.IfStatement?
      modifies this
      decreases fuel, s, 0
      ensures var st := Exec(Ctx(), old(Snapshot()), fuel, s); Snapshot() == st.m && r == st.out
    {
      var condition := RunExpr(s.condition, fuel);
      if condition.Err? {
        return Err(condition.error);
      }
      if Truthy(condition.value) {
        r := RunStatements(s.ifBody, fuel);
      } else {
        r := RunStatements(s.elseBody, fuel);
      }
    }

    /** `_run_return_statement` */
    method RunReturnStatement(s: Statement, fuel: nat) returns (r: Result<(), Signal>)
      requires s.ReturnStatement?
      modifies this
      decreases fuel, s, 0
      ensures var st := Exec(Ctx(), old(Snapshot()), fuel, s); Snapshot() == st.m && r == st.out
    {
      if s.value.Some? {
        var value := RunExpr(s.value.value, fuel);
        if value.Err? {
          return Err(value.error);
        }
        return Err(Return(Some(value.value)));
      }
      return Err(Return(None));
    }

    /** `_run_while_statement` */
    method RunWhileStatement(s: Statement, fuel: nat) returns (r: Result<(), Signal>)
      requires s.WhileStatement?
      modifies this
      decreases fuel, s, 0
      ensures var st := WhileLoop(Ctx(), old(Snapshot()), fuel, s); Snapshot() == st.m && r == st.out
    {
      var f: nat := fuel;
      while true
        invariant f <= fuel
        invariant WhileLoop(Ctx(), old(Snapshot()), fuel, s) == WhileLoop(Ctx(), Snapshot(), f, s)
        decreases f
      {
        var condition := RunExpr(s.condition, f);
        if condition.Err? {
          if condition.error.Break? {
            return Ok(());
          }
          return Err(condition.error);
        }
        if !Truthy(condition.value) {
          return Ok(());
        }
        if f == 0 {
          return Err(Raised(OutOfFuel));
        }
        var body := RunStatements(s.body, f - 1);
        if body.Err? && body.error.Break? {
          return Ok(());
        }
        if body.Err? && !body.error.Continue? {
          return body;
        }
        f := f - 1;
      }
    }

    /** `run_on_fn` */
    method RunOnFn(name: string, args: seq<Value>, fuel: nat) returns (r: Result<(), Signal>)
      modifies this
      ensures var st := OnFnCall(Ctx(), file.onFns, old(Snapshot()), fuel, name, args); Snapshot() == st.m && r == st.out
    {
      if name !in file.onFns {
        return Err(Raised(RuntimeError(name)));
      }
      var onFn := file.onFns[name];
      localVariables := Some(map[]);
      if localVariableScopes.None? {
        return Err(Raised(AttributeError));
      }
      localVariableScopes := Some(localVariableScopes.value + 1);
      BindArguments(args, onFn.arguments);
      var result := RunStatements(onFn.body, fuel);
      if result.Err? {
        return result;
      }
      localVariableScopes := Some(localVariableScopes.value - 1);
      if localVariableScopes.value != 0 {
        return Err(Raised(AssertionError));
      }
      return Ok(());
    }
  }

  /** `GrugFile.create_entity`: a new entity of the file, or the exception
      one of its global initializers raised.  The id is taken either way. */
  method CreateEntity(file: GrugFile, fuel: nat) returns (r: Result<Entity, Signal>)
    modifies file.state
    ensures file.state.nextId == old(file.state.nextId) + 1
    ensures var st := InitGlobals(
              Context(file.mod, file.helperFns, old(file.state.gameFns), file.state.gameCode),
              Machine(map["me" := VInt(old(file.state.nextId))], None, None), fuel, file.globalVariables, 0);
      && (r.Err? <==> st.out.Err?)
      && (r.Err? ==> r.error == st.out.error)
      && (r.Ok? ==> fresh(r.value) && r.value.file == file && r.value.meId == old(file.state.nextId)
                    && r.value.Snapshot() == Machine(st.m.globals, Some(map[]), Some(0)))
    // the globals are `me` and the file's globals, and `me` holds the
    // entity's id unless the file defines a global of that name
    ensures r.Ok? ==> r.value.globalVariables.Keys == {"me"} + GlobalNames(file.globalVariables, 0)
    ensures r.Ok? && "me" !in GlobalNames(file.globalVariables, 0) ==> r.value.globalVariables["me"] == VInt(r.value.meId)
  {
    var entity := new Entity(file);
    var init := entity.InitGlobalVariables(fuel);
    if init.Err? {
      return Err(init.error);
    }
    return Ok(entity);
  }
}
