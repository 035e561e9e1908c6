/** `TypePropagator` (src/grug/type_propagator.py): fills in the `result`
    of every expression of a parsed grug file and rejects ill-typed files.
    The object keeps the variable tables and the function being filled in
    fields its methods update; each method is proved to do what the
    functions of `TypeRules` say. */
module TypePropagation {
  import opened Wrappers
  import opened Tokenizer
  import opened Ast
  import opened GrugParser
  import opened TypeRules

  // ---------------------------------------------------------------------------
  // The mod API (mod_api.json)
  // ---------------------------------------------------------------------------

  /** A parameter of a game function. */
  datatype ApiArgument = ApiArgument(name: string, typeName: string, resourceExtension: Option<string>, entityType: Option<string>)

  datatype ApiGameFn = ApiGameFn(arguments: seq<ApiArgument>, returnType: Option<string>)

  /** An on_ function an entity declares. */
  datatype ApiOnFn = ApiOnFn(name: string, arguments: seq<ApiParam>)

  /** The game functions by name, and each entity type's on_ functions in
      the order the file lists them. */
  datatype ModApi = ModApi(gameFunctions: map<string, ApiGameFn>, entities: map<string, seq<ApiOnFn>>)

  /** The on_ functions of an entity are the keys of a JSON object. */
  predicate DistinctApiNames(fns: seq<ApiOnFn>) {
    forall i, j :: 0 <= i < j < |fns| ==> fns[i].name != fns[j].name
  }

  /** `parse_game_fn`, with `parse_args`. */
  function ToGameFn(name: string, g: ApiGameFn): (r: GameFn)
    ensures r.fnName == name && |r.arguments| == |g.arguments| && r.returnTypeName == g.returnType
    ensures r.returnType.Some? <==> g.returnType.Some?
    ensures forall i :: 0 <= i < |g.arguments| ==>
      r.arguments[i].name == g.arguments[i].name && r.arguments[i].typeName == g.arguments[i].typeName
  {
    GameFn(name,
      seq(|g.arguments|, i requires 0 <= i < |g.arguments| =>
        var a := g.arguments[i];
        Argument(a.name, ParseType(a.typeName), a.typeName, a.resourceExtension, a.entityType)),
      if g.returnType.Some? then Some(ParseType(g.returnType.value)) else None,
      g.returnType)
  }

  function GameFunctions(api: ModApi): (r: map<string, GameFn>)
    ensures r.Keys == api.gameFunctions.Keys
    ensures forall n :: n in r ==> r[n].fnName == n && |r[n].arguments| == |api.gameFunctions[n].arguments|
  {
    map name | name in api.gameFunctions :: ToGameFn(name, api.gameFunctions[name])
  }

  /** `fn_name in self.entity_on_functions` */
  predicate Declared(fns: seq<ApiOnFn>, name: string) {
    exists k :: 0 <= k < |fns| && fns[k].name == name
  }

  // ---------------------------------------------------------------------------
  // Where the file's functions sit
  // ---------------------------------------------------------------------------

  datatype FnKind = OnKind | HelperKind

  predicate IsFn(item: AstItem, kind: FnKind) {
    if kind == OnKind then item.OnFnItem? else item.HelperFnItem?
  }

  function FnName(item: AstItem): string {
    match item
    case OnFnItem(f) => f.fnName
    case HelperFnItem(h) => h.fnName
    case _ => ""
  }

  /** The names of the file's functions of one kind, in file order: the
      keys of the source's `on_fns` or `helper_fns`. */
  function FnNames(items: seq<AstItem>, kind: FnKind): seq<string>
    decreases |items|
  {
    if items == [] then []
    else
      var x := items[|items| - 1];
      FnNames(items[..|items| - 1], kind) + if IsFn(x, kind) then [FnName(x)] else []
  }

  /** Where each function of one kind sits in the file. */
  function FnPositions(items: seq<AstItem>, kind: FnKind): map<string, nat>
    decreases |items|
  {
    if items == [] then map[]
    else
      var x := items[|items| - 1];
      var t := FnPositions(items[..|items| - 1], kind);
      if IsFn(x, kind) then t[FnName(x) := |items| - 1] else t
  }

  /** `positions` places each function of one kind of `items`. */
  predicate PositionsOk(items: seq<AstItem>, positions: map<string, nat>, kind: FnKind) {
    (forall n :: n in positions ==>
       positions[n] < |items| && IsFn(items[positions[n]], kind) && FnName(items[positions[n]]) == n)
    && (forall j :: 0 <= j < |items| && IsFn(items[j], kind) ==>
          FnName(items[j]) in positions && positions[FnName(items[j])] == j)
  }

  predicate DistinctOfKind(items: seq<AstItem>, kind: FnKind) {
    forall a, b :: 0 <= a < b < |items| && IsFn(items[a], kind) && IsFn(items[b], kind) ==>
      FnName(items[a]) != FnName(items[b])
  }

  lemma {:induction false} FnIndexing(items: seq<AstItem>, kind: FnKind)
    requires DistinctOfKind(items, kind)
    ensures PositionsOk(items, FnPositions(items, kind), kind)
    ensures DistinctNames(FnNames(items, kind))
    ensures forall n :: n in FnPositions(items, kind) <==> n in FnNames(items, kind)
  {
    if items != [] {
      var init := items[..|items| - 1];
      var x := items[|items| - 1];
      assert DistinctOfKind(init, kind);
      FnIndexing(init, kind);
      var t := FnPositions(init, kind);
      if IsFn(x, kind) {
        forall j | 0 <= j < |init| && IsFn(init[j], kind) ensures FnName(init[j]) != FnName(x) {
          assert items[j] == init[j];
        }
        assert FnName(x) !in t;
      }
    }
  }

  /** `on_fns`: the file's on_ functions by name. */
  function OnFnsAt(items: seq<AstItem>, positions: map<string, nat>): map<string, OnFn>
    requires PositionsOk(items, positions, OnKind)
  {
    map n | n in positions :: items[positions[n]].onFn
  }

  /** `helper_fns`: the file's helper_ functions by name. */
  function HelperFnsAt(items: seq<AstItem>, positions: map<string, nat>): map<string, HelperFn>
    requires PositionsOk(items, positions, HelperKind)
  {
    map n | n in positions :: items[positions[n]].helperFn
  }

  /** The tables the constructor builds agree with each other. */
  lemma Tables(items: seq<AstItem>)
    requires DistinctFnNames(items)
    ensures PositionsOk(items, FnPositions(items, OnKind), OnKind)
    ensures PositionsOk(items, FnPositions(items, HelperKind), HelperKind)
    ensures DistinctNames(FnNames(items, OnKind)) && DistinctNames(FnNames(items, HelperKind))
    ensures forall n :: n in OnFnsAt(items, FnPositions(items, OnKind)) <==> n in FnNames(items, OnKind)
    ensures forall n :: n in HelperFnsAt(items, FnPositions(items, HelperKind)) <==> n in FnNames(items, HelperKind)
    ensures var t := OnFnsAt(items, FnPositions(items, OnKind)); forall n :: n in t ==> t[n].fnName == n
    ensures var t := HelperFnsAt(items, FnPositions(items, HelperKind)); forall n :: n in t ==> t[n].fnName == n
  {
    assert DistinctOfKind(items, OnKind) && DistinctOfKind(items, HelperKind);
    FnIndexing(items, OnKind);
    FnIndexing(items, HelperKind);
  }

  predicate SameKindAndName(x: AstItem, y: AstItem) {
    x.GlobalItem? == y.GlobalItem? && x.OnFnItem? == y.OnFnItem? && x.HelperFnItem? == y.HelperFnItem?
    && FnName(x) == FnName(y)
  }

  predicate SameShape(a: seq<AstItem>, b: seq<AstItem>) {
    |a| == |b| && forall j :: 0 <= j < |a| ==> SameKindAndName(a[j], b[j])
  }

  lemma SameShapeKeepsPositions(a: seq<AstItem>, b: seq<AstItem>, positions: map<string, nat>, kind: FnKind)
    requires SameShape(a, b) && PositionsOk(a, positions, kind)
    ensures PositionsOk(b, positions, kind)
  {
  }

  /** The file with each on_ function that `filled` names replaced. */
  function ReplaceOnFns(items: seq<AstItem>, filled: map<string, OnFn>): seq<AstItem> {
    seq(|items|, j requires 0 <= j < |items| =>
      if items[j].OnFnItem? && items[j].onFn.fnName in filled then OnFnItem(filled[items[j].onFn.fnName]) else items[j])
  }

  /** The file with each helper_ function that `filled` names replaced. */
  function ReplaceHelperFns(items: seq<AstItem>, filled: map<string, HelperFn>): seq<AstItem> {
    seq(|items|, j requires 0 <= j < |items| =>
      if items[j].HelperFnItem? && items[j].helperFn.fnName in filled then HelperFnItem(filled[items[j].helperFn.fnName]) else items[j])
  }

  lemma ReplaceOnFnsStep(items: seq<AstItem>, positions: map<string, nat>, filled: map<string, OnFn>, name: string, f: OnFn)
    requires PositionsOk(items, positions, OnKind) && name in positions
    ensures ReplaceOnFns(items, filled)[positions[name] := OnFnItem(f)] == ReplaceOnFns(items, filled[name := f])
  {
  }

  lemma ReplaceHelperFnsStep(items: seq<AstItem>, positions: map<string, nat>, filled: map<string, HelperFn>, name: string, h: HelperFn)
    requires PositionsOk(items, positions, HelperKind) && name in positions
    ensures ReplaceHelperFns(items, filled)[positions[name] := HelperFnItem(h)] == ReplaceHelperFns(items, filled[name := h])
  {
  }

  /** `list.index` */
  function IndexOf(names: seq<string>, name: string): (k: nat)
    ensures k <= |names|
    ensures k < |names| ==> names[k] == name
    ensures forall j :: 0 <= j < k ==> names[j] != name
  {
    if names == [] then 0
    else if names[0] == name then 0
    else 1 + IndexOf(names[1..], name)
  }

  // ---------------------------------------------------------------------------
  // The propagator
  // ---------------------------------------------------------------------------

  class TypePropagator {
    /** The file, whose items the fill methods replace by filled ones. */
    var ast: seq<AstItem>
    const mod: string
    const fileEntityType: string
    const entityOnFunctions: seq<ApiOnFn>
    const gameFunctions: map<string, GameFn>
    /** `on_fns` and `helper_fns`: the file's functions by name, in file order. */
    const onFns: map<string, OnFn>
    const onFnNames: seq<string>
    const onFnPositions: map<string, nat>
    const helperFns: map<string, HelperFn>
    const helperFnNames: seq<string>
    const helperFnPositions: map<string, nat>

    var fnReturnType: Option<Type>
    var fnReturnTypeName: Option<string>
    var filledFnName: Option<string>
    var localVariables: map<string, Variable>
    var globalVariables: map<string, Variable>

    /** The file's functions sit in `items` where the position tables say. */
    ghost predicate Indexed(items: seq<AstItem>) {
      PositionsOk(items, onFnPositions, OnKind) && PositionsOk(items, helperFnPositions, HelperKind)
    }

    /** The tables agree with each other; the entity's on_ functions have
        distinct names. */
    ghost predicate TablesOk() {
      DistinctNames(onFnNames) && DistinctNames(helperFnNames)
      && (forall n :: n in onFns <==> n in onFnNames) && (forall n :: n in helperFns <==> n in helperFnNames)
      && onFns.Keys == onFnPositions.Keys && helperFns.Keys == helperFnPositions.Keys
      && (forall n :: n in onFns ==> onFns[n].fnName == n)
      && (forall n :: n in helperFns ==> helperFns[n].fnName == n)
      && DistinctApiNames(entityOnFunctions)
    }

    ghost predicate Valid()
      reads this`ast
    {
      TablesOk() && Indexed(ast)
    }

    function Env(): Env {
      TypeRules.Env(helperFns, gameFunctions, mod)
    }

    function Fn(): FnInfo
      reads this
    {
      FnInfo(fnReturnType, fnReturnTypeName, filledFnName)
    }

    constructor(ast: seq<AstItem>, mod: string, entityType: string, api: ModApi)
      requires entityType in api.entities && DistinctApiNames(api.entities[entityType])
      requires DistinctFnNames(ast)
      ensures Valid()
      ensures this.ast == ast && this.mod == mod && fileEntityType == entityType
      ensures entityOnFunctions == api.entities[entityType] && gameFunctions == GameFunctions(api)
      ensures onFnNames == FnNames(ast, OnKind) && helperFnNames == FnNames(ast, HelperKind)
      ensures onFnPositions == FnPositions(ast, OnKind) && helperFnPositions == FnPositions(ast, HelperKind)
      ensures onFns == OnFnsAt(ast, onFnPositions) && helperFns == HelperFnsAt(ast, helperFnPositions)
      ensures fnReturnType == None && fnReturnTypeName == None && filledFnName == None
      ensures localVariables == map[] && globalVariables == map[]
    {
      Tables(ast);
      this.ast := ast;
      this.mod := mod;
      fileEntityType := entityType;
      onFnNames := FnNames(ast, OnKind);
      onFnPositions := FnPositions(ast, OnKind);
      onFns := OnFnsAt(ast, FnPositions(ast, OnKind));
      helperFnNames := FnNames(ast, HelperKind);
      helperFnPositions := FnPositions(ast, HelperKind);
      helperFns := HelperFnsAt(ast, FnPositions(ast, HelperKind));
      gameFunctions := GameFunctions(api);
      entityOnFunctions := api.entities[entityType];
      fnReturnType := None;
      fnReturnTypeName := None;
      filledFnName := None;
      localVariables := map[];
      globalVariables := map[];
    }

    // -------------------------------------------------------------------------
    // The variable tables
    // -------------------------------------------------------------------------

    /** `add_global_variable` */
    method AddGlobalVariable(name: string, ty: Option<Type>, typeName: Option<string>) returns (r: Result<(), TypeError>)
      modifies this`globalVariables
      ensures r.Ok? <==> name !in old(globalVariables)
      ensures r.Ok? ==> globalVariables == old(globalVariables)[name := Variable(name, ty, typeName)]
      ensures r.Err? ==> r.error == GlobalShadowsGlobal(name) && globalVariables == old(globalVariables)
    {
      if name in globalVariables {
        return Err(GlobalShadowsGlobal(name));
      }
      globalVariables := globalVariables[name := Variable(name, ty, typeName)];
      return Ok(());
    }

    /** `add_local_variable`: a local variable may shadow neither a local
        nor a global one. */
    method AddLocalVariable(name: string, ty: Option<Type>, typeName: Option<string>) returns (r: Result<(), TypeError>)
      modifies this`localVariables
      ensures r.Ok? <==> name !in old(localVariables) && name !in globalVariables
      ensures r.Ok? ==> localVariables == old(localVariables)[name := Variable(name, ty, typeName)]
      ensures r.Err? ==> localVariables == old(localVariables)
      ensures r.Err? ==> r.error == if name in old(localVariables) then LocalShadowsLocal(name) else LocalShadowsGlobal(name)
    {
      if name in localVariables {
        return Err(LocalShadowsLocal(name));
      }
      if name in globalVariables {
        return Err(LocalShadowsGlobal(name));
      }
      localVariables := localVariables[name := Variable(name, ty, typeName)];
      return Ok(());
    }

    /** `add_argument_variables`: the parameters become the only local
        variables. */
    method AddArgumentVariables(args: seq<Argument>) returns (r: Result<(), TypeError>)
      modifies this`localVariables
      ensures match ArgumentLocals(globalVariables, args)
        case Ok(locals) => r == Ok(()) && localVariables == locals
        case Err(e) => r == Err(e)
    {
      localVariables := map[];
      var i := 0;
      while i < |args|
        invariant 0 <= i <= |args|
        invariant ArgumentLocals(globalVariables, args[..i]) == Ok(localVariables)
      {
        assert args[..i + 1][..i] == args[..i];
        var added := AddLocalVariable(args[i].name, Some(args[i].ty), Some(args[i].typeName));
        if added.Err? {
          ArgumentLocalsErr(globalVariables, args, i + 1);
          return added;
        }
        i := i + 1;
      }
      assert args[..|args|] == args;
      return Ok(());
    }

    // -------------------------------------------------------------------------
    // Expressions
    // -------------------------------------------------------------------------

    /** `check_arguments`: rewrites string literals passed for resource
        and entity parameters in place and checks each argument's type. */
    method CheckArguments(params: seq<Argument>, call: Expr) returns (r: Result<seq<Expr>, TypeError>)
      requires call.CallExpr?
      ensures r == CheckedArguments(mod, call.fnName, params, call.args)
    {
      var fnName := call.fnName;
      var args := call.args;
      if |args| < |params| {
        return Err(MissingArgument(fnName, params[|args|].name));
      }
      if |args| > |params| {
        return Err(ExtraArgument(fnName, args[|params|].result.typeName));
      }
      var checkedArgs: seq<Expr> := [];
      var i := 0;
      while i < |params|
        invariant 0 <= i <= |params|
        invariant CheckedPrefix(mod, fnName, params, args, i) == Ok(checkedArgs)
      {
        var checked := CheckArgument(fnName, params[i], args[i]);
        if checked.Err? {
          CheckedPrefixErr(mod, fnName, params, args, i + 1, |params|);
          return Err(checked.error);
        }
        checkedArgs := checkedArgs + [checked.value];
        i := i + 1;
      }
      return Ok(checkedArgs);
    }

    /** One turn of `check_arguments`' loop: the argument `arg` of the
        parameter `param`, converted if it is a string literal passed for
        a resource or an entity, then checked against the parameter. */
    method CheckArgument(fnName: string, param: Argument, arg: Expr) returns (r: Result<Expr, TypeError>)
      ensures r == CheckedArgument(mod, fnName, param, arg)
    {
      var a := arg;
      if a.StringExpr? && param.ty == Resource {
        a := ResourceExpr(a.str, ResourceResult);
        var valid := ValidateResourceString(a.str, param.resourceExtension);
        if valid.Err? {
          return Err(valid.error);
        }
      } else if a.StringExpr? && param.ty == Entity {
        a := EntityExpr(a.str, EntityResult);
        var valid := ValidateEntityString(a.str, mod);
        if valid.Err? {
          return Err(valid.error);
        }
      }
      if a.result.ty.None? {
        return Err(ArgumentWithoutValue(fnName, param.name));
      }
      if !Assignable(Some(param.typeName), a.result) {
        return Err(ArgumentType(fnName, param.name, a.result.typeName));
      }
      return Ok(a);
    }

    /** `fill_call_expr`: the arguments first, in order, then the function
        called gives the result. */
    method FillCallExpr(e: Expr) returns (r: Result<Expr, TypeError>)
      requires e.CallExpr?
      decreases e, 0
      ensures r == FilledExpr(Env(), localVariables, globalVariables, e)
    {
      var args: seq<Expr> := [];
      var i := 0;
      while i < |e.args|
        invariant 0 <= i <= |e.args|
        invariant FilledExprs(Env(), localVariables, globalVariables, e.args[..i]) == Ok(args)
      {
        assert e.args[..i + 1][..i] == e.args[..i];
        var a := FillExpr(e.args[i]);
        if a.Err? {
          FilledExprsErr(Env(), localVariables, globalVariables, e.args, i + 1);
          return Err(a.error);
        }
        args := args + [a.value];
        i := i + 1;
      }
      assert e.args[..|e.args|] == e.args;
      var fnName := e.fnName;
      if fnName in helperFns {
        var h := helperFns[fnName];
        var checked := CheckArguments(h.arguments, CallExpr(fnName, args, ExprResult(h.returnType, h.returnTypeName)));
        if checked.Err? {
          return Err(checked.error);
        }
        return Ok(CallExpr(fnName, checked.value, ExprResult(h.returnType, h.returnTypeName)));
      }
      if fnName in gameFunctions {
        var g := gameFunctions[fnName];
        var checked := CheckArguments(g.arguments, CallExpr(fnName, args, ExprResult(g.returnType, g.returnTypeName)));
        if checked.Err? {
          return Err(checked.error);
        }
        return Ok(CallExpr(fnName, checked.value, ExprResult(g.returnType, g.returnTypeName)));
      }
      if StartsWith(fnName, "on_") {
        return Err(CallsOnFn(fnName));
      }
      if StartsWith(fnName, "helper_") {
        return Err(UndefinedHelper(fnName));
      }
      return Err(UndeclaredGameFn(fnName));
    }

    /** `fill_binary_expr`, for binary and logical expressions. */
    method FillBinaryExpr(e: Expr) returns (r: Result<Expr, TypeError>)
      requires e.BinaryExpr? || e.LogicalExpr?
      decreases e, 0
      ensures r == FilledExpr(Env(), localVariables, globalVariables, e)
    {
      var left := FillExpr(e.left);
      if left.Err? {
        return Err(left.error);
      }
      var right := FillExpr(e.right);
      if right.Err? {
        return Err(right.error);
      }
      var op := e.op;
      var l := left.value.result;
      var res := e.result;
      if l.ty == Some(String) && !(op == EqualsToken || op == NotEqualsToken) {
        return Err(StringOperator(op));
      }
      var isId := l.typeName == Some("id") || right.value.result.typeName == Some("id");
      if !isId && l.typeName != right.value.result.typeName {
        return Err(OperandTypes(op));
      }
      if op == EqualsToken || op == NotEqualsToken {
        res := BoolResult;
      } else if op == GreaterOrEqualToken || op == GreaterToken || op == LessOrEqualToken || op == LessToken {
        if l.ty != Some(Number) {
          return Err(OperatorExpectsNumber(op));
        }
        res := BoolResult;
      } else if op == AndToken || op == OrToken {
        if l.ty != Some(Bool) {
          return Err(OperatorExpectsBool(op));
        }
        res := BoolResult;
      } else if op == PlusToken || op == MinusToken || op == MultiplicationToken || op == DivisionToken {
        if l.ty != Some(Number) {
          return Err(OperatorExpectsNumber(op));
        }
        res := l;
      }
      if e.BinaryExpr? {
        return Ok(BinaryExpr(left.value, op, right.value, res));
      }
      return Ok(LogicalExpr(left.value, op, right.value, res));
    }

    /** `fill_expr` */
    method FillExpr(e: Expr) returns (r: Result<Expr, TypeError>)
      decreases e, 1
      ensures r == FilledExpr(Env(), localVariables, globalVariables, e)
    {
      match e
      case IdentifierExpr(name, _) =>
        var v := GetVariable(localVariables, globalVariables, name);
        if v.None? {
          return Err(UnknownVariable(name));
        }
        return Ok(IdentifierExpr(name, ExprResult(v.value.ty, v.value.typeName)));
      case UnaryExpr(op, x, _) =>
        if x.UnaryExpr? && x.op == op {
          return Err(DoubleUnary(op));
        }
        var inner := FillExpr(x);
        if inner.Err? {
          return Err(inner.error);
        }
        var res := inner.value.result;
        if op == NotToken && res.ty != Some(Bool) {
          return Err(NotExpectsBool(res.typeName));
        }
        if op == MinusToken && res.ty != Some(Number) {
          return Err(MinusExpectsNumber(res.typeName));
        }
        return Ok(UnaryExpr(op, inner.value, res));
      case BinaryExpr(_, _, _, _) =>
        r := FillBinaryExpr(e);
      case LogicalExpr(_, _, _, _) =>
        r := FillBinaryExpr(e);
      case CallExpr(_, _, _) =>
        r := FillCallExpr(e);
      case ParenthesizedExpr(x, _) =>
        var inner := FillExpr(x);
        if inner.Err? {
          return Err(inner.error);
        }
        return Ok(ParenthesizedExpr(inner.value, inner.value.result));
      case _ =>
        return Ok(e);
    }

    // -------------------------------------------------------------------------
    // Statements
    // -------------------------------------------------------------------------

    /** `fill_variable_statement`: the value is filled before the variable is
        declared, so `a: number = a` refers to an outer `a`. */
    method FillVariableStatement(s: Statement) returns (r: Result<Statement, TypeError>)
      requires s.VariableStatement?
      modifies this`localVariables
      ensures match FilledVariable(Env(), old(localVariables), globalVariables, s)
        case Ok((s', locals)) => r == Ok(s') && localVariables == locals
        case Err(e) => r == Err(e)
    {
      var x := FillExpr(s.expr);
      if x.Err? {
        return Err(x.error);
      }
      var v := GetVariable(localVariables, globalVariables, s.name);
      if s.ty.Some? {
        if s.typeName.None? {
          return Err(Malformed);
        }
        if v.Some? {
          return Err(VariableExists(s.name));
        }
        if !Assignable(s.typeName, x.value.result) {
          return Err(AssignType(s.name));
        }
        var _ := AddLocalVariable(s.name, s.ty, s.typeName);
      } else {
        if v.None? {
          return Err(AssignUndeclared(s.name));
        }
        if s.name in globalVariables && v.value.ty == Some(Id) {
          return Err(GlobalIdReassigned);
        }
        if !Assignable(v.value.typeName, x.value.result) {
          return Err(AssignType(v.value.name));
        }
      }
      return Ok(s.(expr := x.value));
    }

    /** `remove_local_variables_in_statements`: the variables a block
        declared go out of scope. */
    method RemoveLocalVariablesInStatements(ss: seq<Statement>)
      requires forall n :: n in TypedNames(ss) ==> n in localVariables
      requires DistinctNames(TypedNames(ss))
      modifies this`localVariables
      ensures localVariables == old(localVariables) - (set n | n in TypedNames(ss))
    {
      var i := 0;
      while i < |ss|
        invariant 0 <= i <= |ss|
        invariant localVariables == old(localVariables) - (set n | n in TypedNames(ss[..i]))
      {
        TypedNamesPrefix(ss, i + 1);
        assert ss[..i + 1][..i] == ss[..i];
        var s := ss[i];
        if s.VariableStatement? && s.ty.Some? {
          var before := TypedNames(ss[..i]);
          assert TypedNames(ss[..i + 1]) == before + [s.name];
          assert TypedNames(ss)[|before|] == s.name;
          assert forall j :: 0 <= j < |before| ==> before[j] == TypedNames(ss)[j];
          assert s.name !in before;
          localVariables := localVariables - {s.name};
        }
        i := i + 1;
      }
      assert ss[..|ss|] == ss;
    }

    /** One turn of `fill_statements`' loop. */
    method FillStatement(s: Statement) returns (r: Result<Statement, TypeError>)
      modifies this`localVariables
      decreases s, 0
      ensures match FilledStatement(Env(), Fn(), old(localVariables), globalVariables, s)
        case Ok((s', locals)) => r == Ok(s') && localVariables == locals
        case Err(e) => r == Err(e)
    {
      match s
      case VariableStatement(_, _, _, _) =>
        r := FillVariableStatement(s);
      case CallStatement(c) =>
        if !c.CallExpr? {
          return Err(Malformed);
        }
        var c' := FillCallExpr(c);
        if c'.Err? {
          return Err(c'.error);
        }
        return Ok(CallStatement(c'.value));
      case IfStatement(cond, a, b) =>
        var cond' := FillExpr(cond);
        if cond'.Err? {
          return Err(cond'.error);
        }
        var a' := FillStatements(a);
        if a'.Err? {
          return Err(a'.error);
        }
        if b == [] {
          return Ok(IfStatement(cond'.value, a'.value, b));
        }
        var b' := FillStatements(b);
        if b'.Err? {
          return Err(b'.error);
        }
        return Ok(IfStatement(cond'.value, a'.value, b'.value));
      case ReturnStatement(v) =>
        if v.Some? {
          var x := FillExpr(v.value);
          if x.Err? {
            return Err(x.error);
          }
          if fnReturnType.None? {
            return Err(UnexpectedReturnValue(filledFnName));
          }
          if !Assignable(fnReturnTypeName, x.value.result) {
            return Err(WrongReturnType(filledFnName));
          }
          return Ok(ReturnStatement(Some(x.value)));
        }
        if fnReturnType.Some? {
          return Err(MissingReturnValue(filledFnName));
        }
        return Ok(s);
      case WhileStatement(cond, body) =>
        var cond' := FillExpr(cond);
        if cond'.Err? {
          return Err(cond'.error);
        }
        var body' := FillStatements(body);
        if body'.Err? {
          return Err(body'.error);
        }
        return Ok(WhileStatement(cond'.value, body'.value));
      case _ =>
        return Ok(s);
    }

    /** `fill_statements`: a block filled in order; the local variables are
        the same afterwards as before. */
    method FillStatements(ss: seq<Statement>) returns (r: Result<seq<Statement>, TypeError>)
      modifies this`localVariables
      decreases ss, 1
      ensures match FilledBlock(Env(), Fn(), old(localVariables), globalVariables, ss)
        case Ok(done) => r == Ok(done) && localVariables == old(localVariables)
        case Err(e) => r == Err(e)
    {
      var done: seq<Statement> := [];
      var i := 0;
      while i < |ss|
        invariant 0 <= i <= |ss|
        invariant FilledStatements(Env(), Fn(), old(localVariables), globalVariables, ss[..i]) == Ok((done, localVariables))
      {
        assert ss[..i + 1][..i] == ss[..i];
        var s' := FillStatement(ss[i]);
        if s'.Err? {
          FilledStatementsErr(Env(), Fn(), old(localVariables), globalVariables, ss, i + 1);
          return Err(s'.error);
        }
        done := done + [s'.value];
        i := i + 1;
      }
      assert ss[..|ss|] == ss;
      StatementsLocals(Env(), Fn(), old(localVariables), globalVariables, ss);
      BlockRestoresLocals(Env(), Fn(), old(localVariables), globalVariables, ss);
      RemoveLocalVariablesInStatements(ss);
      return Ok(done);
    }

    // -------------------------------------------------------------------------
    // Functions
    // -------------------------------------------------------------------------

    /** `fill_helper_fns` from the `k`th helper_ function on, with the ones
        before filled as `filled`: every helper_ function filled. */
    function FilledHelperFnsFrom(globals: map<string, Variable>, k: nat, filled: map<string, HelperFn>)
      : Result<map<string, HelperFn>, TypeError>
      decreases |helperFnNames| - k
    {
      if k >= |helperFnNames| then Ok(filled)
      else
        var name := helperFnNames[k];
        if name !in helperFns then FilledHelperFnsFrom(globals, k + 1, filled)
        else
          match FilledHelperFn(Env(), globals, helperFns[name])
          case Err(e) => Err(e)
          case Ok(h) => FilledHelperFnsFrom(globals, k + 1, filled[name := h])
    }

    /** `fill_helper_fns`: each helper_ function of the file, in file order,
        gets its body filled. */
    method FillHelperFns() returns (r: Result<(), TypeError>)
      requires Valid()
      modifies this`ast, this`localVariables, this`fnReturnType, this`fnReturnTypeName, this`filledFnName
      ensures match FilledHelperFnsFrom(globalVariables, 0, map[])
        case Ok(filled) => r == Ok(()) && ast == ReplaceHelperFns(old(ast), filled)
        case Err(e) => r == Err(e)
    {
      var ast0 := ast;
      var filled: map<string, HelperFn> := map[];
      var i := 0;
      while i < |helperFnNames|
        invariant 0 <= i <= |helperFnNames|
        invariant FilledHelperFnsFrom(globalVariables, 0, map[]) == FilledHelperFnsFrom(globalVariables, i, filled)
        invariant ast == ReplaceHelperFns(ast0, filled)
      {
        var name := helperFnNames[i];
        var h' := FillHelperFn(helperFns[name]);
        if h'.Err? {
          return Err(h'.error);
        }
        ReplaceHelperFnsStep(ast0, helperFnPositions, filled, name, h'.value);
        ast := ast[helperFnPositions[name] := HelperFnItem(h'.value)];
        filled := filled[name := h'.value];
        i := i + 1;
      }
      return Ok(());
    }

    /** Filled helper_ functions written back into the file leave every
        function where the tables say. */
    lemma HelperFnsWritten(items: seq<AstItem>, filled: map<string, HelperFn>)
      requires Indexed(items)
      requires forall n :: n in filled ==> filled[n].fnName == n
      ensures Indexed(ReplaceHelperFns(items, filled))
    {
      ReplaceHelperFnsShape(items, filled);
      SameShapeKeepsPositions(items, ReplaceHelperFns(items, filled), onFnPositions, OnKind);
      SameShapeKeepsPositions(items, ReplaceHelperFns(items, filled), helperFnPositions, HelperKind);
    }

    /** The same for filled on_ functions. */
    lemma OnFnsWritten(items: seq<AstItem>, filled: map<string, OnFn>)
      requires Indexed(items)
      requires forall n :: n in filled ==> filled[n].fnName == n
      ensures Indexed(ReplaceOnFns(items, filled))
    {
      ReplaceOnFnsShape(items, filled);
      SameShapeKeepsPositions(items, ReplaceOnFns(items, filled), onFnPositions, OnKind);
      SameShapeKeepsPositions(items, ReplaceOnFns(items, filled), helperFnPositions, HelperKind);
    }

    /** `fill_helper_fns` for one helper_ function. */
    method FillHelperFn(h: HelperFn) returns (r: Result<HelperFn, TypeError>)
      modifies this`localVariables, this`fnReturnType, this`fnReturnTypeName, this`filledFnName
      ensures r == FilledHelperFn(Env(), globalVariables, h)
    {
      fnReturnType := h.returnType;
      fnReturnTypeName := h.returnTypeName;
      filledFnName := Some(h.fnName);
      var added := AddArgumentVariables(h.arguments);
      if added.Err? {
        return Err(added.error);
      }
      var body := FillStatements(h.body);
      if body.Err? {
        return Err(body.error);
      }
      if h.returnType.Some? && (h.body == [] || !h.body[|h.body| - 1].ReturnStatement?) {
        return Err(MissingFinalReturn(h.fnName));
      }
      return Ok(h.(body := body.value));
    }

    /** `fill_on_fns` for one on_ function whose API parameters are
        `params`: the signature checked, then the body filled. */
    method FillOnFn(f: OnFn, params: seq<ApiParam>) returns (r: Result<OnFn, TypeError>)
      modifies this`localVariables, this`fnReturnType, this`fnReturnTypeName, this`filledFnName
      ensures r == FilledOnFn(Env(), globalVariables, f, params)
    {
      fnReturnType := None;
      fnReturnTypeName := None;
      filledFnName := Some(f.fnName);
      var checked := CheckSignature(f.fnName, f.arguments, params);
      if checked.Err? {
        return Err(checked.error);
      }
      var added := AddArgumentVariables(f.arguments);
      if added.Err? {
        return Err(added.error);
      }
      var body := FillStatements(f.body);
      if body.Err? {
        return Err(body.error);
      }
      return Ok(f.(body := body.value));
    }

    /** The first on_ function of the file, from the `k`th on, that the
        entity does not declare. */
    function FirstUndeclaredFrom(k: nat): (r: Option<string>)
      decreases |onFnNames| - k
      ensures r.Some? ==> r.value in onFnNames && !Declared(entityOnFunctions, r.value)
      ensures r.None? ==> forall j :: k <= j < |onFnNames| ==> Declared(entityOnFunctions, onFnNames[j])
    {
      if k >= |onFnNames| then None
      else if !Declared(entityOnFunctions, onFnNames[k]) then Some(onFnNames[k])
      else FirstUndeclaredFrom(k + 1)
    }

    /** The second loop of `fill_on_fns` from the `k`th on_ function of the
        entity on: `prev` is the file position of the last one met. */
    function FilledOnFnsFrom(globals: map<string, Variable>, k: nat, prev: nat, filled: map<string, OnFn>)
      : Result<map<string, OnFn>, TypeError>
      decreases |entityOnFunctions| - k
    {
      if k >= |entityOnFunctions| then Ok(filled)
      else
        var name := entityOnFunctions[k].name;
        if name !in onFns then FilledOnFnsFrom(globals, k + 1, prev, filled)
        else
          var current := IndexOf(onFnNames, name);
          if prev > current then Err(OnFnOrder(name))
          else
            match FilledOnFn(Env(), globals, onFns[name], entityOnFunctions[k].arguments)
            case Err(e) => Err(e)
            case Ok(f) => FilledOnFnsFrom(globals, k + 1, current, filled[name := f])
    }

    /** `fill_on_fns`: the file's on_ functions filled, once each is known
        to be declared and in the entity's order. */
    function FilledOnFns(globals: map<string, Variable>): Result<map<string, OnFn>, TypeError> {
      match FirstUndeclaredFrom(0)
      case Some(name) => Err(UndeclaredOnFn(name))
      case None => FilledOnFnsFrom(globals, 0, 0, map[])
    }

    /** Where the file defines the on_ function the entity lists `a`th
        (the file's count of on_ functions when it does not). */
    function FilePosition(a: nat): nat
      requires a < |entityOnFunctions|
    {
      IndexOf(onFnNames, entityOnFunctions[a].name)
    }

    predicate InFile(a: nat)
      requires a < |entityOnFunctions|
    {
      entityOnFunctions[a].name in onFns
    }

    /** From the entity's `k`th on_ function on, the ones the file defines
        come in file order, none before position `prev`. */
    predicate OrderedFrom(k: nat, prev: nat) {
      (forall a :: k <= a < |entityOnFunctions| && InFile(a) ==> prev <= FilePosition(a))
      && (forall a, b :: k <= a < b < |entityOnFunctions| && InFile(a) && InFile(b) ==> FilePosition(a) <= FilePosition(b))
    }

    /** From the entity's `k`th on_ function on, the ones the file defines
        fill without error. */
    predicate BodiesFillFrom(globals: map<string, Variable>, k: nat) {
      forall a :: k <= a < |entityOnFunctions| && InFile(a) ==>
        FilledOnFn(Env(), globals, onFns[entityOnFunctions[a].name], entityOnFunctions[a].arguments).Ok?
    }

    lemma OrderedStep(k: nat, prev: nat)
      requires k < |entityOnFunctions|
      ensures OrderedFrom(k, prev) <==>
        if InFile(k) then prev <= FilePosition(k) && OrderedFrom(k + 1, FilePosition(k)) else OrderedFrom(k + 1, prev)
    {
    }

    lemma {:induction false} OnFnsFromAccepted(globals: map<string, Variable>, k: nat, prev: nat, filled: map<string, OnFn>)
      ensures FilledOnFnsFrom(globals, k, prev, filled).Ok? <==> OrderedFrom(k, prev) && BodiesFillFrom(globals, k)
      decreases |entityOnFunctions| - k
    {
      if k < |entityOnFunctions| {
        OrderedStep(k, prev);
        var name := entityOnFunctions[k].name;
        if name !in onFns {
          OnFnsFromAccepted(globals, k + 1, prev, filled);
        } else {
          var current := FilePosition(k);
          if prev <= current {
            match FilledOnFn(Env(), globals, onFns[name], entityOnFunctions[k].arguments)
            case Err(_) =>
            case Ok(f) => OnFnsFromAccepted(globals, k + 1, current, filled[name := f]);
          }
        }
      }
    }

    /** `fill_on_fns` accepts the file's on_ functions exactly when the
        entity declares each of them, the file defines them in the order
        the entity lists them, and each has the declared parameters and a
        well-typed body. */
    lemma OnFnsAccepted(globals: map<string, Variable>)
      requires TablesOk()
      ensures FilledOnFns(globals).Ok? <==>
        (forall n :: n in onFns ==> Declared(entityOnFunctions, n))
        && (forall a, b :: 0 <= a < b < |entityOnFunctions| && InFile(a) && InFile(b) ==> FilePosition(a) < FilePosition(b))
        && (forall a :: 0 <= a < |entityOnFunctions| && InFile(a) ==>
              FilledOnFn(Env(), globals, onFns[entityOnFunctions[a].name], entityOnFunctions[a].arguments).Ok?)
    {
      OnFnsFromAccepted(globals, 0, 0, map[]);
      forall a, b | 0 <= a < b < |entityOnFunctions| && InFile(a) && InFile(b)
        ensures FilePosition(a) != FilePosition(b)
      {
        assert entityOnFunctions[a].name != entityOnFunctions[b].name;
      }
      if FirstUndeclaredFrom(0).None? {
        forall n | n in onFns ensures Declared(entityOnFunctions, n) {
          var j :| 0 <= j < |onFnNames| && onFnNames[j] == n;
        }
      }
    }

    /** `fill_on_fns` */
    method FillOnFns() returns (r: Result<(), TypeError>)
      requires Valid()
      modifies this`ast, this`localVariables, this`fnReturnType, this`fnReturnTypeName, this`filledFnName
      ensures match FilledOnFns(globalVariables)
        case Ok(filled) => r == Ok(()) && ast == ReplaceOnFns(old(ast), filled)
        case Err(e) => r == Err(e)
    {
      var i := 0;
      while i < |onFnNames|
        invariant 0 <= i <= |onFnNames|
        invariant FirstUndeclaredFrom(0) == FirstUndeclaredFrom(i)
      {
        if !Declared(entityOnFunctions, onFnNames[i]) {
          return Err(UndeclaredOnFn(onFnNames[i]));
        }
        i := i + 1;
      }
      var ast0 := ast;
      var filled: map<string, OnFn> := map[];
      var previous: nat := 0;
      var k := 0;
      while k < |entityOnFunctions|
        invariant 0 <= k <= |entityOnFunctions|
        invariant FilledOnFns(globalVariables) == FilledOnFnsFrom(globalVariables, k, previous, filled)
        invariant ast == ReplaceOnFns(ast0, filled)
      {
        var name := entityOnFunctions[k].name;
        if name !in onFns {
          k := k + 1;
          continue;
        }
        var f := onFns[name];
        var current := IndexOf(onFnNames, name);
        if previous > current {
          return Err(OnFnOrder(name));
        }
        previous := current;
        var f' := FillOnFn(f, entityOnFunctions[k].arguments);
        if f'.Err? {
          return Err(f'.error);
        }
        ReplaceOnFnsStep(ast0, onFnPositions, filled, name, f'.value);
        ast := ast[onFnPositions[name] := OnFnItem(f'.value)];
        filled := filled[name := f'.value];
        k := k + 1;
      }
      return Ok(());
    }

    /** The parameter checks of `fill_on_fns`: the count first, then each
        parameter's name and type in turn. */
    method CheckSignature(fnName: string, args: seq<Argument>, params: seq<ApiParam>) returns (r: Result<(), TypeError>)
      ensures r == SignatureCheck(fnName, args, params)
    {
      if |args| != |params| {
        if |args| < |params| {
          return Err(MissingParameter(fnName, params[|args|].name));
        }
        return Err(ExtraParameter(fnName, args[|params|].name));
      }
      var i := 0;
      while i < |args|
        invariant 0 <= i <= |args|
        invariant SignatureCheck(fnName, args, params) == ParametersFrom(fnName, args, params, i)
      {
        if args[i].name != params[i].name {
          return Err(ParameterName(fnName, args[i].name));
        }
        if IsWrongType(args[i].ty, ParseType(params[i].typeName), args[i].typeName, params[i].typeName) {
          return Err(ParameterType(fnName, params[i].name));
        }
        i := i + 1;
      }
      return Ok(());
    }

    // -------------------------------------------------------------------------
    // Global variables
    // -------------------------------------------------------------------------

    /** `fill_global_variables`' loop from the `k`th item of `items` on;
        the items before are filled already. */
    function FilledGlobalsFrom(locals: map<string, Variable>, items: seq<AstItem>, k: nat, globals: map<string, Variable>)
      : Result<(seq<AstItem>, map<string, Variable>), TypeError>
      decreases |items| - k
    {
      if k >= |items| then Ok((items, globals))
      else if items[k].GlobalItem? && items[k].global.VariableStatement? then
        match FilledGlobal(Env(), locals, globals, items[k].global)
        case Err(e) => Err(e)
        case Ok((s', globals')) => FilledGlobalsFrom(locals, items[k := GlobalItem(s')], k + 1, globals')
      else FilledGlobalsFrom(locals, items, k + 1, globals)
    }

    /** `fill_global_variables`: `me`, an id of the file's entity type,
        then the file's global variables in order. */
    function FilledGlobals(locals: map<string, Variable>, globals: map<string, Variable>, items: seq<AstItem>)
      : Result<(seq<AstItem>, map<string, Variable>), TypeError>
    {
      match TypeRules.AddGlobal(globals, "me", Some(Id), Some(fileEntityType))
      case Err(e) => Err(e)
      case Ok(globals') => FilledGlobalsFrom(locals, items, 0, globals')
    }

    /** `fill_global_variables` */
    method FillGlobalVariables() returns (r: Result<(), TypeError>)
      modifies this`ast, this`globalVariables
      ensures match FilledGlobals(localVariables, old(globalVariables), old(ast))
        case Ok((items, globals)) => r == Ok(()) && ast == items && globalVariables == globals
        case Err(e) => r == Err(e)
    {
      var added := AddGlobalVariable("me", Some(Id), Some(fileEntityType));
      if added.Err? {
        return added;
      }
      var i := 0;
      while i < |ast|
        invariant 0 <= i <= |ast|
        invariant FilledGlobals(localVariables, old(globalVariables), old(ast)) == FilledGlobalsFrom(localVariables, ast, i, globalVariables)
      {
        var item := ast[i];
        if item.GlobalItem? && item.global.VariableStatement? {
          var s' := FillGlobal(item.global);
          if s'.Err? {
            return Err(s'.error);
          }
          ast := ast[i := GlobalItem(s'.value)];
        }
        i := i + 1;
      }
      return Ok(());
    }

    /** One turn of `fill_global_variables`' loop. */
    method FillGlobal(s: Statement) returns (r: Result<Statement, TypeError>)
      requires s.VariableStatement?
      modifies this`globalVariables
      ensures match FilledGlobal(Env(), localVariables, old(globalVariables), s)
        case Ok((s', globals)) => r == Ok(s') && globalVariables == globals
        case Err(e) => r == Err(e)
    {
      if s.ty.None? || s.typeName.None? {
        return Err(Malformed);
      }
      var checked := CheckGlobalExpression(s.expr, s.name);
      if checked.Err? {
        return Err(checked.error);
      }
      var x := FillExpr(s.expr);
      if x.Err? {
        return Err(x.error);
      }
      if s.expr.IdentifierExpr? && s.expr.name == "me" {
        return Err(GlobalAssignedMe);
      }
      if !Assignable(s.typeName, x.value.result) {
        return Err(AssignType(s.name));
      }
      var declared := AddGlobalVariable(s.name, s.ty, s.typeName);
      if declared.Err? {
        return Err(declared.error);
      }
      return Ok(s.(expr := x.value));
    }

    /** `check_global_expr` */
    method CheckGlobalExpression(e: Expr, name: string) returns (r: Result<(), TypeError>)
      decreases e, 1
      ensures r == CheckGlobalExpr(e, name)
    {
      match e
      case UnaryExpr(_, x, _) =>
        r := CheckGlobalExpression(x, name);
      case BinaryExpr(l, _, right, _) =>
        r := CheckGlobalExpression(l, name);
        if r.Ok? {
          r := CheckGlobalExpression(right, name);
        }
      case LogicalExpr(l, _, right, _) =>
        r := CheckGlobalExpression(l, name);
        if r.Ok? {
          r := CheckGlobalExpression(right, name);
        }
      case CallExpr(fnName, args, _) =>
        if StartsWith(fnName, "helper_") {
          return Err(GlobalCallsHelper(name));
        }
        var i := 0;
        while i < |args|
          invariant 0 <= i <= |args|
          invariant CheckGlobalExprs(args, name) == CheckGlobalExprs(args[i..], name)
        {
          assert args[i..][1..] == args[i + 1..];
          r := CheckGlobalExpression(args[i], name);
          if r.Err? {
            return;
          }
          i := i + 1;
        }
        return Ok(());
      case ParenthesizedExpr(x, _) =>
        r := CheckGlobalExpression(x, name);
      case _ =>
        return Ok(());
    }

    /** `fill`: global variables first, then the on_ functions, then the
        helper_ functions. */
    function Propagated(locals: map<string, Variable>, globals: map<string, Variable>, items: seq<AstItem>)
      : Result<seq<AstItem>, TypeError>
    {
      match FilledGlobals(locals, globals, items)
      case Err(e) => Err(e)
      case Ok((items', globals')) =>
        match FilledOnFns(globals')
        case Err(e) => Err(e)
        case Ok(ons) =>
          match FilledHelperFnsFrom(globals', 0, map[])
          case Err(e) => Err(e)
          case Ok(helpers) => Ok(ReplaceHelperFns(ReplaceOnFns(items', ons), helpers))
    }

    /** `fill` */
    method Fill() returns (r: Result<(), TypeError>)
      requires Valid()
      modifies this
      ensures match Propagated(old(localVariables), old(globalVariables), old(ast))
        case Ok(items) => r == Ok(()) && ast == items
        case Err(e) => r == Err(e)
      ensures r.Ok? ==> Valid()
    {
      r := FillGlobalVariables();
      if r.Err? {
        return;
      }
      GlobalsIndexed(old(localVariables), old(globalVariables), old(ast));
      OnFnsIndexed(globalVariables, ast);
      r := FillOnFns();
      if r.Err? {
        return;
      }
      HelperFnsIndexed(globalVariables, ast);
      r := FillHelperFns();
    }

    lemma GlobalsIndexed(locals: map<string, Variable>, globals: map<string, Variable>, items: seq<AstItem>)
      requires Indexed(items)
      ensures FilledGlobals(locals, globals, items).Ok? ==> Indexed(FilledGlobals(locals, globals, items).value.0)
    {
      var g := TypeRules.AddGlobal(globals, "me", Some(Id), Some(fileEntityType));
      if g.Ok? {
        GlobalsFilled(locals, items, 0, g.value);
        var r := FilledGlobalsFrom(locals, items, 0, g.value);
        if r.Ok? {
          SameShapeKeepsPositions(items, r.value.0, onFnPositions, OnKind);
          SameShapeKeepsPositions(items, r.value.0, helperFnPositions, HelperKind);
        }
      }
    }

    lemma OnFnsIndexed(globals: map<string, Variable>, items: seq<AstItem>)
      requires TablesOk() && Indexed(items)
      ensures FilledOnFns(globals).Ok? ==> Indexed(ReplaceOnFns(items, FilledOnFns(globals).value))
    {
      OnFnsFilledFrom(globals, 0, 0, map[]);
      if FilledOnFns(globals).Ok? {
        OnFnsWritten(items, FilledOnFns(globals).value);
      }
    }

    lemma HelperFnsIndexed(globals: map<string, Variable>, items: seq<AstItem>)
      requires TablesOk() && Indexed(items)
      ensures FilledHelperFnsFrom(globals, 0, map[]).Ok? ==> Indexed(ReplaceHelperFns(items, FilledHelperFnsFrom(globals, 0, map[]).value))
    {
      HelperFnsFilledFrom(globals, 0, map[]);
      if FilledHelperFnsFrom(globals, 0, map[]).Ok? {
        HelperFnsWritten(items, FilledHelperFnsFrom(globals, 0, map[]).value);
      }
    }

    /** Filling the global variables changes only the values of global
        variable statements, each of which calls no helper_ function and
        declares a global variable. */
    lemma {:induction false} GlobalsFilled(locals: map<string, Variable>, items: seq<AstItem>, k: nat, globals: map<string, Variable>)
      ensures var r := FilledGlobalsFrom(locals, items, k, globals);
        r.Ok? ==>
          SameShape(items, r.value.0) && globals.Keys <= r.value.1.Keys
          && (forall j :: 0 <= j < |items| && !(k <= j && items[j].GlobalItem? && items[j].global.VariableStatement?) ==>
                r.value.0[j] == items[j])
          && (forall j :: k <= j < |items| && items[j].GlobalItem? && items[j].global.VariableStatement? ==>
                var s := items[j].global;
                r.value.0[j].GlobalItem? && r.value.0[j].global.VariableStatement?
                && r.value.0[j].global == s.(expr := r.value.0[j].global.expr)
                && s.name in r.value.1 && HelperCalls(s.expr) == {})
      decreases |items| - k
    {
      if k < |items| {
        if items[k].GlobalItem? && items[k].global.VariableStatement? {
          match FilledGlobal(Env(), locals, globals, items[k].global)
          case Err(_) =>
          case Ok((s', globals')) =>
            GlobalsFilled(locals, items[k := GlobalItem(s')], k + 1, globals');
        } else {
          GlobalsFilled(locals, items, k + 1, globals);
        }
      }
    }

    /** Every on_ function filled keeps its name. */
    lemma {:induction false} OnFnsFilledFrom(globals: map<string, Variable>, k: nat, prev: nat, filled: map<string, OnFn>)
      requires TablesOk()
      requires forall n :: n in filled ==> filled[n].fnName == n
      ensures var r := FilledOnFnsFrom(globals, k, prev, filled);
        r.Ok? ==> forall n :: n in r.value ==> r.value[n].fnName == n
      decreases |entityOnFunctions| - k
    {
      if k < |entityOnFunctions| {
        var name := entityOnFunctions[k].name;
        if name !in onFns {
          OnFnsFilledFrom(globals, k + 1, prev, filled);
        } else {
          var current := IndexOf(onFnNames, name);
          if prev <= current {
            match FilledOnFn(Env(), globals, onFns[name], entityOnFunctions[k].arguments)
            case Err(_) =>
            case Ok(f) => OnFnsFilledFrom(globals, k + 1, current, filled[name := f]);
          }
        }
      }
    }

    /** Every helper_ function filled keeps its name. */
    lemma {:induction false} HelperFnsFilledFrom(globals: map<string, Variable>, k: nat, filled: map<string, HelperFn>)
      requires TablesOk()
      requires forall n :: n in filled ==> filled[n].fnName == n
      ensures var r := FilledHelperFnsFrom(globals, k, filled);
        r.Ok? ==> forall n :: n in r.value ==> r.value[n].fnName == n
      decreases |helperFnNames| - k
    {
      if k < |helperFnNames| {
        var name := helperFnNames[k];
        match FilledHelperFn(Env(), globals, helperFns[name])
        case Err(_) =>
        case Ok(h) =>
          assert h.fnName == name;
          assert FilledHelperFnsFrom(globals, k, filled) == FilledHelperFnsFrom(globals, k + 1, filled[name := h]);
          HelperFnsFilledFrom(globals, k + 1, filled[name := h]);
      }
    }

    /** The helper_ function `name` of the file is filled in `filled`: it
        keeps its signature and, if it returns a value, ends with a return
        statement. */
    predicate HelperDone(name: string, filled: map<string, HelperFn>) {
      name in helperFns && name in filled
      && filled[name] == helperFns[name].(body := filled[name].body)
      && (helperFns[name].returnType.Some? ==>
            helperFns[name].body != [] && helperFns[name].body[|helperFns[name].body| - 1].ReturnStatement?)
    }

    /** Adding a filled helper_ function keeps every other one filled. */
    lemma HelperDoneAdd(name: string, h: HelperFn, filled: map<string, HelperFn>)
      requires name in helperFns && h == helperFns[name].(body := h.body)
      requires helperFns[name].returnType.Some? ==>
        helperFns[name].body != [] && helperFns[name].body[|helperFns[name].body| - 1].ReturnStatement?
      ensures HelperDone(name, filled[name := h])
      ensures forall n :: HelperDone(n, filled) ==> HelperDone(n, filled[name := h])
    {
    }

    /** `fill_helper_fns` fills every helper_ function of the file. */
    lemma {:induction false} HelperFnsDone(globals: map<string, Variable>, k: nat, filled: map<string, HelperFn>)
      requires TablesOk()
      ensures var r := FilledHelperFnsFrom(globals, k, filled);
        r.Ok? ==>
          (forall n :: HelperDone(n, filled) ==> HelperDone(n, r.value))
          && (forall j :: k <= j < |helperFnNames| ==> HelperDone(helperFnNames[j], r.value))
      decreases |helperFnNames| - k
    {
      if k < |helperFnNames| {
        var name := helperFnNames[k];
        match FilledHelperFn(Env(), globals, helperFns[name])
        case Err(_) =>
        case Ok(h) =>
          assert FilledHelperFnsFrom(globals, k, filled) == FilledHelperFnsFrom(globals, k + 1, filled[name := h]);
          HelperDoneAdd(name, h, filled);
          HelperFnsDone(globals, k + 1, filled[name := h]);
      }
    }
  }

  /** The lookup `mod_api["entities"][entity_type]` of `__init__` fails
      with a `KeyError` for an entity type the mod API does not declare. */
  datatype SetupError = KeyError(entityType: string)

  /** `TypePropagator(ast, mod, entity_type, mod_api)`: the file's entity
      type must be one the mod API declares; the type comes from the file
      name, which nothing before this point checks against the mod API. */
  method NewTypePropagator(ast: seq<AstItem>, mod: string, entityType: string, api: ModApi)
    returns (r: Result<TypePropagator, SetupError>)
    requires forall e :: e in api.entities ==> DistinctApiNames(api.entities[e])
    requires DistinctFnNames(ast)
    ensures r.Err? <==> entityType !in api.entities
    ensures r.Err? ==> r.error == KeyError(entityType)
    ensures r.Ok? ==> fresh(r.value) && r.value.Valid()
    ensures r.Ok? ==> r.value.ast == ast && r.value.mod == mod && r.value.fileEntityType == entityType
    ensures r.Ok? ==> r.value.entityOnFunctions == api.entities[entityType] && r.value.gameFunctions == GameFunctions(api)
    ensures r.Ok? ==> r.value.localVariables == map[] && r.value.globalVariables == map[]
  {
    if entityType !in api.entities {
      return Err(KeyError(entityType));
    }
    var tp := new TypePropagator(ast, mod, entityType, api);
    return Ok(tp);
  }

  // ---------------------------------------------------------------------------
  // An error in a prefix is the error of the whole
  // ---------------------------------------------------------------------------

  lemma {:induction false} ArgumentLocalsErr(globals: map<string, Variable>, args: seq<Argument>, k: nat)
    requires k <= |args| && ArgumentLocals(globals, args[..k]).Err?
    ensures ArgumentLocals(globals, args) == ArgumentLocals(globals, args[..k])
    decreases |args|
  {
    if k < |args| {
      var init := args[..|args| - 1];
      assert init[..k] == args[..k];
      ArgumentLocalsErr(globals, init, k);
    } else {
      assert args[..k] == args;
    }
  }

  lemma {:induction false} CheckedPrefixErr(mod: string, fnName: string, params: seq<Argument>, args: seq<Expr>, k: nat, n: nat)
    requires k <= n <= |params| && n <= |args| && CheckedPrefix(mod, fnName, params, args, k).Err?
    ensures CheckedPrefix(mod, fnName, params, args, n) == CheckedPrefix(mod, fnName, params, args, k)
    decreases n
  {
    if k < n {
      CheckedPrefixErr(mod, fnName, params, args, k, n - 1);
    }
  }

  lemma {:induction false} FilledExprsErr(env: Env, locals: map<string, Variable>, globals: map<string, Variable>, es: seq<Expr>, k: nat)
    requires k <= |es| && FilledExprs(env, locals, globals, es[..k]).Err?
    ensures FilledExprs(env, locals, globals, es) == FilledExprs(env, locals, globals, es[..k])
    decreases |es|
  {
    if k < |es| {
      var init := es[..|es| - 1];
      assert init[..k] == es[..k];
      FilledExprsErr(env, locals, globals, init, k);
    } else {
      assert es[..k] == es;
    }
  }

  lemma {:induction false} FilledStatementsErr(env: Env, fn: FnInfo, locals: map<string, Variable>, globals: map<string, Variable>, ss: seq<Statement>, k: nat)
    requires k <= |ss| && FilledStatements(env, fn, locals, globals, ss[..k]).Err?
    ensures FilledStatements(env, fn, locals, globals, ss) == FilledStatements(env, fn, locals, globals, ss[..k])
    decreases |ss|
  {
    if k < |ss| {
      var init := ss[..|ss| - 1];
      assert init[..k] == ss[..k];
      FilledStatementsErr(env, fn, locals, globals, init, k);
    } else {
      assert ss[..k] == ss;
    }
  }

  /** The typed names of a prefix of a block come first among the block's. */
  lemma {:induction false} TypedNamesPrefix(ss: seq<Statement>, k: nat)
    requires k <= |ss|
    ensures TypedNames(ss[..k]) <= TypedNames(ss)
    decreases |ss|
  {
    if k < |ss| {
      var init := ss[..|ss| - 1];
      assert init[..k] == ss[..k];
      TypedNamesPrefix(init, k);
    } else {
      assert ss[..k] == ss;
    }
  }

  lemma ReplaceOnFnsShape(items: seq<AstItem>, filled: map<string, OnFn>)
    requires forall n :: n in filled ==> filled[n].fnName == n
    ensures SameShape(items, ReplaceOnFns(items, filled))
  {
  }

  lemma ReplaceHelperFnsShape(items: seq<AstItem>, filled: map<string, HelperFn>)
    requires forall n :: n in filled ==> filled[n].fnName == n
    ensures SameShape(items, ReplaceHelperFns(items, filled))
  {
  }
}

