/** The rules of src/grug/type_propagator.py as functions of values: the
    string validators, the variable tables, and what filling an expression,
    a statement, a block and a function computes.  The class in
    type_propagator.dfy performs the same steps on its fields and is proved
    to agree with these functions. */
module TypeRules {
  import opened Wrappers
  import opened Tokenizer
  import opened Ast
  import opened CharClasses
  import opened GrugParser

  /** A variable in scope (`Variable`). */
  datatype Variable = Variable(name: string, ty: Option<Type>, typeName: Option<string>)

  /** A game function as the mod API declares it (`GameFn`). */
  datatype GameFn = GameFn(fnName: string, arguments: seq<Argument>, returnType: Option<Type>, returnTypeName: Option<string>)

  /** The `TypePropagationError`s, one per place the source raises one. */
  datatype TypeError =
    | GlobalShadowsGlobal(name: string)
    | LocalShadowsLocal(name: string)
    | LocalShadowsGlobal(name: string)
    | EmptyEntity
    | EntityMissingMod(entity: string)
    | EntityMissingName(entity: string)
    | EntityOwnMod(entity: string)
    | EntityModChar(entity: string, c: char)
    | EntityNameChar(entity: string, c: char)
    | EmptyResource
    | ResourceLeadingSlash(resource: string)
    | ResourceTrailingSlash(resource: string)
    | ResourceBackslash(resource: string)
    | ResourceDoubleSlash(resource: string)
    | ResourceDot(resource: string)
    | ResourceDotDot(resource: string)
    | ResourceEndsWithDot(resource: string)
    | ResourceExtension(resource: string, extension: string)
    | MissingArgument(fnName: string, param: string)
    | ExtraArgument(fnName: string, typeName: Option<string>)
    | ArgumentWithoutValue(fnName: string, param: string)
    | ArgumentType(fnName: string, param: string, got: Option<string>)
    | CallsOnFn(fnName: string)
    | UndefinedHelper(fnName: string)
    | UndeclaredGameFn(fnName: string)
    | StringOperator(op: TokenType)
    | OperandTypes(op: TokenType)
    | OperatorExpectsNumber(op: TokenType)
    | OperatorExpectsBool(op: TokenType)
    | UnknownVariable(name: string)
    | DoubleUnary(op: TokenType)
    | NotExpectsBool(got: Option<string>)
    | MinusExpectsNumber(got: Option<string>)
    | VariableExists(name: string)
    | AssignType(name: string)
    | AssignUndeclared(name: string)
    | GlobalIdReassigned
    | UnexpectedReturnValue(fnNameIfAny: Option<string>)
    | WrongReturnType(fnNameIfAny: Option<string>)
    | MissingReturnValue(fnNameIfAny: Option<string>)
    | MissingFinalReturn(fnName: string)
    | UndeclaredOnFn(fnName: string)
    | OnFnOrder(fnName: string)
    | MissingParameter(fnName: string, param: string)
    | ExtraParameter(fnName: string, param: string)
    | ParameterName(fnName: string, param: string)
    | ParameterType(fnName: string, param: string)
    | GlobalCallsHelper(name: string)
    | GlobalAssignedMe
    /** An `assert` of the source that fails, or a statement of a kind the
        parser never builds in that place. */
    | Malformed

  // ---------------------------------------------------------------------------
  // Type comparisons
  // ---------------------------------------------------------------------------

  /** `is_wrong_type`: different types, or two ids of different type names. */
  function IsWrongType(a: Type, b: Type, aName: string, bName: string): (r: bool)
    ensures r <==> a != b || (a == Id && aName != bName)
  {
    if a != b then true
    else if a != Id then false
    else aName != bName
  }

  /** The test the source repeats for an assignment, an argument and a
      return value: a value of `r` may go where `typeName` is expected when
      the names agree, or when any id is expected and an id is given. */
  predicate Assignable(typeName: Option<string>, r: ExprResult): (b: bool)
    ensures typeName == r.typeName ==> b
    ensures b && typeName != Some("id") ==> typeName == r.typeName
  {
    (typeName == Some("id") && r.ty == Some(Id)) || typeName == r.typeName
  }

  // ---------------------------------------------------------------------------
  // Searching strings (`str.find`, `in`, `str.endswith`)
  // ---------------------------------------------------------------------------

  predicate OccursAt(s: string, pat: string, k: nat) {
    k + |pat| <= |s| && s[k..k + |pat|] == pat
  }

  /** `s.find(pat, k)`: the first index at or after `k` where `pat` occurs. */
  function FindFrom(s: string, pat: string, k: nat): (r: Option<nat>)
    decreases |s| - k
    ensures r.Some? ==> k <= r.value && OccursAt(s, pat, r.value)
    ensures forall j :: k <= j && (r.None? || j < r.value) ==> !OccursAt(s, pat, j)
  {
    if k + |pat| > |s| then None
    else if s[k..k + |pat|] == pat then Some(k)
    else FindFrom(s, pat, k + 1)
  }

  function Find(s: string, pat: string): (r: Option<nat>)
    ensures r.Some? ==> OccursAt(s, pat, r.value)
    ensures forall j: nat :: (r.None? || j < r.value) ==> !OccursAt(s, pat, j)
  {
    FindFrom(s, pat, 0)
  }

  predicate EndsWith(s: string, suffix: string) {
    |suffix| <= |s| && s[|s| - |suffix|..] == suffix
  }

  // ---------------------------------------------------------------------------
  // validate_entity_string
  // ---------------------------------------------------------------------------

  /** The characters a mod name and an entity name may hold. */
  predicate EntityChar(c: char) { IsLower(c) || IsDigit(c) || c == '_' || c == '-' }

  /** The index of the first character of `s` that `EntityChar` refuses. */
  function FirstNonEntityChar(s: string): (r: Option<nat>)
    ensures r.Some? ==> r.value < |s| && !EntityChar(s[r.value])
    ensures forall j :: 0 <= j < |s| && (r.None? || j < r.value) ==> EntityChar(s[j])
  {
    if s == [] then None
    else if !EntityChar(s[0]) then Some(0)
    else match FirstNonEntityChar(s[1..])
      case None => None
      case Some(j) => Some(j + 1)
  }

  predicate AllEntityChars(s: string) { forall j :: 0 <= j < |s| ==> EntityChar(s[j]) }

  /** `validate_entity_string`: `entity` names an entity as `name` (of the
      file's own mod `mod`) or as `mod:name` of another mod. */
  function ValidateEntityString(entity: string, mod: string): (r: Result<(), TypeError>)
    ensures entity == [] ==> r == Err(EmptyEntity)
  {
    if entity == [] then Err(EmptyEntity)
    else
      var colon := Find(entity, ":");
      if colon == Some(0) then Err(EntityMissingMod(entity))
      else if colon.Some? && entity[colon.value + 1..] == [] then Err(EntityMissingName(entity))
      else if colon.Some? && entity[..colon.value] == mod then Err(EntityOwnMod(entity))
      else
        var modName := if colon.Some? then entity[..colon.value] else mod;
        var entityName := if colon.Some? then entity[colon.value + 1..] else entity;
        match FirstNonEntityChar(modName)
        case Some(k) => Err(EntityModChar(entity, modName[k]))
        case None =>
          match FirstNonEntityChar(entityName)
          case Some(k) => Err(EntityNameChar(entity, entityName[k]))
          case None => Ok(())
  }

  /** The entity strings `validate_entity_string` accepts, said directly:
      a bare name when the file's own mod name is well formed, or
      `mod:name` with a different, non-empty mod name; every name made of
      lower-case letters, digits, `_` and `-`. */
  predicate ValidEntity(entity: string, mod: string) {
    (':' !in entity && entity != [] && AllEntityChars(mod) && AllEntityChars(entity))
    || (exists k :: 0 < k < |entity| - 1 && entity[k] == ':' && ':' !in entity[..k]
          && entity[..k] != mod && AllEntityChars(entity[..k]) && AllEntityChars(entity[k + 1..]))
  }

  lemma FindChar(s: string, c: char)
    ensures Find(s, [c]).None? <==> c !in s
    ensures Find(s, [c]).Some? ==> s[Find(s, [c]).value] == c && c !in s[..Find(s, [c]).value]
  {
    var r := Find(s, [c]);
    if r.Some? {
      assert s[r.value..r.value + 1] == [c];
      assert s[r.value] == c;
      forall j | 0 <= j < r.value ensures s[..r.value][j] != c {
        if s[j] == c { assert s[j..j + 1] == [c]; assert OccursAt(s, [c], j); }
      }
    } else {
      forall j | 0 <= j < |s| ensures s[j] != c {
        if s[j] == c { assert s[j..j + 1] == [c]; assert OccursAt(s, [c], j); }
      }
    }
  }

  /** `validate_entity_string` accepts exactly the entity strings
      `ValidEntity` describes. */
  lemma {:induction false} EntityStringAccepted(entity: string, mod: string)
    ensures ValidateEntityString(entity, mod).Ok? <==> ValidEntity(entity, mod)
  {
    FindChar(entity, ':');
    var colon := Find(entity, ":");
    assert [':'] == ":";
    if colon.Some? {
      var k := colon.value;
      if ValidEntity(entity, mod) {
        assert ':' in entity;
        var k' :| 0 < k' < |entity| - 1 && entity[k'] == ':' && ':' !in entity[..k']
          && entity[..k'] != mod && AllEntityChars(entity[..k']) && AllEntityChars(entity[k' + 1..]);
        assert k == k';
      }
      if ValidateEntityString(entity, mod).Ok? {
        assert 0 < k < |entity| - 1;
      }
    }
  }

  // ---------------------------------------------------------------------------
  // validate_resource_string
  // ---------------------------------------------------------------------------

  /** The `w` characters at `d` (dots) make up a whole path segment: they
      start the string or follow a `/`, and end it or precede a `/`. */
  predicate WholeSegment(s: string, d: nat, w: nat)
    requires d + w <= |s|
  {
    (d == 0 || s[d - 1] == '/') && (d + w == |s| || s[d + w] == '/')
  }

  /** The dot check of `validate_resource_string`, made on the first
      occurrence of `dots` only. */
  predicate FirstIsSegment(s: string, dots: string) {
    var d := Find(s, dots);
    d.Some? && WholeSegment(s, d.value, |dots|)
  }

  /** `validate_resource_string`. */
  function ValidateResourceString(resource: string, extension: Option<string>): (r: Result<(), TypeError>)
    ensures resource == [] ==> r == Err(EmptyResource)
    ensures r.Ok? ==> resource[0] != '/' && resource[|resource| - 1] != '/' && resource[|resource| - 1] != '.'
    ensures r.Ok? ==> '\\' !in resource
    ensures r.Ok? && extension.Some? ==> EndsWith(resource, extension.value)
  {
    if resource == [] then Err(EmptyResource)
    else if resource[0] == '/' then Err(ResourceLeadingSlash(resource))
    else if resource[|resource| - 1] == '/' then Err(ResourceTrailingSlash(resource))
    else if '\\' in resource then Err(ResourceBackslash(resource))
    else if Find(resource, "//").Some? then Err(ResourceDoubleSlash(resource))
    else if FirstIsSegment(resource, ".") then Err(ResourceDot(resource))
    else if FirstIsSegment(resource, "..") then Err(ResourceDotDot(resource))
    else if resource[|resource| - 1] == '.' then Err(ResourceEndsWithDot(resource))
    else if extension.Some? && extension.value != [] && !EndsWith(resource, extension.value) then
      Err(ResourceExtension(resource, extension.value))
    else Ok(())
  }

  /** The resource strings `validate_resource_string` accepts, said
      directly (the two dot checks stay about the first occurrence). */
  predicate ValidResource(s: string, extension: Option<string>) {
    s != [] && s[0] != '/' && s[|s| - 1] != '/' && s[|s| - 1] != '.'
    && (forall j :: 0 <= j < |s| ==> s[j] != '\\')
    && (forall j: nat | j < |s| :: !OccursAt(s, "//", j))
    && !FirstIsSegment(s, ".") && !FirstIsSegment(s, "..")
    && (extension.Some? ==> EndsWith(s, extension.value))
  }

  lemma {:induction false} ResourceStringAccepted(s: string, extension: Option<string>)
    ensures ValidateResourceString(s, extension).Ok? <==> ValidResource(s, extension)
  {
    if extension.Some? && extension.value == [] { assert s[|s|..] == []; }
    if ValidResource(s, extension) {
      FindNone(s, "//");
    }
  }

  lemma FindNone(s: string, pat: string)
    requires pat != [] && forall k: nat | k < |s| :: !OccursAt(s, pat, k)
    ensures Find(s, pat).None?
  {
  }

  /** Only the first `.` is looked at: a later `.` segment goes through. */
  lemma LaterDotSegmentAccepted()
    ensures ValidateResourceString("a././b", None) == Ok(())
  {
    var s := "a././b";
    assert OccursAt(s, ".", 1);
    assert !OccursAt(s, ".", 0) by { assert s[0..1] == "a"; }
    assert Find(s, ".") == Some(1);
    forall j: nat | j + 1 < |s| ensures !OccursAt(s, "..", j) && !OccursAt(s, "//", j) {
      assert s[j..j + 2] == [s[j], s[j + 1]];
      assert j == 0 || j == 1 || j == 2 || j == 3 || j == 4;
    }
  }

  // ---------------------------------------------------------------------------
  // The variable tables
  // ---------------------------------------------------------------------------

  /** `get_variable`: a local variable hides a global one of the same name. */
  function GetVariable(locals: map<string, Variable>, globals: map<string, Variable>, name: string): (r: Option<Variable>)
    ensures r.Some? <==> name in locals || name in globals
    ensures name in locals ==> r == Some(locals[name])
    ensures name !in locals && name in globals ==> r == Some(globals[name])
  {
    if name in locals then Some(locals[name])
    else if name in globals then Some(globals[name])
    else None
  }

  /** `add_local_variable` on the values of the two tables. */
  function AddLocal(locals: map<string, Variable>, globals: map<string, Variable>,
                    name: string, ty: Option<Type>, typeName: Option<string>): (r: Result<map<string, Variable>, TypeError>)
    ensures r.Ok? <==> name !in locals && name !in globals
    ensures r.Ok? ==> r.value == locals[name := Variable(name, ty, typeName)]
    ensures r.Err? ==> r.error == (if name in locals then LocalShadowsLocal(name) else LocalShadowsGlobal(name))
  {
    if name in locals then Err(LocalShadowsLocal(name))
    else if name in globals then Err(LocalShadowsGlobal(name))
    else Ok(locals[name := Variable(name, ty, typeName)])
  }

  /** `add_argument_variables`: a fresh local table holding the parameters. */
  function ArgumentLocals(globals: map<string, Variable>, args: seq<Argument>): Result<map<string, Variable>, TypeError>
    decreases |args|
  {
    if args == [] then Ok(map[])
    else
      match ArgumentLocals(globals, args[..|args| - 1])
      case Err(e) => Err(e)
      case Ok(locals) =>
        var a := args[|args| - 1];
        AddLocal(locals, globals, a.name, Some(a.ty), Some(a.typeName))
  }

  predicate DistinctArgumentNames(args: seq<Argument>) {
    forall i, j :: 0 <= i < j < |args| ==> args[i].name != args[j].name
  }

  /** The parameters of a function become its local variables exactly
      when no two share a name and none is named like a global variable. */
  lemma {:induction false} ArgumentLocalsOk(globals: map<string, Variable>, args: seq<Argument>)
    ensures ArgumentLocals(globals, args).Ok? <==>
      DistinctArgumentNames(args) && forall i :: 0 <= i < |args| ==> args[i].name !in globals
    ensures ArgumentLocals(globals, args).Ok? ==> ArgumentLocals(globals, args).value.Keys == ArgumentNames(args)
  {
    if args != [] {
      var init := args[..|args| - 1];
      var a := args[|args| - 1];
      ArgumentLocalsOk(globals, init);
      var prev := ArgumentLocals(globals, init);
      if prev.Ok? {
        ArgumentNamesIndexed(init, a.name);
        if a.name in prev.value {
          var i :| 0 <= i < |init| && init[i].name == a.name;
          assert args[i].name == args[|args| - 1].name;
        } else if a.name !in globals {
          assert forall i :: 0 <= i < |init| ==> args[i] == init[i];
        }
      }
      if prev.Err? && DistinctArgumentNames(args) {
        assert DistinctArgumentNames(init);
      }
    }
  }

  function ArgumentNames(args: seq<Argument>): set<string>
    decreases |args|
  {
    if args == [] then {} else ArgumentNames(args[..|args| - 1]) + {args[|args| - 1].name}
  }

  lemma {:induction false} ArgumentNamesIndexed(args: seq<Argument>, n: string)
    ensures n in ArgumentNames(args) <==> exists i :: 0 <= i < |args| && args[i].name == n
  {
    if args != [] {
      var init := args[..|args| - 1];
      ArgumentNamesIndexed(init, n);
      if exists i :: 0 <= i < |args| && args[i].name == n {
        var i :| 0 <= i < |args| && args[i].name == n;
        if i < |init| { assert init[i].name == n; }
      }
      if n in ArgumentNames(init) {
        var i :| 0 <= i < |init| && init[i].name == n;
        assert args[i].name == n;
      }
    }
  }

  /** Each parameter is bound to its own type and type name. */
  lemma {:induction false} ArgumentLocalsBind(globals: map<string, Variable>, args: seq<Argument>, i: nat)
    requires ArgumentLocals(globals, args).Ok? && i < |args|
    ensures args[i].name in ArgumentLocals(globals, args).value
    ensures ArgumentLocals(globals, args).value[args[i].name] == Variable(args[i].name, Some(args[i].ty), Some(args[i].typeName))
  {
    var init := args[..|args| - 1];
    if i < |init| {
      ArgumentLocalsBind(globals, init, i);
      assert args[i] == init[i];
    }
  }

  /** `add_global_variable` on the value of the global table. */
  function AddGlobal(globals: map<string, Variable>, name: string, ty: Option<Type>, typeName: Option<string>)
    : (r: Result<map<string, Variable>, TypeError>)
    ensures r.Ok? <==> name !in globals
    ensures r.Ok? ==> r.value == globals[name := Variable(name, ty, typeName)]
    ensures r.Err? ==> r.error == GlobalShadowsGlobal(name)
  {
    if name in globals then Err(GlobalShadowsGlobal(name))
    else Ok(globals[name := Variable(name, ty, typeName)])
  }

  // ---------------------------------------------------------------------------
  // Filling expressions
  // ---------------------------------------------------------------------------

  /** What stays fixed while a file is filled: its helper_ functions, the
      mod API's game functions, and the file's mod. */
  datatype Env = Env(helpers: map<string, HelperFn>, gameFns: map<string, GameFn>, mod: string)

  predicate IsEquality(op: TokenType) { op == EqualsToken || op == NotEqualsToken }

  predicate IsComparison(op: TokenType) {
    op == GreaterOrEqualToken || op == GreaterToken || op == LessOrEqualToken || op == LessToken
  }

  predicate IsLogical(op: TokenType) { op == AndToken || op == OrToken }

  predicate IsArithmetic(op: TokenType) {
    op == PlusToken || op == MinusToken || op == MultiplicationToken || op == DivisionToken
  }

  /** `fill_binary_expr` once both operands are filled: the result of
      `l op r`, given the operands' results; `prior` is kept for an operator
      of none of the four kinds. */
  function BinaryResult(op: TokenType, l: ExprResult, r: ExprResult, prior: ExprResult): (res: Result<ExprResult, TypeError>)
    ensures res.Ok? && l.ty == Some(String) ==> IsEquality(op)
    ensures res.Ok? && (IsEquality(op) || IsComparison(op) || IsLogical(op) || IsArithmetic(op)) ==>
      l.typeName == Some("id") || r.typeName == Some("id") || l.typeName == r.typeName
    ensures res.Ok? && (IsEquality(op) || IsComparison(op) || IsLogical(op)) ==> res.value == BoolResult
    ensures res.Ok? && IsArithmetic(op) ==> res.value == l && l.ty == Some(Number)
  {
    if l.ty == Some(String) && !IsEquality(op) then Err(StringOperator(op))
    else if !(l.typeName == Some("id") || r.typeName == Some("id")) && l.typeName != r.typeName then Err(OperandTypes(op))
    else if IsEquality(op) then Ok(BoolResult)
    else if IsComparison(op) then (if l.ty != Some(Number) then Err(OperatorExpectsNumber(op)) else Ok(BoolResult))
    else if IsLogical(op) then (if l.ty != Some(Bool) then Err(OperatorExpectsBool(op)) else Ok(BoolResult))
    else if IsArithmetic(op) then (if l.ty != Some(Number) then Err(OperatorExpectsNumber(op)) else Ok(l))
    else Ok(prior)
  }

  /** The typing rules `fill_binary_expr` enforces, for the operators the
      parser builds: strings only compare for (in)equality, the operands
      agree on their type name unless one is an id, comparisons and
      arithmetic take numbers, `and`/`or` take bools, and every operator
      but the arithmetic ones gives a bool. */
  lemma BinaryRules(op: TokenType, l: ExprResult, r: ExprResult, prior: ExprResult)
    requires IsEquality(op) || IsComparison(op) || IsLogical(op) || IsArithmetic(op)
    ensures BinaryResult(op, l, r, prior).Ok? <==>
      (l.ty == Some(String) ==> IsEquality(op))
      && (l.typeName == Some("id") || r.typeName == Some("id") || l.typeName == r.typeName)
      && (IsComparison(op) || IsArithmetic(op) ==> l.ty == Some(Number))
      && (IsLogical(op) ==> l.ty == Some(Bool))
    ensures BinaryResult(op, l, r, prior).Ok? ==>
      BinaryResult(op, l, r, prior).value == if IsArithmetic(op) then l else BoolResult
  {
  }

  /** The checks of `fill_expr` on a unary expression whose operand is
      filled: `not` takes a bool, `-` a number; the result is the operand's. */
  function UnaryResult(op: TokenType, x: ExprResult): (r: Result<ExprResult, TypeError>)
    ensures r.Ok? ==> r.value == x
    ensures r.Ok? <==> (op == NotToken ==> x.ty == Some(Bool)) && (op == MinusToken ==> x.ty == Some(Number))
  {
    if op == NotToken && x.ty != Some(Bool) then Err(NotExpectsBool(x.typeName))
    else if op == MinusToken && x.ty != Some(Number) then Err(MinusExpectsNumber(x.typeName))
    else Ok(x)
  }

  /** The argument `check_arguments` puts in place of `a`: a string literal
      passed for a resource or an entity parameter becomes a resource or
      an entity literal. */
  function ConvertedArgument(p: Argument, a: Expr): Expr {
    if a.StringExpr? && p.ty == Resource then ResourceExpr(a.str, ResourceResult)
    else if a.StringExpr? && p.ty == Entity then EntityExpr(a.str, EntityResult)
    else a
  }

  /** The body of `check_arguments`' loop for one filled argument `a` of
      parameter `p`. */
  function CheckedArgument(mod: string, fnName: string, p: Argument, a: Expr): Result<Expr, TypeError> {
    var v :=
      if a.StringExpr? && p.ty == Resource then ValidateResourceString(a.str, p.resourceExtension)
      else if a.StringExpr? && p.ty == Entity then ValidateEntityString(a.str, mod)
      else Ok(());
    if v.Err? then Err(v.error)
    else
      var c := ConvertedArgument(p, a);
      if c.result.ty.None? then Err(ArgumentWithoutValue(fnName, p.name))
      else if !Assignable(Some(p.typeName), c.result) then Err(ArgumentType(fnName, p.name, c.result.typeName))
      else Ok(c)
  }

  /** An argument as `check_arguments` accepts it: a string literal for a
      resource or entity parameter names a valid resource or entity and is
      converted; every argument has a value of the parameter's type. */
  predicate ArgumentFits(mod: string, p: Argument, a: Expr, c: Expr) {
    c == ConvertedArgument(p, a)
    && (a.StringExpr? && p.ty == Resource ==> ValidateResourceString(a.str, p.resourceExtension).Ok?)
    && (a.StringExpr? && p.ty == Entity ==> ValidateEntityString(a.str, mod).Ok?)
    && c.result.ty.Some? && Assignable(Some(p.typeName), c.result)
  }

  /** The first `n` turns of `check_arguments`' loop. */
  function CheckedPrefix(mod: string, fnName: string, params: seq<Argument>, args: seq<Expr>, n: nat)
    : (r: Result<seq<Expr>, TypeError>)
    requires n <= |params| && n <= |args|
    ensures r.Ok? ==> |r.value| == n && forall i :: 0 <= i < n ==> ArgumentFits(mod, params[i], args[i], r.value[i])
    ensures r.Err? <==> exists i :: 0 <= i < n && CheckedArgument(mod, fnName, params[i], args[i]).Err?
  {
    if n == 0 then Ok([])
    else
      match CheckedPrefix(mod, fnName, params, args, n - 1)
      case Err(e) => Err(e)
      case Ok(done) =>
        match CheckedArgument(mod, fnName, params[n - 1], args[n - 1])
        case Err(e) => Err(e)
        case Ok(c) => Ok(done + [c])
  }

  /** `check_arguments` on the filled arguments `args` of a call of
      `fnName`, whose parameters are `params`: the arguments as they stand
      afterwards. */
  function CheckedArguments(mod: string, fnName: string, params: seq<Argument>, args: seq<Expr>)
    : (r: Result<seq<Expr>, TypeError>)
    ensures |args| < |params| ==> r == Err(MissingArgument(fnName, params[|args|].name))
    ensures |args| > |params| ==> r == Err(ExtraArgument(fnName, args[|params|].result.typeName))
    ensures r.Ok? <==> |args| == |params| && forall i :: 0 <= i < |args| ==> CheckedArgument(mod, fnName, params[i], args[i]).Ok?
    ensures r.Ok? ==> |r.value| == |args| && forall i :: 0 <= i < |args| ==> ArgumentFits(mod, params[i], args[i], r.value[i])
  {
    if |args| < |params| then Err(MissingArgument(fnName, params[|args|].name))
    else if |args| > |params| then Err(ExtraArgument(fnName, args[|params|].result.typeName))
    else CheckedPrefix(mod, fnName, params, args, |args|)
  }

  /** `fill_call_expr` once the arguments are filled: a helper_ function of
      the file, else a game function, gives the call its return type. */
  function FilledCall(env: Env, fnName: string, args: seq<Expr>): (r: Result<Expr, TypeError>)
    ensures r.Ok? ==> r.value.CallExpr? && r.value.fnName == fnName && (fnName in env.helpers || fnName in env.gameFns)
    ensures fnName !in env.helpers && fnName !in env.gameFns ==>
      r == Err(if StartsWith(fnName, "on_") then CallsOnFn(fnName)
               else if StartsWith(fnName, "helper_") then UndefinedHelper(fnName)
               else UndeclaredGameFn(fnName))
  {
    if fnName in env.helpers then
      var h := env.helpers[fnName];
      match CheckedArguments(env.mod, fnName, h.arguments, args)
      case Err(e) => Err(e)
      case Ok(checked) => Ok(CallExpr(fnName, checked, ExprResult(h.returnType, h.returnTypeName)))
    else if fnName in env.gameFns then
      var g := env.gameFns[fnName];
      match CheckedArguments(env.mod, fnName, g.arguments, args)
      case Err(e) => Err(e)
      case Ok(checked) => Ok(CallExpr(fnName, checked, ExprResult(g.returnType, g.returnTypeName)))
    else if StartsWith(fnName, "on_") then Err(CallsOnFn(fnName))
    else if StartsWith(fnName, "helper_") then Err(UndefinedHelper(fnName))
    else Err(UndeclaredGameFn(fnName))
  }

  /** `fill_expr`: the expression with every `result` filled in, given the
      local and global variables in scope. */
  function FilledExpr(env: Env, locals: map<string, Variable>, globals: map<string, Variable>, e: Expr)
    : (res: Result<Expr, TypeError>)
    decreases e, 1
    ensures res.Ok? && e.IdentifierExpr? ==> GetVariable(locals, globals, e.name).Some?
    ensures res.Ok? && e.CallExpr? ==>
      res.value.CallExpr? && res.value.fnName == e.fnName && (e.fnName in env.helpers || e.fnName in env.gameFns)
    ensures res.Ok? && e.UnaryExpr? ==> res.value.UnaryExpr? && res.value.op == e.op && res.value.result == res.value.expr.result
  {
    match e
    case IdentifierExpr(name, _) =>
      (match GetVariable(locals, globals, name)
       case None => Err(UnknownVariable(name))
       case Some(v) => Ok(IdentifierExpr(name, ExprResult(v.ty, v.typeName))))
    case UnaryExpr(op, x, _) =>
      if x.UnaryExpr? && x.op == op then Err(DoubleUnary(op))
      else
        (match FilledExpr(env, locals, globals, x)
         case Err(err) => Err(err)
         case Ok(x') =>
           match UnaryResult(op, x'.result)
           case Err(err) => Err(err)
           case Ok(res) => Ok(UnaryExpr(op, x', res)))
    case BinaryExpr(l, op, r, prior) =>
      (match FilledOperands(env, locals, globals, e)
       case Err(err) => Err(err)
       case Ok((l', r')) =>
         match BinaryResult(op, l'.result, r'.result, prior)
         case Err(err) => Err(err)
         case Ok(res) => Ok(BinaryExpr(l', op, r', res)))
    case LogicalExpr(l, op, r, prior) =>
      (match FilledOperands(env, locals, globals, e)
       case Err(err) => Err(err)
       case Ok((l', r')) =>
         match BinaryResult(op, l'.result, r'.result, prior)
         case Err(err) => Err(err)
         case Ok(res) => Ok(LogicalExpr(l', op, r', res)))
    case CallExpr(fnName, args, _) =>
      (match FilledExprs(env, locals, globals, args)
       case Err(err) => Err(err)
       case Ok(args') => FilledCall(env, fnName, args'))
    case ParenthesizedExpr(x, _) =>
      (match FilledExpr(env, locals, globals, x)
       case Err(err) => Err(err)
       case Ok(x') => Ok(ParenthesizedExpr(x', x'.result)))
    case _ => Ok(e)
  }

  /** The two operands of a binary expression, filled left first. */
  function FilledOperands(env: Env, locals: map<string, Variable>, globals: map<string, Variable>, e: Expr)
    : Result<(Expr, Expr), TypeError>
    requires e.BinaryExpr? || e.LogicalExpr?
    decreases e, 0
  {
    match FilledExpr(env, locals, globals, e.left)
    case Err(err) => Err(err)
    case Ok(l') =>
      match FilledExpr(env, locals, globals, e.right)
      case Err(err) => Err(err)
      case Ok(r') => Ok((l', r'))
  }

  /** The arguments of a call, filled in order. */
  function FilledExprs(env: Env, locals: map<string, Variable>, globals: map<string, Variable>, es: seq<Expr>)
    : (r: Result<seq<Expr>, TypeError>)
    decreases es
    ensures r.Ok? ==> |r.value| == |es|
  {
    if es == [] then Ok([])
    else
      match FilledExprs(env, locals, globals, es[..|es| - 1])
      case Err(err) => Err(err)
      case Ok(done) =>
        match FilledExpr(env, locals, globals, es[|es| - 1])
        case Err(err) => Err(err)
        case Ok(x) => Ok(done + [x])
  }

  // ---------------------------------------------------------------------------
  // Filling statements
  // ---------------------------------------------------------------------------

  /** The function being filled, as `fn_return_type`, `fn_return_type_name`
      and `filled_fn_name` record it. */
  datatype FnInfo = FnInfo(returnType: Option<Type>, returnTypeName: Option<string>, fnName: Option<string>)

  /** `fill_variable_statement`: the statement with its value filled, and
      the local variables afterwards. */
  function FilledVariable(env: Env, locals: map<string, Variable>, globals: map<string, Variable>, s: Statement)
    : (res: Result<(Statement, map<string, Variable>), TypeError>)
    requires s.VariableStatement?
    ensures res.Ok? ==> res.value.0.VariableStatement? && res.value.0 == s.(expr := res.value.0.expr)
    ensures res.Ok? && s.ty.None? ==> res.value.1 == locals && GetVariable(locals, globals, s.name).Some?
    ensures res.Ok? && s.ty.Some? ==>
      s.name !in locals && s.name !in globals && res.value.1.Keys == locals.Keys + {s.name}
  {
    match FilledExpr(env, locals, globals, s.expr)
    case Err(err) => Err(err)
    case Ok(x) =>
      var v := GetVariable(locals, globals, s.name);
      if s.ty.Some? then
        if s.typeName.None? then Err(Malformed)
        else if v.Some? then Err(VariableExists(s.name))
        else if !Assignable(s.typeName, x.result) then Err(AssignType(s.name))
        else
          match AddLocal(locals, globals, s.name, s.ty, s.typeName)
          case Err(err) => Err(err)
          case Ok(locals') => Ok((s.(expr := x), locals'))
      else if v.None? then Err(AssignUndeclared(s.name))
      else if s.name in globals && v.value.ty == Some(Id) then Err(GlobalIdReassigned)
      else if !Assignable(v.value.typeName, x.result) then Err(AssignType(v.value.name))
      else Ok((s.(expr := x), locals))
  }

  /** The return branch of `fill_statements`. */
  function FilledReturn(env: Env, fn: FnInfo, locals: map<string, Variable>, globals: map<string, Variable>, value: Option<Expr>)
    : (r: Result<Option<Expr>, TypeError>)
    ensures r.Ok? ==> (r.value.Some? <==> value.Some?)
    ensures r.Ok? ==> (fn.returnType.Some? <==> value.Some?)
    ensures r.Ok? && value.Some? ==> Assignable(fn.returnTypeName, r.value.value.result)
  {
    if value.Some? then
      match FilledExpr(env, locals, globals, value.value)
      case Err(err) => Err(err)
      case Ok(x) =>
        if fn.returnType.None? then Err(UnexpectedReturnValue(fn.fnName))
        else if !Assignable(fn.returnTypeName, x.result) then Err(WrongReturnType(fn.fnName))
        else Ok(Some(x))
    else if fn.returnType.Some? then Err(MissingReturnValue(fn.fnName))
    else Ok(None)
  }

  /** One turn of `fill_statements`' loop: the statement filled, and the
      local variables afterwards. */
  function FilledStatement(env: Env, fn: FnInfo, locals: map<string, Variable>, globals: map<string, Variable>, s: Statement)
    : (res: Result<(Statement, map<string, Variable>), TypeError>)
    decreases s, 0
    // only a declaration adds a local; a nested block's own are gone again
    ensures res.Ok? && !s.VariableStatement? ==> res.value.1 == locals
  {
    match s
    case VariableStatement(_, _, _, _) => FilledVariable(env, locals, globals, s)
    case CallStatement(c) =>
      if !c.CallExpr? then Err(Malformed)
      else
        (match FilledExpr(env, locals, globals, c)
         case Err(err) => Err(err)
         case Ok(c') => Ok((CallStatement(c'), locals)))
    case IfStatement(cond, a, b) =>
      (match FilledExpr(env, locals, globals, cond)
       case Err(err) => Err(err)
       case Ok(cond') =>
         match FilledBlock(env, fn, locals, globals, a)
         case Err(err) => Err(err)
         case Ok(a') =>
           if b == [] then Ok((IfStatement(cond', a', b), locals))
           else
             match FilledBlock(env, fn, locals, globals, b)
             case Err(err) => Err(err)
             case Ok(b') => Ok((IfStatement(cond', a', b'), locals)))
    case ReturnStatement(v) =>
      (match FilledReturn(env, fn, locals, globals, v)
       case Err(err) => Err(err)
       case Ok(v') => Ok((ReturnStatement(v'), locals)))
    case WhileStatement(cond, body) =>
      (match FilledExpr(env, locals, globals, cond)
       case Err(err) => Err(err)
       case Ok(cond') =>
         match FilledBlock(env, fn, locals, globals, body)
         case Err(err) => Err(err)
         case Ok(body') => Ok((WhileStatement(cond', body'), locals)))
    case _ => Ok((s, locals))
  }

  /** The statements of a block filled in order, and the local variables
      once the last is filled (before the block's own are removed). */
  function FilledStatements(env: Env, fn: FnInfo, locals: map<string, Variable>, globals: map<string, Variable>, ss: seq<Statement>)
    : (r: Result<(seq<Statement>, map<string, Variable>), TypeError>)
    decreases ss, 0
    ensures r.Ok? ==> |r.value.0| == |ss|
  {
    if ss == [] then Ok(([], locals))
    else
      match FilledStatements(env, fn, locals, globals, ss[..|ss| - 1])
      case Err(err) => Err(err)
      case Ok((done, locals')) =>
        match FilledStatement(env, fn, locals', globals, ss[|ss| - 1])
        case Err(err) => Err(err)
        case Ok((s', locals'')) => Ok((done + [s'], locals''))
  }

  /** `fill_statements`: a block filled; the variables it declares go out of
      scope at its end, so the caller's local variables are unchanged. */
  function FilledBlock(env: Env, fn: FnInfo, locals: map<string, Variable>, globals: map<string, Variable>, ss: seq<Statement>)
    : Result<seq<Statement>, TypeError>
    decreases ss, 1
  {
    match FilledStatements(env, fn, locals, globals, ss)
    case Err(err) => Err(err)
    case Ok((done, _)) => Ok(done)
  }

  /** The names a block declares with a type, in order: the ones
      `remove_local_variables_in_statements` deletes. */
  function TypedNames(ss: seq<Statement>): seq<string>
    decreases |ss|
  {
    if ss == [] then []
    else
      var s := ss[|ss| - 1];
      TypedNames(ss[..|ss| - 1]) + if s.VariableStatement? && s.ty.Some? then [s.name] else []
  }

  predicate DistinctNames(ns: seq<string>) {
    forall i, j :: 0 <= i < j < |ns| ==> ns[i] != ns[j]
  }

  /** A statement adds to the local variables at most the one it declares
      with a type, which was not in scope before. */
  lemma StatementLocals(env: Env, fn: FnInfo, locals: map<string, Variable>, globals: map<string, Variable>, s: Statement)
    requires FilledStatement(env, fn, locals, globals, s).Ok?
    ensures var locals' := FilledStatement(env, fn, locals, globals, s).value.1;
      if s.VariableStatement? && s.ty.Some? then
        s.name !in locals && locals' == locals[s.name := Variable(s.name, s.ty, s.typeName)]
      else locals' == locals
  {
  }

  /** The local variables after a block's statements: the ones before,
      unchanged, and the block's typed declarations, each a new name. */
  lemma {:induction false} StatementsLocals(env: Env, fn: FnInfo, locals: map<string, Variable>, globals: map<string, Variable>, ss: seq<Statement>)
    requires FilledStatements(env, fn, locals, globals, ss).Ok?
    ensures var locals' := FilledStatements(env, fn, locals, globals, ss).value.1;
      && locals'.Keys == locals.Keys + (set n | n in TypedNames(ss))
      && (forall n :: n in TypedNames(ss) ==> n !in locals)
      && DistinctNames(TypedNames(ss))
      && (forall k :: k in locals ==> locals'[k] == locals[k])
  {
    if ss != [] {
      var init := ss[..|ss| - 1];
      var s := ss[|ss| - 1];
      StatementsLocals(env, fn, locals, globals, init);
      var mid := FilledStatements(env, fn, locals, globals, init).value.1;
      StatementLocals(env, fn, mid, globals, s);
      assert TypedNames(ss) == TypedNames(init) + if s.VariableStatement? && s.ty.Some? then [s.name] else [];
    }
  }

  /** Once the block's declarations are removed, the local variables are
      the ones before the block. */
  lemma BlockRestoresLocals(env: Env, fn: FnInfo, locals: map<string, Variable>, globals: map<string, Variable>, ss: seq<Statement>)
    requires FilledStatements(env, fn, locals, globals, ss).Ok?
    ensures FilledStatements(env, fn, locals, globals, ss).value.1 - (set n | n in TypedNames(ss)) == locals
  {
    StatementsLocals(env, fn, locals, globals, ss);
  }

  // ---------------------------------------------------------------------------
  // Filling functions
  // ---------------------------------------------------------------------------

  /** `fill_helper_fns` for one helper_ function: its body filled with its
      parameters as the only local variables; a function that returns a
      value must end with a return statement. */
  function FilledHelperFn(env: Env, globals: map<string, Variable>, h: HelperFn): (r: Result<HelperFn, TypeError>)
    ensures r.Ok? ==> r.value == h.(body := r.value.body)
    ensures r.Ok? && h.returnType.Some? ==> h.body != [] && h.body[|h.body| - 1].ReturnStatement?
  {
    match ArgumentLocals(globals, h.arguments)
    case Err(err) => Err(err)
    case Ok(locals) =>
      match FilledBlock(env, FnInfo(h.returnType, h.returnTypeName, Some(h.fnName)), locals, globals, h.body)
      case Err(err) => Err(err)
      case Ok(body) =>
        if h.returnType.Some? && (h.body == [] || !h.body[|h.body| - 1].ReturnStatement?) then
          Err(MissingFinalReturn(h.fnName))
        else Ok(h.(body := body))
  }

  /** A parameter of an on_ function as the mod API declares it. */
  datatype ApiParam = ApiParam(name: string, typeName: string)

  /** The parameters of an on_ function from index `k` on agree with the
      API's in name and type. */
  function ParametersFrom(fnName: string, args: seq<Argument>, params: seq<ApiParam>, k: nat): (r: Result<(), TypeError>)
    requires |args| == |params|
    decreases |args| - k
    ensures r.Ok? <==> forall i :: k <= i < |args| ==>
      args[i].name == params[i].name && !IsWrongType(args[i].ty, ParseType(params[i].typeName), args[i].typeName, params[i].typeName)
  {
    if k >= |args| then Ok(())
    else if args[k].name != params[k].name then Err(ParameterName(fnName, args[k].name))
    else if IsWrongType(args[k].ty, ParseType(params[k].typeName), args[k].typeName, params[k].typeName) then
      Err(ParameterType(fnName, params[k].name))
    else ParametersFrom(fnName, args, params, k + 1)
  }

  /** The signature checks of `fill_on_fns`: the on_ function takes the
      parameters the API lists, in order, with the same names and types. */
  function SignatureCheck(fnName: string, args: seq<Argument>, params: seq<ApiParam>): (r: Result<(), TypeError>)
    ensures |args| < |params| ==> r == Err(MissingParameter(fnName, params[|args|].name))
    ensures |args| > |params| ==> r == Err(ExtraParameter(fnName, args[|params|].name))
    ensures r.Ok? <==> |args| == |params| && forall i :: 0 <= i < |args| ==>
      args[i].name == params[i].name && args[i].ty == ParseType(params[i].typeName)
      && (args[i].ty == Id ==> args[i].typeName == params[i].typeName)
  {
    if |args| < |params| then Err(MissingParameter(fnName, params[|args|].name))
    else if |args| > |params| then Err(ExtraParameter(fnName, args[|params|].name))
    else ParametersFrom(fnName, args, params, 0)
  }

  /** `fill_on_fns` for one on_ function whose API parameters are
      `params`, once its place in the order is checked. */
  function FilledOnFn(env: Env, globals: map<string, Variable>, f: OnFn, params: seq<ApiParam>): (r: Result<OnFn, TypeError>)
    ensures r.Ok? ==> r.value == f.(body := r.value.body) && SignatureCheck(f.fnName, f.arguments, params).Ok?
  {
    match SignatureCheck(f.fnName, f.arguments, params)
    case Err(err) => Err(err)
    case Ok(_) =>
      match ArgumentLocals(globals, f.arguments)
      case Err(err) => Err(err)
      case Ok(locals) =>
        match FilledBlock(env, FnInfo(None, None, Some(f.fnName)), locals, globals, f.body)
        case Err(err) => Err(err)
        case Ok(body) => Ok(f.(body := body))
  }

  // ---------------------------------------------------------------------------
  // Filling global variables
  // ---------------------------------------------------------------------------

  /** `check_global_expr`: the initial value of the global `name` calls no
      helper_ function. */
  function CheckGlobalExpr(e: Expr, name: string): (res: Result<(), TypeError>)
    decreases e
    ensures res.Err? ==> res.error == GlobalCallsHelper(name)
  {
    match e
    case UnaryExpr(_, x, _) => CheckGlobalExpr(x, name)
    case BinaryExpr(l, _, r, _) =>
      if CheckGlobalExpr(l, name).Err? then CheckGlobalExpr(l, name) else CheckGlobalExpr(r, name)
    case LogicalExpr(l, _, r, _) =>
      if CheckGlobalExpr(l, name).Err? then CheckGlobalExpr(l, name) else CheckGlobalExpr(r, name)
    case CallExpr(fnName, args, _) =>
      if StartsWith(fnName, "helper_") then Err(GlobalCallsHelper(name)) else CheckGlobalExprs(args, name)
    case ParenthesizedExpr(x, _) => CheckGlobalExpr(x, name)
    case _ => Ok(())
  }

  function CheckGlobalExprs(es: seq<Expr>, name: string): (res: Result<(), TypeError>)
    decreases es
    ensures res.Err? ==> res.error == GlobalCallsHelper(name)
  {
    if es == [] then Ok(())
    else if CheckGlobalExpr(es[0], name).Err? then CheckGlobalExpr(es[0], name)
    else CheckGlobalExprs(es[1..], name)
  }

  /** `check_global_expr` refuses exactly the expressions that call some
      helper_ function, and always with the same error. */
  lemma {:induction false} CheckGlobalExprCalls(e: Expr, name: string)
    ensures CheckGlobalExpr(e, name).Ok? <==> HelperCalls(e) == {}
    ensures CheckGlobalExpr(e, name).Err? ==> CheckGlobalExpr(e, name).error == GlobalCallsHelper(name)
    decreases e, 1
  {
    match e
    case UnaryExpr(_, x, _) => CheckGlobalExprCalls(x, name);
    case BinaryExpr(l, _, r, _) => CheckGlobalExprCalls(l, name); CheckGlobalExprCalls(r, name);
    case LogicalExpr(l, _, r, _) => CheckGlobalExprCalls(l, name); CheckGlobalExprCalls(r, name);
    case CallExpr(fnName, args, _) => CheckGlobalExprsCalls(args, name);
    case ParenthesizedExpr(x, _) => CheckGlobalExprCalls(x, name);
    case _ =>
  }

  lemma {:induction false} CheckGlobalExprsCalls(es: seq<Expr>, name: string)
    ensures CheckGlobalExprs(es, name).Ok? <==> HelperCallsOfExprs(es) == {}
    ensures CheckGlobalExprs(es, name).Err? ==> CheckGlobalExprs(es, name).error == GlobalCallsHelper(name)
    decreases es, 0
  {
    if es != [] {
      CheckGlobalExprCalls(es[0], name);
      CheckGlobalExprsCalls(es[1..], name);
    }
  }

  /** One turn of `fill_global_variables`' loop: the global variable
      statement filled, and the global variables afterwards. */
  function FilledGlobal(env: Env, locals: map<string, Variable>, globals: map<string, Variable>, s: Statement)
    : (r: Result<(Statement, map<string, Variable>), TypeError>)
    requires s.VariableStatement?
    ensures r.Ok? ==>
      (s.ty.Some? && s.typeName.Some? && HelperCalls(s.expr) == {} && s.name !in globals
       && r.value.1 == globals[s.name := Variable(s.name, s.ty, s.typeName)]
       && !(s.expr.IdentifierExpr? && s.expr.name == "me"))
  {
    if s.ty.None? || s.typeName.None? then Err(Malformed)
    else
      match CheckGlobalExpr(s.expr, s.name)
      case Err(err) => Err(err)
      case Ok(_) =>
        CheckGlobalExprCalls(s.expr, s.name);
        match FilledExpr(env, locals, globals, s.expr)
        case Err(err) => Err(err)
        case Ok(x) =>
          if s.expr.IdentifierExpr? && s.expr.name == "me" then Err(GlobalAssignedMe)
          else if !Assignable(s.typeName, x.result) then Err(AssignType(s.name))
          else
            match AddGlobal(globals, s.name, s.ty, s.typeName)
            case Err(err) => Err(err)
            case Ok(globals') => Ok((s.(expr := x), globals'))
  }
}
