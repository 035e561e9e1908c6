/** The syntax tree the parser builds and the later passes walk
    (src/grug/parser.py, the dataclasses above `Parser`).  Every expression
    carries the `result` slot the type propagator fills in. */
module Ast {
  import opened Wrappers
  import opened Tokenizer

  datatype Type = Bool | Number | String | Id | Resource | Entity

  /** An expression's `result`: its type and type name, once known. */
  datatype ExprResult = ExprResult(ty: Option<Type>, typeName: Option<string>)

  const NoResult := ExprResult(None, None)
  const BoolResult := ExprResult(Some(Bool), Some("bool"))
  const NumberResult := ExprResult(Some(Number), Some("number"))
  const StringResult := ExprResult(Some(String), Some("string"))
  const ResourceResult := ExprResult(Some(Resource), Some("resource"))
  const EntityResult := ExprResult(Some(Entity), Some("entity"))

  datatype Expr =
    | TrueExpr(result: ExprResult)
    | FalseExpr(result: ExprResult)
    | StringExpr(str: string, result: ExprResult)
    | ResourceExpr(str: string, result: ExprResult)
    | EntityExpr(str: string, result: ExprResult)
    | IdentifierExpr(name: string, result: ExprResult)
    | NumberExpr(value: real, str: string, result: ExprResult)
    | UnaryExpr(op: TokenType, expr: Expr, result: ExprResult)
    | BinaryExpr(left: Expr, op: TokenType, right: Expr, result: ExprResult)
    | LogicalExpr(left: Expr, op: TokenType, right: Expr, result: ExprResult)
    | CallExpr(fnName: string, args: seq<Expr>, result: ExprResult)
    | ParenthesizedExpr(expr: Expr, result: ExprResult)

  datatype Statement =
    | VariableStatement(name: string, ty: Option<Type>, typeName: Option<string>, expr: Expr)
    | CallStatement(call: Expr)
    | IfStatement(condition: Expr, ifBody: seq<Statement>, elseBody: seq<Statement>)
    | ReturnStatement(value: Option<Expr>)
    | WhileStatement(condition: Expr, body: seq<Statement>)
    | BreakStatement
    | ContinueStatement
    | EmptyLineStatement
    | CommentStatement(str: string)

  /** A parameter: of a helper_ or on_ function as the parser reads it, or
      of a game function or on_ function as the mod API declares it (only
      those carry a resource extension or an entity type). */
  datatype Argument = Argument(
    name: string, ty: Type, typeName: string, resourceExtension: Option<string>, entityType: Option<string>)

  datatype OnFn = OnFn(fnName: string, arguments: seq<Argument>, body: seq<Statement>)

  datatype HelperFn = HelperFn(
    fnName: string, arguments: seq<Argument>,
    returnType: Option<Type>, returnTypeName: Option<string>,
    body: seq<Statement>)

  /** One entry of the file's AST, in file order. */
  datatype AstItem =
    | GlobalItem(global: Statement)
    | EmptyLineItem
    | CommentItem(str: string)
    | OnFnItem(onFn: OnFn)
    | HelperFnItem(helperFn: HelperFn)

  predicate StartsWith(s: string, prefix: string) {
    |prefix| <= |s| && s[..|prefix|] == prefix
  }

  /** A statement that is only layout: an empty line or a comment. */
  predicate IsLayout(s: Statement) {
    s.EmptyLineStatement? || s.CommentStatement?
  }

  // ---------------------------------------------------------------------------
  // The helper functions a piece of syntax calls
  // ---------------------------------------------------------------------------

  function HelperCalls(e: Expr): set<string>
    decreases e
  {
    match e
    case UnaryExpr(_, x, _) => HelperCalls(x)
    case BinaryExpr(l, _, r, _) => HelperCalls(l) + HelperCalls(r)
    case LogicalExpr(l, _, r, _) => HelperCalls(l) + HelperCalls(r)
    case CallExpr(name, args, _) =>
      (if StartsWith(name, "helper_") then {name} else {}) + HelperCallsOfExprs(args)
    case ParenthesizedExpr(x, _) => HelperCalls(x)
    case _ => {}
  }

  function HelperCallsOfExprs(es: seq<Expr>): set<string>
    decreases es
  {
    if es == [] then {} else HelperCalls(es[0]) + HelperCallsOfExprs(es[1..])
  }

  function HelperCallsOfStatement(s: Statement): set<string>
    decreases s
  {
    match s
    case VariableStatement(_, _, _, e) => HelperCalls(e)
    case CallStatement(e) => HelperCalls(e)
    case IfStatement(c, a, b) => HelperCalls(c) + HelperCallsOfStatements(a) + HelperCallsOfStatements(b)
    case ReturnStatement(v) => if v.Some? then HelperCalls(v.value) else {}
    case WhileStatement(c, body) => HelperCalls(c) + HelperCallsOfStatements(body)
    case _ => {}
  }

  function HelperCallsOfStatements(ss: seq<Statement>): set<string>
    decreases ss
  {
    if ss == [] then {} else HelperCallsOfStatement(ss[0]) + HelperCallsOfStatements(ss[1..])
  }

  function HelperCallsOfItem(item: AstItem): set<string> {
    match item
    case GlobalItem(s) => HelperCallsOfStatement(s)
    case OnFnItem(f) => HelperCallsOfStatements(f.body)
    case HelperFnItem(f) => HelperCallsOfStatements(f.body)
    case _ => {}
  }

  function HelperCallsOfItems(items: seq<AstItem>): set<string> {
    if items == [] then {} else HelperCallsOfItems(items[..|items| - 1]) + HelperCallsOfItem(items[|items| - 1])
  }

  lemma HelperCallsOfExprsAppend(es: seq<Expr>, e: Expr)
    ensures HelperCallsOfExprs(es + [e]) == HelperCallsOfExprs(es) + HelperCalls(e)
  {
    if es != [] {
      assert (es + [e])[1..] == es[1..] + [e];
      HelperCallsOfExprsAppend(es[1..], e);
    } else {
      assert [e][1..] == [];
    }
  }

  lemma HelperCallsOfStatementsAppend(ss: seq<Statement>, s: Statement)
    ensures HelperCallsOfStatements(ss + [s]) == HelperCallsOfStatements(ss) + HelperCallsOfStatement(s)
  {
    if ss != [] {
      assert (ss + [s])[1..] == ss[1..] + [s];
      HelperCallsOfStatementsAppend(ss[1..], s);
    } else {
      assert [s][1..] == [];
    }
  }

  lemma HelperCallsOfItemsAppend(items: seq<AstItem>, item: AstItem)
    ensures HelperCallsOfItems(items + [item]) == HelperCallsOfItems(items) + HelperCallsOfItem(item)
  {
    assert (items + [item])[..|items|] == items;
  }
}
