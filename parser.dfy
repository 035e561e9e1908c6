/** The grug recursive-descent parser (src/grug/parser.py).  `Parser` keeps the
    source's fields; the token cursor the source threads through its methods
    as the cell `i[0]` is passed in and returned.  Every expression method
    promises that the tokens it consumed have the shape of the expression it
    returns, that the expression respects operator precedence, and that the
    depth counters are back where they were. */
module GrugParser {
  import opened Wrappers
  import opened Tokenizer
  import opened Ast

  const MAX_PARSING_DEPTH: nat := 100

  datatype ErrorKind =
    | GlobalAfterOnFn(name: string)
    | ExpectedEmptyLine
    | OnFnAfterHelperFn(name: string)
    | DuplicateFn(name: string)
    | UnexpectedEmptyLine
    | UnexpectedToken(value: string)
    | WrongTokenType(expected: TokenType, got: TokenType)
    | ExpectedSpace(got: TokenType)
    | ExpectedCallOrAssignment(word: string)
    | BreakOutsideLoop
    | ContinueOutsideLoop
    | ExpectedStatementToken(got: TokenType)
    | ForbiddenArgumentType(name: string, ty: Type)
    | HelperDefinedBeforeCalled(name: string)
    | ForbiddenReturnType(name: string, ty: Type)
    | EmptyFn(name: string)
    | WrongIndentation(expectedSpaces: nat, gotSpaces: nat)
    | ExpectedBlockEnd(value: string)
    | TooDeeplyNested
    | ParsingDepthUnderflow
    | LocalNamedMe
    | AssignmentToMe
    | GlobalNamedMe
    | ExpectedTypeWord
    | LocalNotAssigned(name: string)
    | GlobalNotAssigned(name: string)
    | ForbiddenLocalType(name: string, typeName: string)
    | ForbiddenGlobalType(name: string, ty: Type)
    | CallOfNonIdentifier
    | ExpectedPrimary(got: TokenType)
    | InvalidNumber(str: string)

  /** A `ParserError`, with the line it names when it names one, or one of the
      two out-of-bounds errors of `peek_token` and `get_token_line_number`. */
  datatype ParserError =
    | ParserError(kind: ErrorKind, line: Option<nat>)
    | PeekOutOfBounds(index: nat)
    | LineNumberOutOfBounds(index: nat)

  // ---------------------------------------------------------------------------
  // Types, numbers and line numbers
  // ---------------------------------------------------------------------------

  /** `Parser.parse_type`: the five built-in type names, and `id` for every
      other name. */
  function ParseType(typeStr: string): (t: Type)
    ensures t == Bool <==> typeStr == "bool"
    ensures t == Number <==> typeStr == "number"
    ensures t == String <==> typeStr == "string"
    ensures t == Resource <==> typeStr == "resource"
    ensures t == Entity <==> typeStr == "entity"
    ensures t == Id <==> typeStr !in {"bool", "number", "string", "resource", "entity"}
  {
    if typeStr == "bool" then Bool
    else if typeStr == "number" then Number
    else if typeStr == "string" then String
    else if typeStr == "resource" then Resource
    else if typeStr == "entity" then Entity
    else Id
  }

  function Pow10(n: nat): (p: nat)
    ensures p >= 1
  {
    if n == 0 then 1 else 10 * Pow10(n - 1)
  }

  predicate AllDigits(s: string) {
    forall k :: 0 <= k < |s| ==> '0' <= s[k] <= '9'
  }

  /** The value of a string of decimal digits. */
  function DigitsValue(s: string): nat
    requires AllDigits(s)
  {
    if s == [] then 0 else 10 * DigitsValue(s[..|s| - 1]) + (s[|s| - 1] as int - '0' as int)
  }

  /** The index of the first `.` at or after `k`, or `|s|`. */
  function PeriodIndex(s: string, k: nat): (p: nat)
    requires k <= |s|
    ensures k <= p <= |s| && (p < |s| ==> s[p] == '.')
    ensures forall m :: k <= m < p ==> s[m] != '.'
    decreases |s| - k
  {
    if k == |s| || s[k] == '.' then k else PeriodIndex(s, k + 1)
  }

  /** `float(s)` for decimal numerals: digits, at most one period, and at least
      one digit. */
  function StrToNumber(s: string): (r: Result<real, ParserError>)
    ensures AllDigits(s) && s != [] ==> r == Ok(DigitsValue(s) as real)
    ensures s == [] || s == "." ==> r.Err?
  {
    var p := PeriodIndex(s, 0);
    var whole := s[..p];
    var fraction := if p < |s| then s[p + 1..] else "";
    assert p == |s| ==> whole == s;
    if AllDigits(whole) && AllDigits(fraction) && |whole| + |fraction| > 0 then
      Ok(DigitsValue(whole) as real + DigitsValue(fraction) as real / Pow10(|fraction|) as real)
    else Err(ParserError(InvalidNumber(s), None))
  }

  /** The number of newline tokens below index `k`. */
  function NewlinesBefore(ts: seq<Token>, k: nat): nat
    requires k <= |ts|
  {
    if k == 0 then 0 else NewlinesBefore(ts, k - 1) + (if ts[k - 1].kind == NewlineToken then 1 else 0)
  }

  function TokenLineNumber(ts: seq<Token>, k: nat): nat
    requires k <= |ts|
  {
    1 + NewlinesBefore(ts, k)
  }

  // ---------------------------------------------------------------------------
  // Token shapes and precedence
  // ---------------------------------------------------------------------------

  /** What a consumed token must look like: its kind, and its text where the
      syntax tree keeps it. */
  datatype Pat = Pat(kind: TokenType, text: Option<string>)

  function Fixed(kind: TokenType): Pat { Pat(kind, None) }

  function Valued(kind: TokenType, text: string): Pat { Pat(kind, Some(text)) }

  predicate Matches(t: Token, p: Pat) {
    t.kind == p.kind && (p.text.Some? ==> t.value == p.text.value)
  }

  predicate Shaped(ts: seq<Token>, ps: seq<Pat>) {
    |ts| == |ps| && forall k :: 0 <= k < |ts| ==> Matches(ts[k], ps[k])
  }

  const UNARY_LEVEL: nat := 7

  /** The precedence level of a binary operator, loosest first: `or`, `and`,
      equality, comparison, term, factor. */
  function OpLevel(op: TokenType): nat {
    if op == OrToken then 1
    else if op == AndToken then 2
    else if op == EqualsToken || op == NotEqualsToken then 3
    else if op == GreaterOrEqualToken || op == GreaterToken || op == LessOrEqualToken || op == LessToken then 4
    else if op == PlusToken || op == MinusToken then 5
    else if op == MultiplicationToken || op == DivisionToken then 6
    else UNARY_LEVEL
  }

  /** How tightly an expression binds: its operator's level, or the unary level
      for everything that is not a binary or logical expression. */
  function Prec(e: Expr): nat {
    match e
    case BinaryExpr(_, op, _, _) => OpLevel(op)
    case LogicalExpr(_, op, _, _) => OpLevel(op)
    case _ => UNARY_LEVEL
  }

  /** The tree a left-associative precedence climber builds: a left operand
      binds at least as tightly as its operator, a right operand strictly more
      tightly, and a unary operand is unary-level. */
  predicate WellPrec(e: Expr)
    decreases e
  {
    match e
    case UnaryExpr(op, x, _) => (op == MinusToken || op == NotToken) && Prec(x) == UNARY_LEVEL && WellPrec(x)
    case BinaryExpr(l, op, r, _) =>
      3 <= OpLevel(op) <= 6 && Prec(l) >= OpLevel(op) && Prec(r) > OpLevel(op) && WellPrec(l) && WellPrec(r)
    case LogicalExpr(l, op, r, _) =>
      1 <= OpLevel(op) <= 2 && Prec(l) >= OpLevel(op) && Prec(r) > OpLevel(op) && WellPrec(l) && WellPrec(r)
    case CallExpr(_, args, _) => forall k :: 0 <= k < |args| ==> WellPrec(args[k])
    case ParenthesizedExpr(x, _) => WellPrec(x)
    case _ => true
  }

  /** The tokens an expression is written as.  Resource and entity literals are
      string tokens the type propagator rewrote. */
  function RenderExpr(e: Expr): seq<Pat>
    decreases e
  {
    match e
    case TrueExpr(_) => [Fixed(TrueToken)]
    case FalseExpr(_) => [Fixed(FalseToken)]
    case StringExpr(s, _) => [Valued(StringToken, s)]
    case ResourceExpr(s, _) => [Valued(StringToken, s)]
    case EntityExpr(s, _) => [Valued(StringToken, s)]
    case IdentifierExpr(n, _) => [Valued(WordToken, n)]
    case NumberExpr(_, s, _) => [Valued(NumberToken, s)]
    case UnaryExpr(op, x, _) =>
      (if op == NotToken then [Fixed(NotToken), Fixed(SpaceToken)] else [Fixed(op)]) + RenderExpr(x)
    case BinaryExpr(l, op, r, _) => RenderExpr(l) + [Fixed(SpaceToken), Fixed(op), Fixed(SpaceToken)] + RenderExpr(r)
    case LogicalExpr(l, op, r, _) => RenderExpr(l) + [Fixed(SpaceToken), Fixed(op), Fixed(SpaceToken)] + RenderExpr(r)
    case CallExpr(n, args, _) =>
      [Valued(WordToken, n), Fixed(OpenParenthesisToken)] + RenderArgs(args) + [Fixed(CloseParenthesisToken)]
    case ParenthesizedExpr(x, _) => [Fixed(OpenParenthesisToken)] + RenderExpr(x) + [Fixed(CloseParenthesisToken)]
  }

  /** Call arguments, separated by a comma and a space. */
  function RenderArgs(args: seq<Expr>): seq<Pat>
    decreases args
  {
    if args == [] then []
    else if |args| == 1 then RenderExpr(args[0])
    else RenderArgs(args[..|args| - 1]) + [Fixed(CommaToken), Fixed(SpaceToken)] + RenderExpr(args[|args| - 1])
  }

  /** The tokens of a parameter list: `name: type`, separated by a comma and a
      space. */
  function RenderParams(params: seq<Argument>): seq<Pat>
  {
    if params == [] then []
    else
      var p := params[|params| - 1];
      var last := [Valued(WordToken, p.name), Fixed(ColonToken), Fixed(SpaceToken), Valued(WordToken, p.typeName)];
      if |params| == 1 then last
      else RenderParams(params[..|params| - 1]) + [Fixed(CommaToken), Fixed(SpaceToken)] + last
  }

  lemma ShapedJoin(ts: seq<Token>, i: nat, j: nat, k: nat, p: seq<Pat>, q: seq<Pat>)
    requires i <= j <= k <= |ts|
    requires Shaped(ts[i..j], p) && Shaped(ts[j..k], q)
    ensures Shaped(ts[i..k], p + q)
  {
    assert ts[i..k] == ts[i..j] + ts[j..k];
  }

  lemma ShapedOne(ts: seq<Token>, i: nat, p: Pat)
    requires i < |ts| && Matches(ts[i], p)
    ensures Shaped(ts[i..i + 1], [p])
  {
  }

  /** Three tokens at `j`: a space, an operator of kind `op` and a space. */
  lemma ShapedOperator(ts: seq<Token>, j: nat, op: TokenType)
    requires j + 3 <= |ts| && ts[j].kind == SpaceToken && ts[j + 1].kind == op && ts[j + 2].kind == SpaceToken
    ensures Shaped(ts[j..j + 3], [Fixed(SpaceToken), Fixed(op), Fixed(SpaceToken)])
  {
  }

  /** A parenthesized expression: `(`, the inner expression's tokens, `)`. */
  lemma ShapedParenthesized(ts: seq<Token>, i: nat, x: Expr, k: nat)
    requires i < k < |ts| && ts[i].kind == OpenParenthesisToken && ts[k].kind == CloseParenthesisToken
    requires Shaped(ts[i + 1..k], RenderExpr(x))
    ensures Shaped(ts[i..k + 1], RenderExpr(ParenthesizedExpr(x, NoResult)))
  {
    ShapedJoin(ts, i, i + 1, k, [Fixed(OpenParenthesisToken)], RenderExpr(x));
    ShapedJoin(ts, i, k, k + 1, [Fixed(OpenParenthesisToken)] + RenderExpr(x), [Fixed(CloseParenthesisToken)]);
  }

  /** A call: the name, `(`, the arguments' tokens and `)`. */
  lemma ShapedCall(ts: seq<Token>, i: nat, fnName: string, args: seq<Expr>, end: nat)
    requires i + 2 <= end <= |ts|
    requires ts[i].kind == WordToken && ts[i].value == fnName && ts[i + 1].kind == OpenParenthesisToken
    requires Shaped(ts[i + 2..end], RenderArgs(args) + [Fixed(CloseParenthesisToken)])
    ensures Shaped(ts[i..end], RenderExpr(CallExpr(fnName, args, NoResult)))
  {
    var namePart := [Valued(WordToken, fnName), Fixed(OpenParenthesisToken)];
    assert Shaped(ts[i..i + 2], namePart);
    ShapedJoin(ts, i, i + 2, end, namePart, RenderArgs(args) + [Fixed(CloseParenthesisToken)]);
    assert RenderExpr(CallExpr(fnName, args, NoResult)) == namePart + (RenderArgs(args) + [Fixed(CloseParenthesisToken)]);
  }

  /** The arguments so far, then one more token: the comma and space that
      separate arguments, or the closing parenthesis. */
  lemma ShapedAfterArguments(ts: seq<Token>, start: nat, m: nat, k: nat, args: seq<Expr>, tail: seq<Pat>)
    requires start <= m <= k <= |ts| && |tail| == k - m
    requires Shaped(ts[start..m], RenderArgs(args))
    requires forall n :: m <= n < k ==> ts[n].kind == tail[n - m].kind && tail[n - m].text.None?
    ensures Shaped(ts[start..k], RenderArgs(args) + tail)
  {
    assert Shaped(ts[m..k], tail);
    ShapedJoin(ts, start, m, k, RenderArgs(args), tail);
  }

  /** One more argument: the tokens of the arguments so far and their
      separators, then the new argument's tokens. */
  lemma ShapedNextArgument(ts: seq<Token>, start: nat, j: nat, m: nat, args: seq<Expr>, arg: Expr)
    requires start <= j <= m <= |ts|
    requires args == [] ==> j == start
    requires args != [] ==> Shaped(ts[start..j], RenderArgs(args) + [Fixed(CommaToken), Fixed(SpaceToken)])
    requires Shaped(ts[j..m], RenderExpr(arg))
    ensures Shaped(ts[start..m], RenderArgs(args + [arg]))
  {
    var grown := args + [arg];
    if args == [] {
      assert grown == [arg];
      assert RenderArgs(grown) == RenderExpr(arg);
    } else {
      assert grown[..|grown| - 1] == args && grown[|grown| - 1] == arg;
      var sep := RenderArgs(args) + [Fixed(CommaToken), Fixed(SpaceToken)];
      assert RenderArgs(grown) == sep + RenderExpr(arg);
      ShapedJoin(ts, start, j, m, sep, RenderExpr(arg));
    }
  }
  /** One more argument followed by the token(s) after it: the separator
      before the next argument, or the closing parenthesis. */
  lemma ShapedArgumentStep(ts: seq<Token>, start: nat, j: nat, m: nat, k: nat, args: seq<Expr>, arg: Expr, tail: seq<Pat>)
    requires start <= j <= m <= k <= |ts| && |tail| == k - m
    requires args == [] ==> j == start
    requires args != [] ==> Shaped(ts[start..j], RenderArgs(args) + [Fixed(CommaToken), Fixed(SpaceToken)])
    requires Shaped(ts[j..m], RenderExpr(arg))
    requires forall n :: m <= n < k ==> ts[n].kind == tail[n - m].kind && tail[n - m].text.None?
    ensures Shaped(ts[start..k], RenderArgs(args + [arg]) + tail)
  {
    ShapedNextArgument(ts, start, j, m, args, arg);
    ShapedAfterArguments(ts, start, m, k, args + [arg], tail);
  }


  /** A left operand, a space, an operator of the given level, a space and a
      right operand that binds more tightly make a binary or logical
      expression of that level. */
  lemma ShapedBinary(ts: seq<Token>, i: nat, j: nat, m: nat, l: Expr, op: TokenType, r: Expr, level: nat)
    requires 1 <= level <= 6 && OpLevel(op) == level
    requires i < j && j + 3 < m <= |ts|
    requires ts[j].kind == SpaceToken && ts[j + 1].kind == op && ts[j + 2].kind == SpaceToken
    requires Shaped(ts[i..j], RenderExpr(l)) && WellPrec(l) && Prec(l) >= level
    requires Shaped(ts[j + 3..m], RenderExpr(r)) && WellPrec(r) && Prec(r) >= level + 1
    ensures var e := if level <= 2 then LogicalExpr(l, op, r, NoResult) else BinaryExpr(l, op, r, NoResult);
      Shaped(ts[i..m], RenderExpr(e)) && WellPrec(e) && Prec(e) >= level && HelperCalls(e) == HelperCalls(l) + HelperCalls(r)
  {
    ShapedInfix(ts, i, j, m, RenderExpr(l), op, RenderExpr(r));
    var infix := RenderExpr(l) + [Fixed(SpaceToken), Fixed(op), Fixed(SpaceToken)] + RenderExpr(r);
    if level <= 2 {
      assert RenderExpr(LogicalExpr(l, op, r, NoResult)) == infix;
    } else {
      assert RenderExpr(BinaryExpr(l, op, r, NoResult)) == infix;
    }
  }

  lemma ShapedInfix(ts: seq<Token>, i: nat, j: nat, m: nat, p: seq<Pat>, op: TokenType, q: seq<Pat>)
    requires i <= j && j + 3 <= m <= |ts|
    requires ts[j].kind == SpaceToken && ts[j + 1].kind == op && ts[j + 2].kind == SpaceToken
    requires Shaped(ts[i..j], p) && Shaped(ts[j + 3..m], q)
    ensures Shaped(ts[i..m], p + [Fixed(SpaceToken), Fixed(op), Fixed(SpaceToken)] + q)
  {
    ShapedOperator(ts, j, op);
    ShapedJoin(ts, i, j, j + 3, p, [Fixed(SpaceToken), Fixed(op), Fixed(SpaceToken)]);
    ShapedJoin(ts, i, j + 3, m, p + [Fixed(SpaceToken), Fixed(op), Fixed(SpaceToken)], q);
  }

  /** `name: type` at `k`. */
  predicate ParamTokensAt(ts: seq<Token>, k: nat, p: Argument) {
    && k + 4 <= |ts|
    && ts[k].kind == WordToken && ts[k].value == p.name
    && ts[k + 1].kind == ColonToken && ts[k + 2].kind == SpaceToken
    && ts[k + 3].kind == WordToken && ts[k + 3].value == p.typeName
  }

  lemma ShapedFirstParam(ts: seq<Token>, i: nat, p: Argument)
    requires ParamTokensAt(ts, i, p)
    ensures Shaped(ts[i..i + 4], RenderParams([p]))
  {
  }

  lemma ShapedNextParam(ts: seq<Token>, i: nat, j: nat, params: seq<Argument>, p: Argument)
    requires params != [] && i <= j && j + 2 <= |ts|
    requires Shaped(ts[i..j], RenderParams(params))
    requires ts[j].kind == CommaToken && ts[j + 1].kind == SpaceToken
    requires ParamTokensAt(ts, j + 2, p)
    ensures Shaped(ts[i..j + 6], RenderParams(params + [p]))
  {
    var last := [Valued(WordToken, p.name), Fixed(ColonToken), Fixed(SpaceToken), Valued(WordToken, p.typeName)];
    assert (params + [p])[..|params|] == params;
    assert RenderParams(params + [p]) == RenderParams(params) + [Fixed(CommaToken), Fixed(SpaceToken)] + last;
    assert Shaped(ts[j..j + 6], [Fixed(CommaToken), Fixed(SpaceToken)] + last);
    ShapedJoin(ts, i, j, j + 6, RenderParams(params), [Fixed(CommaToken), Fixed(SpaceToken)] + last);
  }

  // ---------------------------------------------------------------------------
  // What the parser guarantees about the statements it builds
  // ---------------------------------------------------------------------------

  predicate ForbiddenVariableType(t: Type) { t == Resource || t == Entity }

  /** Statements as the parser builds them: every expression respects
      precedence, a call statement holds a call, variables are not named `me`
      and a typed variable's type is the one its name parses to and not a
      resource or an entity. */
  predicate StatementOk(s: Statement)
    decreases s
  {
    match s
    case VariableStatement(name, ty, tn, e) =>
      && name != "me" && ty.Some? == tn.Some?
      && (ty.Some? ==> ty.value == ParseType(tn.value) && !ForbiddenVariableType(ty.value))
      && WellPrec(e)
    case CallStatement(e) => e.CallExpr? && WellPrec(e)
    case IfStatement(c, a, b) => WellPrec(c) && StatementsOk(a) && StatementsOk(b)
    case ReturnStatement(v) => v.Some? ==> WellPrec(v.value)
    case WhileStatement(c, body) => WellPrec(c) && StatementsOk(body)
    case _ => true
  }

  predicate StatementsOk(ss: seq<Statement>)
    decreases ss
  {
    forall k :: 0 <= k < |ss| ==> StatementOk(ss[k])
  }

  /** No `break` or `continue` outside a while loop. */
  predicate NoLooseJump(s: Statement)
    decreases s
  {
    match s
    case BreakStatement => false
    case ContinueStatement => false
    case IfStatement(_, a, b) => NoLooseJumps(a) && NoLooseJumps(b)
    case _ => true
  }

  predicate NoLooseJumps(ss: seq<Statement>)
    decreases ss
  {
    forall k :: 0 <= k < |ss| ==> NoLooseJump(ss[k])
  }

  /** The token a statement starts with. */
  function FirstTokenKind(s: Statement): TokenType {
    match s
    case VariableStatement(_, _, _, _) => WordToken
    case CallStatement(_) => WordToken
    case IfStatement(_, _, _) => IfToken
    case ReturnStatement(_) => ReturnToken
    case WhileStatement(_, _) => WhileToken
    case BreakStatement => BreakToken
    case ContinueStatement => ContinueToken
    case EmptyLineStatement => NewlineToken
    case CommentStatement(_) => CommentToken
  }

  lemma StatementsAppend(ss: seq<Statement>, s: Statement)
    ensures StatementsOk(ss + [s]) <==> StatementsOk(ss) && StatementOk(s)
    ensures NoLooseJumps(ss + [s]) <==> NoLooseJumps(ss) && NoLooseJump(s)
  {
    assert forall k :: 0 <= k < |ss| ==> (ss + [s])[k] == ss[k];
    assert (ss + [s])[|ss|] == s;
  }

  predicate ArgumentsOk(params: seq<Argument>) {
    forall k :: 0 <= k < |params| ==>
      params[k].ty == ParseType(params[k].typeName) && !ForbiddenVariableType(params[k].ty)
  }

  /** A function body holds at least one statement that is not an empty line
      or a comment. */
  predicate HasCode(body: seq<Statement>) {
    exists k :: 0 <= k < |body| && !IsLayout(body[k])
  }

  // ---------------------------------------------------------------------------
  // What the parser guarantees about the whole file
  // ---------------------------------------------------------------------------

  predicate IsDeclaration(item: AstItem) {
    item.GlobalItem? || item.OnFnItem? || item.HelperFnItem?
  }

  function ItemName(item: AstItem): string {
    match item
    case GlobalItem(s) => if s.VariableStatement? then s.name else ""
    case OnFnItem(f) => f.fnName
    case HelperFnItem(f) => f.fnName
    case _ => ""
  }

  /** The last item that is not a comment. */
  function LastNonComment(items: seq<AstItem>): Option<AstItem> {
    if items == [] then None
    else if items[|items| - 1].CommentItem? then LastNonComment(items[..|items| - 1])
    else Some(items[|items| - 1])
  }

  /** Globals come before the on_ functions, and on_ functions before the
      helper_ functions. */
  predicate FileOrder(items: seq<AstItem>) {
    forall a, b :: 0 <= a < b < |items| ==>
      (items[a].OnFnItem? ==> !items[b].GlobalItem?) && (items[a].HelperFnItem? ==> !items[b].OnFnItem?)
  }

  /** No two on_ functions, and no two helper_ functions, share a name. */
  predicate DistinctFnNames(items: seq<AstItem>) {
    forall a, b :: 0 <= a < b < |items| ==>
      (items[a].OnFnItem? && items[b].OnFnItem? ==> items[a].onFn.fnName != items[b].onFn.fnName)
      && (items[a].HelperFnItem? && items[b].HelperFnItem? ==> items[a].helperFn.fnName != items[b].helperFn.fnName)
  }

  /** Every helper_ function is called by an item before its definition. */
  predicate HelpersCalledEarlier(items: seq<AstItem>) {
    forall k :: 0 <= k < |items| && items[k].HelperFnItem? ==>
      items[k].helperFn.fnName in HelperCallsOfItems(items[..k])
  }

  /** Empty lines: never the first item and never two in a row. */
  predicate EmptyLinesSpaced(items: seq<AstItem>) {
    forall k :: 0 <= k < |items| && items[k].EmptyLineItem? ==> k > 0 && !items[k - 1].EmptyLineItem?
  }

  /** Two declarations with only comments between them are both globals:
      everything else needs an empty line between. */
  predicate DeclarationsSpaced(items: seq<AstItem>)
    decreases |items|
  {
    items == [] ||
    (DeclarationsSpaced(items[..|items| - 1]) &&
     var last := items[|items| - 1];
     var before := LastNonComment(items[..|items| - 1]);
     (IsDeclaration(last) && before.Some? && IsDeclaration(before.value) ==>
        last.GlobalItem? && before.value.GlobalItem?))
  }

  /** What `parse` checks about one item of the file: a global is a typed
      variable of an allowed type, a function has allowed parameter types, a
      body with code in it and no `break` or `continue` outside a loop, and a
      helper returns nothing or an allowed type. */
  predicate ItemOk(item: AstItem) {
    match item
    case GlobalItem(g) =>
      && g.VariableStatement? && g.typeName.Some? && g.ty == Some(ParseType(g.typeName.value))
      && StatementOk(g)
    case OnFnItem(f) =>
      ArgumentsOk(f.arguments) && StatementsOk(f.body) && NoLooseJumps(f.body) && HasCode(f.body)
    case HelperFnItem(f) =>
      && ArgumentsOk(f.arguments) && StatementsOk(f.body) && NoLooseJumps(f.body) && HasCode(f.body)
      && f.returnType.Some? == f.returnTypeName.Some?
      && (f.returnType.Some? ==>
            f.returnType.value == ParseType(f.returnTypeName.value) && !ForbiddenVariableType(f.returnType.value))
    case _ => true
  }
  lemma OnFnItemOk(f: OnFn)
    requires ArgumentsOk(f.arguments) && StatementsOk(f.body) && NoLooseJumps(f.body) && HasCode(f.body)
    ensures ItemOk(OnFnItem(f))
  {
  }

  lemma HelperFnItemOk(f: HelperFn)
    requires ArgumentsOk(f.arguments) && StatementsOk(f.body) && NoLooseJumps(f.body) && HasCode(f.body)
    requires f.returnType.Some? == f.returnTypeName.Some?
    requires f.returnType.Some? ==> f.returnType.value == ParseType(f.returnTypeName.value) && !ForbiddenVariableType(f.returnType.value)
    ensures ItemOk(HelperFnItem(f))
  {
  }


  /** The rules that hold of every prefix of a file `parse` accepts. */
  predicate FileSoFar(items: seq<AstItem>) {
    && FileOrder(items)
    && DistinctFnNames(items)
    && HelpersCalledEarlier(items)
    && EmptyLinesSpaced(items)
    && DeclarationsSpaced(items)
    && (forall k :: 0 <= k < |items| ==> ItemOk(items[k]))
  }

  /** Every rule `parse` enforces on the file as a whole: the rules above, and
      the file does not end with an empty line. */
  predicate FileOk(items: seq<AstItem>) {
    FileSoFar(items) && (items != [] ==> !items[|items| - 1].EmptyLineItem?)
  }

  // ---------------------------------------------------------------------------
  // The function tables and the top-level loop's bookkeeping
  // ---------------------------------------------------------------------------

  /** `on_fns` as `parse` fills it: each on_ function under its name, a
      later one with the same name replacing an earlier one. */
  function OnFnTable(items: seq<AstItem>): (r: map<string, OnFn>)
    decreases |items|
    ensures forall n :: n in r ==> r[n].fnName == n
  {
    if items == [] then map[]
    else
      var t := OnFnTable(items[..|items| - 1]);
      var x := items[|items| - 1];
      if x.OnFnItem? then t[x.onFn.fnName := x.onFn] else t
  }

  /** `helper_fns` as `parse` fills it. */
  function HelperFnTable(items: seq<AstItem>): (r: map<string, HelperFn>)
    decreases |items|
    ensures forall n :: n in r ==> r[n].fnName == n
  {
    if items == [] then map[]
    else
      var t := HelperFnTable(items[..|items| - 1]);
      var x := items[|items| - 1];
      if x.HelperFnItem? then t[x.helperFn.fnName := x.helperFn] else t
  }

  /** The on_ table has a key exactly for the names of the file's on_
      functions, and maps each to one of them with that name. */
  lemma {:induction false} OnFnTableIndexes(items: seq<AstItem>, name: string)
    decreases |items|
    ensures name in OnFnTable(items) <==>
      exists k :: 0 <= k < |items| && items[k].OnFnItem? && items[k].onFn.fnName == name
    ensures name in OnFnTable(items) ==>
      OnFnTable(items)[name].fnName == name && OnFnItem(OnFnTable(items)[name]) in items
  {
    if items != [] {
      var prefix := items[..|items| - 1];
      var x := items[|items| - 1];
      assert items == prefix + [x];
      OnFnTableIndexes(prefix, name);
      if exists k :: 0 <= k < |items| && items[k].OnFnItem? && items[k].onFn.fnName == name {
        var k :| 0 <= k < |items| && items[k].OnFnItem? && items[k].onFn.fnName == name;
        if k < |prefix| {
          assert prefix[k] == items[k];
        }
      }
      if name in OnFnTable(prefix) {
        var k :| 0 <= k < |prefix| && prefix[k].OnFnItem? && prefix[k].onFn.fnName == name;
        assert items[k] == prefix[k];
      }
    }
  }

  /** The helper_ table has a key exactly for the names of the file's
      helper_ functions, and maps each to one of them with that name. */
  lemma {:induction false} HelperFnTableIndexes(items: seq<AstItem>, name: string)
    decreases |items|
    ensures name in HelperFnTable(items) <==>
      exists k :: 0 <= k < |items| && items[k].HelperFnItem? && items[k].helperFn.fnName == name
    ensures name in HelperFnTable(items) ==>
      HelperFnTable(items)[name].fnName == name && HelperFnItem(HelperFnTable(items)[name]) in items
  {
    if items != [] {
      var prefix := items[..|items| - 1];
      var x := items[|items| - 1];
      assert items == prefix + [x];
      HelperFnTableIndexes(prefix, name);
      if exists k :: 0 <= k < |items| && items[k].HelperFnItem? && items[k].helperFn.fnName == name {
        var k :| 0 <= k < |items| && items[k].HelperFnItem? && items[k].helperFn.fnName == name;
        if k < |prefix| {
          assert prefix[k] == items[k];
        }
      }
      if name in HelperFnTable(prefix) {
        var k :| 0 <= k < |prefix| && prefix[k].HelperFnItem? && prefix[k].helperFn.fnName == name;
        assert items[k] == prefix[k];
      }
    }
  }

  /** An empty helper_ table means the file has no helper_ function yet. */
  lemma NoHelperFns(items: seq<AstItem>)
    requires HelperFnTable(items) == map[]
    ensures forall k :: 0 <= k < |items| ==> !items[k].HelperFnItem?
  {
    forall k | 0 <= k < |items|
      ensures !items[k].HelperFnItem?
    {
      if items[k].HelperFnItem? {
        HelperFnTableIndexes(items, items[k].helperFn.fnName);
      }
    }
  }

  /** The conditions under which one more item keeps a file prefix
      acceptable. */
  lemma FileSoFarAppend(items: seq<AstItem>, x: AstItem)
    requires FileSoFar(items) && ItemOk(x)
    requires x.GlobalItem? ==> forall k :: 0 <= k < |items| ==> !items[k].OnFnItem?
    requires x.OnFnItem? ==> forall k :: 0 <= k < |items| ==> !items[k].HelperFnItem?
    requires x.OnFnItem? ==> forall k :: 0 <= k < |items| && items[k].OnFnItem? ==> items[k].onFn.fnName != x.onFn.fnName
    requires x.HelperFnItem? ==>
      forall k :: 0 <= k < |items| && items[k].HelperFnItem? ==> items[k].helperFn.fnName != x.helperFn.fnName
    requires x.HelperFnItem? ==> x.helperFn.fnName in HelperCallsOfItems(items)
    requires x.EmptyLineItem? ==> items != [] && !items[|items| - 1].EmptyLineItem?
    requires IsDeclaration(x) && LastNonComment(items).Some? && IsDeclaration(LastNonComment(items).value) ==>
      x.GlobalItem? && LastNonComment(items).value.GlobalItem?
    ensures FileSoFar(items + [x])
  {
    var grown := items + [x];
    assert grown[..|items|] == items;
    AppendKeepsOrder(items, x);
    AppendKeepsDistinct(items, x);
    AppendKeepsCalledEarlier(items, x);
    AppendKeepsEmptyLines(items, x);
    assert DeclarationsSpaced(grown);
    assert forall k :: 0 <= k < |grown| ==> ItemOk(grown[k]) by {
      forall k | 0 <= k < |grown| ensures ItemOk(grown[k]) {
        if k < |items| {
          assert grown[k] == items[k];
        }
      }
    }
  }

  lemma AppendKeepsOrder(items: seq<AstItem>, x: AstItem)
    requires FileOrder(items)
    requires x.GlobalItem? ==> forall k :: 0 <= k < |items| ==> !items[k].OnFnItem?
    requires x.OnFnItem? ==> forall k :: 0 <= k < |items| ==> !items[k].HelperFnItem?
    ensures FileOrder(items + [x])
  {
    var grown := items + [x];
    forall a, b | 0 <= a < b < |grown|
      ensures (grown[a].OnFnItem? ==> !grown[b].GlobalItem?) && (grown[a].HelperFnItem? ==> !grown[b].OnFnItem?)
    {
      assert grown[a] == items[a];
      if b < |items| {
        assert grown[b] == items[b];
      } else {
        assert grown[b] == x;
      }
    }
  }

  lemma AppendKeepsDistinct(items: seq<AstItem>, x: AstItem)
    requires DistinctFnNames(items)
    requires x.OnFnItem? ==> forall k :: 0 <= k < |items| && items[k].OnFnItem? ==> items[k].onFn.fnName != x.onFn.fnName
    requires x.HelperFnItem? ==>
      forall k :: 0 <= k < |items| && items[k].HelperFnItem? ==> items[k].helperFn.fnName != x.helperFn.fnName
    ensures DistinctFnNames(items + [x])
  {
    var grown := items + [x];
    forall a, b | 0 <= a < b < |grown|
      ensures (grown[a].OnFnItem? && grown[b].OnFnItem? ==> grown[a].onFn.fnName != grown[b].onFn.fnName)
        && (grown[a].HelperFnItem? && grown[b].HelperFnItem? ==> grown[a].helperFn.fnName != grown[b].helperFn.fnName)
    {
      assert grown[a] == items[a];
      if b < |items| {
        assert grown[b] == items[b];
      } else {
        assert grown[b] == x;
      }
    }
  }

  lemma AppendKeepsCalledEarlier(items: seq<AstItem>, x: AstItem)
    requires HelpersCalledEarlier(items)
    requires x.HelperFnItem? ==> x.helperFn.fnName in HelperCallsOfItems(items)
    ensures HelpersCalledEarlier(items + [x])
  {
    var grown := items + [x];
    forall k | 0 <= k < |grown| && grown[k].HelperFnItem?
      ensures grown[k].helperFn.fnName in HelperCallsOfItems(grown[..k])
    {
      if k < |items| {
        assert grown[k] == items[k];
        assert grown[..k] == items[..k];
      } else {
        assert grown[..k] == items;
      }
    }
  }

  lemma AppendKeepsEmptyLines(items: seq<AstItem>, x: AstItem)
    requires EmptyLinesSpaced(items)
    requires x.EmptyLineItem? ==> items != [] && !items[|items| - 1].EmptyLineItem?
    ensures EmptyLinesSpaced(items + [x])
  {
    var grown := items + [x];
    forall k | 0 <= k < |grown| && grown[k].EmptyLineItem?
      ensures k > 0 && !grown[k - 1].EmptyLineItem?
    {
      if k < |items| {
        assert grown[k] == items[k];
        if k > 0 {
          assert grown[k - 1] == items[k - 1];
        }
      } else {
        assert grown[k - 1] == items[k - 1];
      }
    }
  }

  /** The local flags of `parse`. */
  datatype TopLevelFlags = TopLevelFlags(
    seenOnFn: bool, seenNewline: bool, newlineAllowed: bool, newlineRequired: bool, justSeenGlobal: bool)

  const START_FLAGS := TopLevelFlags(false, false, false, false, false)

  /** What `parse`'s flags say about the items appended so far:
      `seen_on_fn` is set once an on_ function is, an empty line is only
      allowed after something other than an empty line, `newline_required`
      is set while the last non-comment item is a declaration, and
      `just_seen_global` only while that declaration is a global. */
  predicate Progress(items: seq<AstItem>, onFns: map<string, OnFn>, helperFns: map<string, HelperFn>,
                     called: set<string>, flags: TopLevelFlags)
  {
    && FileSoFar(items)
    && (!flags.seenOnFn ==> forall k :: 0 <= k < |items| ==> !items[k].OnFnItem?)
    && onFns == OnFnTable(items) && helperFns == HelperFnTable(items)
    && called == HelperCallsOfItems(items)
    && (flags.newlineAllowed ==> items != [] && !items[|items| - 1].EmptyLineItem?)
    && (items != [] && items[|items| - 1].EmptyLineItem? ==> flags.seenNewline && !flags.newlineAllowed)
    && (LastNonComment(items).Some? && IsDeclaration(LastNonComment(items).value) ==> flags.newlineRequired)
    && (flags.justSeenGlobal ==> LastNonComment(items).Some? && LastNonComment(items).value.GlobalItem?)
  }

  lemma ProgressStart()
    ensures Progress([], map[], map[], {}, START_FLAGS)
  {
  }

  /** The global branch of `parse`: allowed before any on_ function, and
      right after another declaration only when that one is a global. */
  lemma AddGlobal(items: seq<AstItem>, onFns: map<string, OnFn>, helperFns: map<string, HelperFn>,
                  called: set<string>, flags: TopLevelFlags, g: Statement)
    requires Progress(items, onFns, helperFns, called, flags)
    requires !flags.seenOnFn && (flags.newlineRequired ==> flags.justSeenGlobal) && ItemOk(GlobalItem(g))
    ensures Progress(items + [GlobalItem(g)], onFns, helperFns, called + HelperCallsOfStatement(g),
                     flags.(newlineAllowed := true, newlineRequired := true, justSeenGlobal := true))
  {
    var grown := items + [GlobalItem(g)];
    assert grown[..|items|] == items;
    HelperCallsOfItemsAppend(items, GlobalItem(g));
    FileSoFarAppend(items, GlobalItem(g));
  }

  /** The on_ branch of `parse`: no helper_ function yet, an empty line
      since the last declaration, and a new name. */
  lemma AddOnFn(items: seq<AstItem>, onFns: map<string, OnFn>, helperFns: map<string, HelperFn>,
                called: set<string>, flags: TopLevelFlags, f: OnFn)
    requires Progress(items, onFns, helperFns, called, flags)
    requires helperFns == map[] && !flags.newlineRequired && f.fnName !in onFns && ItemOk(OnFnItem(f))
    ensures Progress(items + [OnFnItem(f)], onFns[f.fnName := f], helperFns, called + HelperCallsOfStatements(f.body),
                     flags.(seenOnFn := true, newlineAllowed := true, newlineRequired := true, justSeenGlobal := false))
  {
    var grown := items + [OnFnItem(f)];
    assert grown[..|items|] == items;
    HelperCallsOfItemsAppend(items, OnFnItem(f));
    NoHelperFns(items);
    forall k | 0 <= k < |items| && items[k].OnFnItem?
      ensures items[k].onFn.fnName != f.fnName
    {
      OnFnTableIndexes(items, items[k].onFn.fnName);
    }
    FileSoFarAppend(items, OnFnItem(f));
  }

  /** The helper_ branch of `parse`: an empty line since the last
      declaration, a new name, and a function some earlier item calls. */
  lemma AddHelperFn(items: seq<AstItem>, onFns: map<string, OnFn>, helperFns: map<string, HelperFn>,
                    called: set<string>, flags: TopLevelFlags, f: HelperFn)
    requires Progress(items, onFns, helperFns, called, flags)
    requires !flags.newlineRequired && f.fnName !in helperFns && f.fnName in called && ItemOk(HelperFnItem(f))
    ensures Progress(items + [HelperFnItem(f)], onFns, helperFns[f.fnName := f], called + HelperCallsOfStatements(f.body),
                     flags.(newlineAllowed := true, newlineRequired := true, justSeenGlobal := false))
  {
    var grown := items + [HelperFnItem(f)];
    assert grown[..|items|] == items;
    HelperCallsOfItemsAppend(items, HelperFnItem(f));
    forall k | 0 <= k < |items| && items[k].HelperFnItem?
      ensures items[k].helperFn.fnName != f.fnName
    {
      HelperFnTableIndexes(items, items[k].helperFn.fnName);
    }
    FileSoFarAppend(items, HelperFnItem(f));
  }

  /** The empty-line branch of `parse`: only where an empty line is allowed. */
  lemma AddEmptyLine(items: seq<AstItem>, onFns: map<string, OnFn>, helperFns: map<string, HelperFn>,
                     called: set<string>, flags: TopLevelFlags)
    requires Progress(items, onFns, helperFns, called, flags)
    requires flags.newlineAllowed
    ensures Progress(items + [EmptyLineItem], onFns, helperFns, called,
                     flags.(seenNewline := true, newlineAllowed := false, newlineRequired := false, justSeenGlobal := false))
  {
    var grown := items + [EmptyLineItem];
    assert grown[..|items|] == items;
    HelperCallsOfItemsAppend(items, EmptyLineItem);
    FileSoFarAppend(items, EmptyLineItem);
  }

  /** The comment branch of `parse`: always allowed, and an empty line may
      follow it. */
  lemma AddComment(items: seq<AstItem>, onFns: map<string, OnFn>, helperFns: map<string, HelperFn>,
                   called: set<string>, flags: TopLevelFlags, str: string)
    requires Progress(items, onFns, helperFns, called, flags)
    ensures Progress(items + [CommentItem(str)], onFns, helperFns, called, flags.(newlineAllowed := true))
  {
    var grown := items + [CommentItem(str)];
    assert grown[..|items|] == items;
    HelperCallsOfItemsAppend(items, CommentItem(str));
    FileSoFarAppend(items, CommentItem(str));
  }

  /** At the end of the file: unless the last item is an empty line, the
      items meet every rule of `FileOk`. */
  lemma ProgressEnd(items: seq<AstItem>, onFns: map<string, OnFn>, helperFns: map<string, HelperFn>,
                    called: set<string>, flags: TopLevelFlags)
    requires Progress(items, onFns, helperFns, called, flags)
    requires !(flags.seenNewline && !flags.newlineAllowed)
    ensures FileOk(items)
  {
  }

  // ---------------------------------------------------------------------------
  // The parser
  // ---------------------------------------------------------------------------

  class Parser {
    const tokens: seq<Token>
    var ast: seq<AstItem>
    var helperFns: map<string, HelperFn>
    var onFns: map<string, OnFn>
    var parsingDepth: nat
    var loopDepth: nat
    var indentation: nat
    var calledHelperFnNames: set<string>

    constructor(tokens: seq<Token>)
      ensures this.tokens == tokens && ast == [] && helperFns == map[] && onFns == map[]
      ensures parsingDepth == 0 && loopDepth == 0 && indentation == 0 && calledHelperFnNames == {}
    {
      this.tokens := tokens;
      ast := [];
      helperFns := map[];
      onFns := map[];
      parsingDepth := 0;
      loopDepth := 0;
      indentation := 0;
      calledHelperFnNames := {};
    }

    /** The error the source raises at token `k`, whose message names the
        line of token `k`; computing that line fails when `k` is out of range. */
    function ErrorAt(kind: ErrorKind, k: nat): ParserError {
      if k < |tokens| then ParserError(kind, Some(TokenLineNumber(tokens, k)))
      else LineNumberOutOfBounds(k)
    }

    /** `get_token_line_number`: the counting loop. */
    method GetTokenLineNumber(k: nat) returns (r: Result<nat, ParserError>)
      ensures k >= |tokens| ==> r == Err(LineNumberOutOfBounds(k))
      ensures k < |tokens| ==> r.Ok? && r.value == TokenLineNumber(tokens, k)
      ensures r.Ok? ==> 1 <= r.value <= k + 1
    {
      if k >= |tokens| {
        return Err(LineNumberOutOfBounds(k));
      }
      var line := 1;
      for idx := 0 to k
        invariant line == 1 + NewlinesBefore(tokens, idx)
        invariant line <= idx + 1
      {
        if tokens[idx].kind == NewlineToken {
          line := line + 1;
        }
      }
      return Ok(line);
    }

    /** `peek_token` */
    function PeekToken(k: nat): (r: Result<Token, ParserError>)
      ensures r.Ok? <==> k < |tokens|
      ensures r.Ok? ==> r.value == tokens[k]
      ensures r.Err? ==> r.error == PeekOutOfBounds(k)
    {
      if k >= |tokens| then Err(PeekOutOfBounds(k)) else Ok(tokens[k])
    }

    /** `consume_token_type`: the token at `k` has the expected kind; the
        cursor moves past it. */
    function ConsumeTokenType(k: nat, expected: TokenType): (r: Result<nat, ParserError>)
      ensures r.Ok? <==> k < |tokens| && tokens[k].kind == expected
      ensures r.Ok? ==> r.value == k + 1
      ensures k >= |tokens| ==> r == Err(PeekOutOfBounds(k))
    {
      if k >= |tokens| then Err(PeekOutOfBounds(k))
      else if tokens[k].kind != expected then Err(ErrorAt(WrongTokenType(expected, tokens[k].kind), k))
      else Ok(k + 1)
    }

    /** `consume_space` */
    function ConsumeSpace(k: nat): (r: Result<nat, ParserError>)
      ensures r.Ok? <==> k < |tokens| && tokens[k].kind == SpaceToken
      ensures r.Ok? ==> r.value == k + 1
    {
      if k >= |tokens| then Err(PeekOutOfBounds(k))
      else if tokens[k].kind != SpaceToken then Err(ErrorAt(ExpectedSpace(tokens[k].kind), k))
      else Ok(k + 1)
    }

    /** `consume_indentation`: an indentation token of exactly the current
        depth's width. */
    function ConsumeIndentation(k: nat): (r: Result<nat, ParserError>)
      reads this
      ensures r.Ok? <==> k < |tokens| && tokens[k].kind == IndentationToken
                         && |tokens[k].value| == indentation * SPACES_PER_INDENT
      ensures r.Ok? ==> r.value == k + 1
    {
      if k >= |tokens| then Err(PeekOutOfBounds(k))
      else if tokens[k].kind != IndentationToken then Err(ErrorAt(WrongTokenType(IndentationToken, tokens[k].kind), k))
      else if |tokens[k].value| != indentation * SPACES_PER_INDENT then
        Err(ErrorAt(WrongIndentation(indentation * SPACES_PER_INDENT, |tokens[k].value|), k))
      else Ok(k + 1)
    }

    /** `is_end_of_block`: a `}`, or an indentation token one level out. */
    function IsEndOfBlock(k: nat): (r: Result<bool, ParserError>)
      reads this
      ensures r.Ok? <==> k < |tokens| && tokens[k].kind in {CloseBraceToken, NewlineToken, IndentationToken}
      ensures r == Ok(true) <==>
        (k < |tokens| &&
         (tokens[k].kind == CloseBraceToken ||
          (tokens[k].kind == IndentationToken && |tokens[k].value| == (indentation - 1) * SPACES_PER_INDENT)))
    {
      if k >= |tokens| then Err(PeekOutOfBounds(k))
      else if tokens[k].kind == CloseBraceToken then Ok(true)
      else if tokens[k].kind == NewlineToken then Ok(false)
      else if tokens[k].kind == IndentationToken then Ok(|tokens[k].value| == (indentation - 1) * SPACES_PER_INDENT)
      else Err(ErrorAt(ExpectedBlockEnd(tokens[k].value), k))
    }

    /** `increase_parsing_depth` */
    method IncreaseParsingDepth() returns (r: Result<(), ParserError>)
      modifies this`parsingDepth
      ensures parsingDepth == old(parsingDepth) + 1
      ensures r.Ok? <==> parsingDepth < MAX_PARSING_DEPTH
      ensures r.Err? ==> r.error == ParserError(TooDeeplyNested, None)
    {
      parsingDepth := parsingDepth + 1;
      if parsingDepth >= MAX_PARSING_DEPTH {
        return Err(ParserError(TooDeeplyNested, None));
      }
      return Ok(());
    }

    /** `decrease_parsing_depth` */
    method DecreaseParsingDepth() returns (r: Result<(), ParserError>)
      modifies this`parsingDepth
      ensures old(parsingDepth) == 0 ==> r == Err(ParserError(ParsingDepthUnderflow, None)) && parsingDepth == 0
      ensures old(parsingDepth) > 0 ==> r.Ok? && parsingDepth == old(parsingDepth) - 1
    {
      if parsingDepth <= 0 {
        return Err(ParserError(ParsingDepthUnderflow, None));
      }
      parsingDepth := parsingDepth - 1;
      return Ok(());
    }

    /** Expression `e` was parsed from exactly the tokens `i..j`, binds at
        least as tightly as `level` and respects precedence throughout. */
    predicate ParsedExpr(i: nat, e: Expr, j: nat, level: nat) {
      i < j <= |tokens| && Shaped(tokens[i..j], RenderExpr(e)) && WellPrec(e) && Prec(e) >= level
    }

    // -------------------------------------------------------------------------
    // Expressions
    // -------------------------------------------------------------------------

    /** `parse_expression` */
    method ParseExpression(i: nat) returns (r: Result<(Expr, nat), ParserError>)
      requires i <= |tokens|
      modifies this`parsingDepth, this`calledHelperFnNames
      decreases |tokens| - i, 10
      ensures r.Err? || ParsedExpr(i, r.value.0, r.value.1, 1)
      ensures r.Ok? ==> parsingDepth == old(parsingDepth)
      ensures r.Ok? ==> calledHelperFnNames == old(calledHelperFnNames) + HelperCalls(r.value.0)
    {
      var d := IncreaseParsingDepth();
      if d.Err? {
        return Err(d.error);
      }
      r := ParseBinaryLevel(1, i);
      if r.Ok? {
        var _ := DecreaseParsingDepth();
      }
    }

    /** `parse_or`, `parse_and`, `parse_equality`, `parse_comparison`,
        `parse_term` and `parse_factor`: one level each, loosest first.  An
        operand of the next level, then, while a space, an operator of this
        level and a space follow, another operand, folded to the left. */
    method ParseBinaryLevel(level: nat, i: nat) returns (r: Result<(Expr, nat), ParserError>)
      requires 1 <= level <= 6 && i <= |tokens|
      modifies this`parsingDepth, this`calledHelperFnNames
      decreases |tokens| - i, 10 - level
      ensures r.Err? || ParsedExpr(i, r.value.0, r.value.1, level)
      ensures r.Ok? ==> parsingDepth == old(parsingDepth)
      ensures r.Ok? ==> calledHelperFnNames == old(calledHelperFnNames) + HelperCalls(r.value.0)
    {
      var first;
      if level == 6 {
        first := ParseUnary(i);
      } else {
        first := ParseBinaryLevel(level + 1, i);
      }
      if first.Err? {
        return Err(first.error);
      }
      var expr := first.value.0;
      var j: nat := first.value.1;
      while true
        invariant ParsedExpr(i, expr, j, level)
        invariant parsingDepth == old(parsingDepth)
        invariant calledHelperFnNames == old(calledHelperFnNames) + HelperCalls(expr)
        decreases |tokens| - j
      {
        if j >= |tokens| {
          return Err(PeekOutOfBounds(j));
        }
        if tokens[j].kind != SpaceToken {
          break;
        }
        if j + 1 >= |tokens| {
          return Err(PeekOutOfBounds(j + 1));
        }
        var op := tokens[j + 1].kind;
        if OpLevel(op) != level {
          break;
        }
        var k := ConsumeSpace(j + 2);
        if k.Err? {
          return Err(k.error);
        }
        var right;
        if level == 6 {
          right := ParseUnary(k.value);
        } else {
          right := ParseBinaryLevel(level + 1, k.value);
        }
        if right.Err? {
          return Err(right.error);
        }
        var (rhs, m) := right.value;
        ShapedBinary(tokens, i, j, m, expr, op, rhs, level);
        if level <= 2 {
          expr := LogicalExpr(expr, op, rhs, NoResult);
        } else {
          expr := BinaryExpr(expr, op, rhs, NoResult);
        }
        j := m;
      }
      return Ok((expr, j));
    }

    /** `parse_unary`: `-` or `not ` before a unary expression, or a call. */
    method ParseUnary(i: nat) returns (r: Result<(Expr, nat), ParserError>)
      requires i <= |tokens|
      modifies this`parsingDepth, this`calledHelperFnNames
      decreases |tokens| - i, 3
      ensures r.Err? || ParsedExpr(i, r.value.0, r.value.1, UNARY_LEVEL)
      ensures r.Ok? ==> parsingDepth == old(parsingDepth)
      ensures r.Ok? ==> calledHelperFnNames == old(calledHelperFnNames) + HelperCalls(r.value.0)
    {
      var d := IncreaseParsingDepth();
      if d.Err? {
        return Err(d.error);
      }
      if i >= |tokens| {
        return Err(PeekOutOfBounds(i));
      }
      var token := tokens[i];
      if token.kind == MinusToken || token.kind == NotToken {
        var k: nat := i + 1;
        if token.kind == NotToken {
          var s := ConsumeSpace(k);
          if s.Err? {
            return Err(s.error);
          }
          k := s.value;
        }
        var operand := ParseUnary(k);
        if operand.Err? {
          return Err(operand.error);
        }
        var (x, j) := operand.value;
        var prefix := if token.kind == NotToken then [Fixed(NotToken), Fixed(SpaceToken)] else [Fixed(MinusToken)];
        assert Shaped(tokens[i..k], prefix);
        ShapedJoin(tokens, i, k, j, prefix, RenderExpr(x));
        var _ := DecreaseParsingDepth();
        return Ok((UnaryExpr(token.kind, x, NoResult), j));
      }
      var _ := DecreaseParsingDepth();
      r := ParseCall(i);
    }

    /** `parse_call`: a primary expression, and if `(` follows it, a call of
        the identifier it named, with its arguments.  A called `helper_` name
        is recorded. */
    method ParseCall(i: nat) returns (r: Result<(Expr, nat), ParserError>)
      requires i <= |tokens|
      modifies this`parsingDepth, this`calledHelperFnNames
      decreases |tokens| - i, 2
      ensures r.Err? || ParsedExpr(i, r.value.0, r.value.1, UNARY_LEVEL)
      ensures r.Ok? ==> parsingDepth == old(parsingDepth)
      ensures r.Ok? ==> calledHelperFnNames == old(calledHelperFnNames) + HelperCalls(r.value.0)
      ensures r.Ok? && i + 1 < |tokens| && tokens[i].kind == WordToken && tokens[i + 1].kind == OpenParenthesisToken
        ==> r.value.0.CallExpr?
    {
      var d := IncreaseParsingDepth();
      if d.Err? {
        return Err(d.error);
      }
      var p := ParsePrimary(i);
      if p.Err? {
        return Err(p.error);
      }
      var (expr, j) := p.value;
      if j >= |tokens| {
        return Err(PeekOutOfBounds(j));
      }
      if tokens[j].kind != OpenParenthesisToken {
        var _ := DecreaseParsingDepth();
        return Ok((expr, j));
      }
      if !expr.IdentifierExpr? {
        return Err(ErrorAt(CallOfNonIdentifier, j));
      }
      assert j == i + 1 && tokens[i].kind == WordToken && tokens[i].value == expr.name;
      r := ParseCallTail(i, expr.name);
    }

    /** The rest of `parse_call` once a name and `(` have been seen: the
        called helper is recorded, the arguments are parsed up to `)` and
        the depth raised at the start of the call is lowered again. */
    method ParseCallTail(i: nat, fnName: string) returns (r: Result<(Expr, nat), ParserError>)
      requires i + 1 < |tokens| && tokens[i].kind == WordToken && tokens[i].value == fnName
      requires tokens[i + 1].kind == OpenParenthesisToken
      modifies this`parsingDepth, this`calledHelperFnNames
      decreases |tokens| - i, 1
      ensures r.Err? || (ParsedExpr(i, r.value.0, r.value.1, UNARY_LEVEL) && r.value.0.CallExpr?
        && old(parsingDepth) > 0 && parsingDepth == old(parsingDepth) - 1
        && calledHelperFnNames == old(calledHelperFnNames) + HelperCalls(r.value.0))
    {
      if StartsWith(fnName, "helper_") {
        calledHelperFnNames := calledHelperFnNames + {fnName};
      }
      var j := i + 2;
      if j >= |tokens| {
        return Err(PeekOutOfBounds(j));
      }
      var args: seq<Expr> := [];
      var end: nat := j + 1;
      if tokens[j].kind != CloseParenthesisToken {
        var a := ParseCallArguments(j);
        if a.Err? {
          return Err(a.error);
        }
        args := a.value.0;
        end := a.value.1;
      }
      ShapedCall(tokens, i, fnName, args, end);
      var d := DecreaseParsingDepth();
      if d.Err? {
        return Err(d.error);
      }
      return Ok((CallExpr(fnName, args, NoResult), end));
    }

    /** The argument loop of `parse_call`, from the first argument to the
        closing `)`: expressions separated by a comma and a space. */
    method ParseCallArguments(start: nat) returns (r: Result<(seq<Expr>, nat), ParserError>)
      requires start <= |tokens|
      modifies this`parsingDepth, this`calledHelperFnNames
      decreases |tokens| - start, 12
      ensures r.Err? || var (args, end) := r.value;
        && start < end <= |tokens| && |args| > 0
        && Shaped(tokens[start..end], RenderArgs(args) + [Fixed(CloseParenthesisToken)])
        && (forall k :: 0 <= k < |args| ==> WellPrec(args[k]))
      ensures r.Ok? ==> parsingDepth == old(parsingDepth)
      ensures r.Ok? ==> calledHelperFnNames == old(calledHelperFnNames) + HelperCallsOfExprs(r.value.0)
    {
      ghost var depth0, called0 := parsingDepth, calledHelperFnNames;
      var args: seq<Expr> := [];
      var j: nat := start;
      var end: nat;
      while true
        invariant start <= j <= |tokens|
        invariant args == [] ==> j == start
        invariant args != [] ==> start < j && Shaped(tokens[start..j], RenderArgs(args) + [Fixed(CommaToken), Fixed(SpaceToken)])
        invariant forall k :: 0 <= k < |args| ==> WellPrec(args[k])
        invariant parsingDepth == depth0
        invariant calledHelperFnNames == called0 + HelperCallsOfExprs(args)
        decreases |tokens| - j
      {
        var a := ParseCallArgument(start, j, args);
        if a.Err? {
          return Err(a.error);
        }
        var (arg, k, closed) := a.value;
        HelperCallsOfExprsAppend(args, arg);
        args := args + [arg];
        if closed {
          end := k;
          break;
        }
        j := k;
      }
      return Ok((args, end));
    }

    /** One argument of `parse_call` and what follows it: either the closing
        `)` (the third component is true) or a comma and a space. */
    method ParseCallArgument(start: nat, j: nat, ghost args: seq<Expr>) returns (r: Result<(Expr, nat, bool), ParserError>)
      requires start <= j <= |tokens|
      requires args == [] ==> j == start
      requires args != [] ==> Shaped(tokens[start..j], RenderArgs(args) + [Fixed(CommaToken), Fixed(SpaceToken)])
      modifies this`parsingDepth, this`calledHelperFnNames
      decreases |tokens| - j, 11
      ensures r.Err? || var (arg, k, closed) := r.value;
        && j < k <= |tokens| && WellPrec(arg)
        && (closed ==> Shaped(tokens[start..k], RenderArgs(args + [arg]) + [Fixed(CloseParenthesisToken)]))
        && (!closed ==> Shaped(tokens[start..k], RenderArgs(args + [arg]) + [Fixed(CommaToken), Fixed(SpaceToken)]))
      ensures r.Ok? ==> parsingDepth == old(parsingDepth)
      ensures r.Ok? ==> calledHelperFnNames == old(calledHelperFnNames) + HelperCalls(r.value.0)
    {
      var a := ParseExpression(j);
      if a.Err? {
        return Err(a.error);
      }
      var (arg, m) := a.value;
      var e := ParseArgumentEnd(start, j, m, args, arg);
      if e.Err? {
        return Err(e.error);
      }
      return Ok((arg, e.value.0, e.value.1));
    }

    /** What follows one argument of a call: `)`, which closes the call, or
        `, ` before the next argument. */
    method ParseArgumentEnd(start: nat, j: nat, m: nat, ghost args: seq<Expr>, ghost arg: Expr)
      returns (r: Result<(nat, bool), ParserError>)
      requires start <= j < m <= |tokens|
      requires args == [] ==> j == start
      requires args != [] ==> Shaped(tokens[start..j], RenderArgs(args) + [Fixed(CommaToken), Fixed(SpaceToken)])
      requires Shaped(tokens[j..m], RenderExpr(arg))
      ensures r.Err? || var (k, closed) := r.value;
        && m < k <= |tokens|
        && (closed ==> Shaped(tokens[start..k], RenderArgs(args + [arg]) + [Fixed(CloseParenthesisToken)]))
        && (!closed ==> Shaped(tokens[start..k], RenderArgs(args + [arg]) + [Fixed(CommaToken), Fixed(SpaceToken)]))
      ensures m >= |tokens| ==> r == Err(PeekOutOfBounds(m))
    {
      if m >= |tokens| {
        return Err(PeekOutOfBounds(m));
      }
      if tokens[m].kind != CommaToken {
        var c := ConsumeTokenType(m, CloseParenthesisToken);
        if c.Err? {
          return Err(c.error);
        }
        ShapedArgumentStep(tokens, start, j, m, c.value, args, arg, [Fixed(CloseParenthesisToken)]);
        return Ok((c.value, true));
      }
      var s := ConsumeSpace(m + 1);
      if s.Err? {
        return Err(s.error);
      }
      ShapedArgumentStep(tokens, start, j, m, m + 2, args, arg, [Fixed(CommaToken), Fixed(SpaceToken)]);
      return Ok((s.value, false));
    }

    /** The single-token cases of `parse_primary`: `true`, `false`, a string,
        an identifier or a number. */
    function PrimaryLiteral(i: nat): (r: Result<Expr, ParserError>)
      requires i < |tokens|
      ensures r.Ok? ==> |RenderExpr(r.value)| == 1 && Matches(tokens[i], RenderExpr(r.value)[0])
      ensures r.Ok? ==> HelperCalls(r.value) == {} && WellPrec(r.value) && Prec(r.value) == UNARY_LEVEL
      ensures r.Ok? <==> tokens[i].kind in {TrueToken, FalseToken, StringToken, WordToken}
                         || (tokens[i].kind == NumberToken && StrToNumber(tokens[i].value).Ok?)
      ensures tokens[i].kind == WordToken ==> r == Ok(IdentifierExpr(tokens[i].value, NoResult))
      ensures tokens[i].kind == NumberToken && r.Ok? ==>
        r.value == NumberExpr(StrToNumber(tokens[i].value).value, tokens[i].value, NumberResult)
    {
      var token := tokens[i];
      if token.kind == TrueToken then Ok(TrueExpr(BoolResult))
      else if token.kind == FalseToken then Ok(FalseExpr(BoolResult))
      else if token.kind == StringToken then Ok(StringExpr(token.value, StringResult))
      else if token.kind == WordToken then Ok(IdentifierExpr(token.value, NoResult))
      else if token.kind == NumberToken then
        var n :- StrToNumber(token.value);
        Ok(NumberExpr(n, token.value, NumberResult))
      else Err(ErrorAt(ExpectedPrimary(token.kind), i))
    }

    /** `parse_primary`: a parenthesized expression, `true`, `false`, a
        string, an identifier or a number. */
    method ParsePrimary(i: nat) returns (r: Result<(Expr, nat), ParserError>)
      requires i <= |tokens|
      modifies this`parsingDepth, this`calledHelperFnNames
      decreases |tokens| - i, 1
      ensures r.Err? || ParsedExpr(i, r.value.0, r.value.1, UNARY_LEVEL)
      ensures r.Ok? ==> parsingDepth == old(parsingDepth)
      ensures r.Ok? ==> calledHelperFnNames == old(calledHelperFnNames) + HelperCalls(r.value.0)
      ensures r.Ok? && tokens[i].kind == WordToken ==> r.value == (IdentifierExpr(tokens[i].value, NoResult), i + 1)
      ensures r.Ok? && tokens[i].kind == NumberToken ==>
        StrToNumber(tokens[i].value).Ok? && r.value.0 == NumberExpr(StrToNumber(tokens[i].value).value, tokens[i].value, NumberResult)
    {
      var d := IncreaseParsingDepth();
      if d.Err? {
        return Err(d.error);
      }
      if i >= |tokens| {
        return Err(PeekOutOfBounds(i));
      }
      var token := tokens[i];
      var expr: Expr;
      var j: nat := i + 1;
      if token.kind == OpenParenthesisToken {
        var inner := ParseExpression(i + 1);
        if inner.Err? {
          return Err(inner.error);
        }
        var (x, k) := inner.value;
        var c := ConsumeTokenType(k, CloseParenthesisToken);
        if c.Err? {
          return Err(c.error);
        }
        ShapedParenthesized(tokens, i, x, k);
        expr := ParenthesizedExpr(x, NoResult);
        j := c.value;
      } else {
        var leaf := PrimaryLiteral(i);
        if leaf.Err? {
          return Err(leaf.error);
        }
        expr := leaf.value;
        assert Shaped(tokens[i..i + 1], RenderExpr(expr));
      }
      var _ := DecreaseParsingDepth();
      return Ok((expr, j));
    }

    // -------------------------------------------------------------------------
    // Statements
    // -------------------------------------------------------------------------

    /** `parse_statement`: the statement the token at `i` starts. */
    method ParseStatement(i: nat) returns (r: Result<(Statement, nat), ParserError>)
      requires i <= |tokens|
      modifies this`parsingDepth, this`loopDepth, this`indentation, this`calledHelperFnNames
      decreases |tokens| - i, 13
      ensures r.Err? || var (st, j) := r.value;
        && i < j <= |tokens| && FirstTokenKind(st) == tokens[i].kind
        && StatementOk(st) && (old(loopDepth) == 0 ==> NoLooseJump(st))
        && (st.VariableStatement? ==> st.name == tokens[i].value)
        && (st.CommentStatement? ==> st.str == tokens[i].value)
      ensures r.Ok? ==> parsingDepth == old(parsingDepth) && loopDepth == old(loopDepth) && indentation == old(indentation)
      ensures r.Ok? ==> calledHelperFnNames == old(calledHelperFnNames) + HelperCallsOfStatement(r.value.0)
      ensures old(parsingDepth) + 1 < MAX_PARSING_DEPTH && i < |tokens| && old(loopDepth) == 0 ==>
        (tokens[i].kind == BreakToken ==> r == Err(ParserError(BreakOutsideLoop, None))) &&
        (tokens[i].kind == ContinueToken ==> r == Err(ParserError(ContinueOutsideLoop, None)))
    {
      ghost var depth0, loops0, indent0 := parsingDepth, loopDepth, indentation;
      var d := IncreaseParsingDepth();
      if d.Err? {
        return Err(d.error);
      }
      if i >= |tokens| {
        return Err(PeekOutOfBounds(i));
      }
      var token := tokens[i];
      var st: Statement;
      var j: nat;
      if token.kind == WordToken {
        var w := ParseWordStatement(i);
        if w.Err? {
          return Err(w.error);
        }
        assert parsingDepth == depth0 + 1 && loopDepth == loops0 && indentation == indent0;
        st, j := w.value.0, w.value.1;
      } else if token.kind == IfToken {
        var f := ParseIfStatement(i + 1);
        if f.Err? {
          return Err(f.error);
        }
        assert parsingDepth == depth0 + 1 && loopDepth == loops0 && indentation == indent0;
        st, j := f.value.0, f.value.1;
      } else if token.kind == ReturnToken {
        var ret := ParseReturnStatement(i + 1);
        if ret.Err? {
          return Err(ret.error);
        }
        assert parsingDepth == depth0 + 1 && loopDepth == loops0 && indentation == indent0;
        st, j := ret.value.0, ret.value.1;
      } else if token.kind == WhileToken {
        var w := ParseWhileStatement(i + 1);
        if w.Err? {
          return Err(w.error);
        }
        assert parsingDepth == depth0 + 1 && loopDepth == loops0 && indentation == indent0;
        st, j := w.value.0, w.value.1;
      } else {
        var simple := SingleTokenStatement(i);
        if simple.Err? {
          return Err(simple.error);
        }
        st, j := simple.value, i + 1;
      }
      var _ := DecreaseParsingDepth();
      return Ok((st, j));
    }

    /** The single-token cases of `parse_statement`: `break` and `continue`,
        allowed only inside a loop, an empty line and a comment; any other
        token starts no statement. */
    function SingleTokenStatement(i: nat): (r: Result<Statement, ParserError>)
      requires i < |tokens|
      reads this`loopDepth
      ensures r.Ok? ==>
        && FirstTokenKind(r.value) == tokens[i].kind && StatementOk(r.value)
        && (loopDepth == 0 ==> NoLooseJump(r.value)) && HelperCallsOfStatement(r.value) == {}
        && !r.value.VariableStatement? && (r.value.CommentStatement? ==> r.value.str == tokens[i].value)
      ensures r.Ok? <==> tokens[i].kind in {NewlineToken, CommentToken}
                         || (loopDepth > 0 && tokens[i].kind in {BreakToken, ContinueToken})
      ensures loopDepth == 0 && tokens[i].kind == BreakToken ==> r == Err(ParserError(BreakOutsideLoop, None))
      ensures loopDepth == 0 && tokens[i].kind == ContinueToken ==> r == Err(ParserError(ContinueOutsideLoop, None))
    {
      var token := tokens[i];
      if token.kind == BreakToken then
        if loopDepth == 0 then Err(ParserError(BreakOutsideLoop, None)) else Ok(BreakStatement)
      else if token.kind == ContinueToken then
        if loopDepth == 0 then Err(ParserError(ContinueOutsideLoop, None)) else Ok(ContinueStatement)
      else if token.kind == NewlineToken then Ok(EmptyLineStatement)
      else if token.kind == CommentToken then Ok(CommentStatement(token.value))
      else Err(ErrorAt(ExpectedStatementToken(token.kind), i))
    }

    /** The word case of `parse_statement`: a call statement when `(`
        follows the word, a local variable when `:` or a space does. */
    method ParseWordStatement(i: nat) returns (r: Result<(Statement, nat), ParserError>)
      requires i < |tokens| && tokens[i].kind == WordToken
      modifies this`parsingDepth, this`calledHelperFnNames
      decreases |tokens| - i, 12
      ensures r.Err? || var (st, j) := r.value;
        && i < j <= |tokens| && (st.CallStatement? || st.VariableStatement?) && StatementOk(st)
        && (st.VariableStatement? ==> st.name == tokens[i].value)
      ensures r.Ok? ==> parsingDepth == old(parsingDepth)
      ensures r.Ok? ==> calledHelperFnNames == old(calledHelperFnNames) + HelperCallsOfStatement(r.value.0)
    {
      if i + 1 >= |tokens| {
        return Err(PeekOutOfBounds(i + 1));
      }
      var next := tokens[i + 1].kind;
      if next == OpenParenthesisToken {
        var c := ParseCall(i);
        if c.Err? {
          return Err(c.error);
        }
        return Ok((CallStatement(c.value.0), c.value.1));
      } else if next == ColonToken || next == SpaceToken {
        r := ParseLocalVariable(i);
      } else {
        return Err(ErrorAt(ExpectedCallOrAssignment(tokens[i].value), i));
      }
    }

    /** The return case of `parse_statement`, from the token after `return`:
        a bare `return` before the newline, or a space and a value. */
    method ParseReturnStatement(i: nat) returns (r: Result<(Statement, nat), ParserError>)
      requires i <= |tokens|
      modifies this`parsingDepth, this`calledHelperFnNames
      decreases |tokens| - i, 12
      ensures r.Err? || var (st, j) := r.value;
        && i <= j <= |tokens| && st.ReturnStatement? && StatementOk(st)
        && (st.value.None? <==> j == i)
      ensures r.Ok? ==> parsingDepth == old(parsingDepth)
      ensures r.Ok? ==> calledHelperFnNames == old(calledHelperFnNames) + HelperCallsOfStatement(r.value.0)
    {
      if i >= |tokens| {
        return Err(PeekOutOfBounds(i));
      }
      if tokens[i].kind == NewlineToken {
        return Ok((ReturnStatement(None), i));
      }
      var sp := ConsumeSpace(i);
      if sp.Err? {
        return Err(sp.error);
      }
      var e := ParseExpression(sp.value);
      if e.Err? {
        return Err(e.error);
      }
      return Ok((ReturnStatement(Some(e.value.0)), e.value.1));
    }

    /** `parse_local_variable`: `name = expr` or `name: type = expr`. */
    method ParseLocalVariable(i: nat) returns (r: Result<(Statement, nat), ParserError>)
      requires i <= |tokens|
      modifies this`parsingDepth, this`calledHelperFnNames
      decreases |tokens| - i, 11
      ensures r.Err? || var (st, j) := r.value;
        && i + 1 < j <= |tokens| && st.VariableStatement? && st.name == tokens[i].value && st.name != "me"
        && (st.ty.Some? <==> tokens[i + 1].kind == ColonToken)
        && st.typeName.Some? == st.ty.Some?
        && (st.ty.Some? ==> st.ty.value == ParseType(st.typeName.value) && !ForbiddenVariableType(st.ty.value))
        && StatementOk(st)
      ensures r.Ok? ==> parsingDepth == old(parsingDepth)
      ensures r.Ok? ==> calledHelperFnNames == old(calledHelperFnNames) + HelperCallsOfStatement(r.value.0)
    {
      if i >= |tokens| {
        return Err(PeekOutOfBounds(i));
      }
      var name := tokens[i].value;
      var j: nat := i + 1;
      var ty: Option<Type> := None;
      var typeName: Option<string> := None;
      if j >= |tokens| {
        return Err(PeekOutOfBounds(j));
      }
      if tokens[j].kind == ColonToken {
        j := j + 1;
        if name == "me" {
          return Err(ParserError(LocalNamedMe, None));
        }
        var sp := ConsumeSpace(j);
        if sp.Err? {
          return Err(sp.error);
        }
        j := sp.value;
        if j >= |tokens| {
          return Err(PeekOutOfBounds(j));
        }
        if tokens[j].kind != WordToken {
          return Err(ErrorAt(ExpectedTypeWord, i));
        }
        ty := Some(ParseType(tokens[j].value));
        typeName := Some(tokens[j].value);
        if ForbiddenVariableType(ty.value) {
          return Err(ParserError(ForbiddenLocalType(name, typeName.value), None));
        }
        j := j + 1;
      }
      if j >= |tokens| {
        return Err(PeekOutOfBounds(j));
      }
      if tokens[j].kind != SpaceToken {
        return Err(ErrorAt(LocalNotAssigned(name), i));
      }
      var a := ConsumeTokenType(j + 1, AssignmentToken);
      if a.Err? {
        return Err(a.error);
      }
      if name == "me" {
        return Err(ParserError(AssignmentToMe, None));
      }
      var sp := ConsumeSpace(a.value);
      if sp.Err? {
        return Err(sp.error);
      }
      var e := ParseExpression(sp.value);
      if e.Err? {
        return Err(e.error);
      }
      return Ok((VariableStatement(name, ty, typeName, e.value.0), e.value.1));
    }

    /** `parse_if_statement`, from the token after `if`: a space, the
        condition and a block, then optionally ` else` and either ` if ...`,
        which nests one if statement in the else branch, or a block. */
    method ParseIfStatement(i: nat) returns (r: Result<(Statement, nat), ParserError>)
      requires i <= |tokens|
      modifies this`parsingDepth, this`loopDepth, this`indentation, this`calledHelperFnNames
      decreases |tokens| - i, 12
      ensures r.Err? || var (st, j) := r.value;
        && i < j <= |tokens| && st.IfStatement? && StatementOk(st)
        && (old(loopDepth) == 0 ==> NoLooseJump(st))
        && tokens[j - 1].kind == CloseBraceToken
      ensures r.Ok? ==> parsingDepth == old(parsingDepth) && loopDepth == old(loopDepth) && indentation == old(indentation)
      ensures r.Ok? ==> calledHelperFnNames == old(calledHelperFnNames) + HelperCallsOfStatement(r.value.0)
    {
      var d := IncreaseParsingDepth();
      if d.Err? {
        return Err(d.error);
      }
      var sp := ConsumeSpace(i);
      if sp.Err? {
        return Err(sp.error);
      }
      var c := ParseExpression(sp.value);
      if c.Err? {
        return Err(c.error);
      }
      var (condition, k) := c.value;
      assert parsingDepth == old(parsingDepth) + 1 && loopDepth == old(loopDepth) && indentation == old(indentation);
      var b := ParseStatements(k);
      if b.Err? {
        return Err(b.error);
      }
      var (ifBody, j) := b.value;
      assert parsingDepth == old(parsingDepth) + 1 && loopDepth == old(loopDepth) && indentation == old(indentation);
      var e := ParseElse(j);
      if e.Err? {
        return Err(e.error);
      }
      var (elseBody, end) := e.value;
      assert parsingDepth == old(parsingDepth) + 1 && loopDepth == old(loopDepth) && indentation == old(indentation);
      var _ := DecreaseParsingDepth();
      return Ok((IfStatement(condition, ifBody, elseBody), end));
    }

    /** The else part of `parse_if_statement`, after the if body: nothing
        unless a space follows, else ` else` and either ` if ...`, which nests
        one if statement in the else branch, or a block. */
    method ParseElse(i: nat) returns (r: Result<(seq<Statement>, nat), ParserError>)
      requires i <= |tokens|
      modifies this`parsingDepth, this`loopDepth, this`indentation, this`calledHelperFnNames
      decreases |tokens| - i, 11
      ensures r.Err? || var (elseBody, j) := r.value;
        && i < |tokens| && i <= j <= |tokens| && (j == i <==> tokens[i].kind != SpaceToken)
        && (j > i ==> tokens[j - 1].kind == CloseBraceToken)
        && StatementsOk(elseBody) && (old(loopDepth) == 0 ==> NoLooseJumps(elseBody))
      ensures r.Ok? ==> parsingDepth == old(parsingDepth) && loopDepth == old(loopDepth) && indentation == old(indentation)
      ensures r.Ok? ==> calledHelperFnNames == old(calledHelperFnNames) + HelperCallsOfStatements(r.value.0)
    {
      if i >= |tokens| {
        return Err(PeekOutOfBounds(i));
      }
      if tokens[i].kind != SpaceToken {
        return Ok(([], i));
      }
      var e := ConsumeTokenType(i + 1, ElseToken);
      if e.Err? {
        return Err(e.error);
      }
      var j: nat := e.value;
      if j >= |tokens| {
        return Err(PeekOutOfBounds(j));
      }
      var elseIf := false;
      if tokens[j].kind == SpaceToken {
        if j + 1 >= |tokens| {
          return Err(PeekOutOfBounds(j + 1));
        }
        elseIf := tokens[j + 1].kind == IfToken;
      }
      if elseIf {
        var nested := ParseIfStatement(j + 2);
        if nested.Err? {
          return Err(nested.error);
        }
        var elseBody := [nested.value.0];
        assert HelperCallsOfStatements(elseBody) == HelperCallsOfStatement(nested.value.0) by {
          assert elseBody[1..] == [];
        }
        return Ok((elseBody, nested.value.1));
      }
      r := ParseStatements(j);
    }

    /** `parse_while_statement`, from the token after `while`: a space, the
        condition and a block parsed one loop deeper. */
    method ParseWhileStatement(i: nat) returns (r: Result<(Statement, nat), ParserError>)
      requires i <= |tokens|
      modifies this`parsingDepth, this`loopDepth, this`indentation, this`calledHelperFnNames
      decreases |tokens| - i, 12
      ensures r.Err? || var (st, j) := r.value;
        && i < j <= |tokens| && st.WhileStatement? && StatementOk(st) && tokens[j - 1].kind == CloseBraceToken
      ensures r.Ok? ==> parsingDepth == old(parsingDepth) && loopDepth == old(loopDepth) && indentation == old(indentation)
      ensures r.Ok? ==> calledHelperFnNames == old(calledHelperFnNames) + HelperCallsOfStatement(r.value.0)
    {
      var d := IncreaseParsingDepth();
      if d.Err? {
        return Err(d.error);
      }
      var sp := ConsumeSpace(i);
      if sp.Err? {
        return Err(sp.error);
      }
      var c := ParseExpression(sp.value);
      if c.Err? {
        return Err(c.error);
      }
      var (condition, k) := c.value;
      assert parsingDepth == old(parsingDepth) + 1 && loopDepth == old(loopDepth) && indentation == old(indentation);
      loopDepth := loopDepth + 1;
      var b := ParseStatements(k);
      if b.Err? {
        return Err(b.error);
      }
      loopDepth := loopDepth - 1;
      assert parsingDepth == old(parsingDepth) + 1 && loopDepth == old(loopDepth) && indentation == old(indentation);
      var _ := DecreaseParsingDepth();
      return Ok((WhileStatement(condition, b.value.0), b.value.1));
    }

    /** One statement line of `parse_statements`: the indentation of the
        current depth, a statement and its newline. */
    method ParseIndentedStatement(i: nat) returns (r: Result<(Statement, nat), ParserError>)
      requires i <= |tokens|
      modifies this`parsingDepth, this`loopDepth, this`indentation, this`calledHelperFnNames
      decreases |tokens| - i, 14
      ensures r.Err? || var (st, j) := r.value;
        && i + 2 < j <= |tokens| && tokens[i].kind == IndentationToken && tokens[j - 1].kind == NewlineToken
        && StatementOk(st) && (old(loopDepth) == 0 ==> NoLooseJump(st))
      ensures r.Ok? ==> parsingDepth == old(parsingDepth) && loopDepth == old(loopDepth) && indentation == old(indentation)
      ensures r.Ok? ==> calledHelperFnNames == old(calledHelperFnNames) + HelperCallsOfStatement(r.value.0)
    {
      var ind := ConsumeIndentation(i);
      if ind.Err? {
        return Err(ind.error);
      }
      var st := ParseStatement(ind.value);
      if st.Err? {
        return Err(st.error);
      }
      var nl := ConsumeTokenType(st.value.1, NewlineToken);
      if nl.Err? {
        return Err(nl.error);
      }
      return Ok((st.value.0, nl.value));
    }

    /** The loop of `parse_statements`: lines up to the end of the block,
        each an empty line (never two in a row, never the last) or an
        indented statement. */
    method ParseBlockLines(start: nat) returns (r: Result<(seq<Statement>, nat), ParserError>)
      requires start <= |tokens|
      modifies this`parsingDepth, this`loopDepth, this`indentation, this`calledHelperFnNames
      decreases |tokens| - start, 15
      ensures r.Err? || var (body, j) := r.value;
        && start <= j < |tokens| && IsEndOfBlock(j) == Ok(true)
        && StatementsOk(body) && (old(loopDepth) == 0 ==> NoLooseJumps(body))
      ensures r.Ok? ==> parsingDepth == old(parsingDepth) && loopDepth == old(loopDepth) && indentation == old(indentation)
      ensures r.Ok? ==> calledHelperFnNames == old(calledHelperFnNames) + HelperCallsOfStatements(r.value.0)
    {
      var j: nat := start;
      var body: seq<Statement> := [];
      var seenNewline := false;
      var newlineAllowed := false;
      while true
        invariant start <= j <= |tokens|
        invariant seenNewline ==> j > start
        invariant StatementsOk(body) && (old(loopDepth) == 0 ==> NoLooseJumps(body))
        invariant parsingDepth == old(parsingDepth) && loopDepth == old(loopDepth) && indentation == old(indentation)
        invariant calledHelperFnNames == old(calledHelperFnNames) + HelperCallsOfStatements(body)
        decreases |tokens| - j
      {
        var end := IsEndOfBlock(j);
        if end.Err? {
          return Err(end.error);
        }
        if end.value {
          break;
        }
        ghost var before := body;
        if tokens[j].kind == NewlineToken {
          if !newlineAllowed {
            return Err(ErrorAt(UnexpectedEmptyLine, j));
          }
          j := j + 1;
          seenNewline := true;
          newlineAllowed := false;
          StatementsAppend(body, EmptyLineStatement);
          body := body + [EmptyLineStatement];
          HelperCallsOfStatementsAppend(before, EmptyLineStatement);
        } else {
          newlineAllowed := true;
          var st := ParseIndentedStatement(j);
          if st.Err? {
            return Err(st.error);
          }
          assert parsingDepth == old(parsingDepth) && loopDepth == old(loopDepth) && indentation == old(indentation);
          StatementsAppend(body, st.value.0);
          body := body + [st.value.0];
          HelperCallsOfStatementsAppend(before, st.value.0);
          j := st.value.1;
        }
      }
      if seenNewline && !newlineAllowed {
        return Err(ErrorAt(UnexpectedEmptyLine, j - 1));
      }
      return Ok((body, j));
    }

    /** `parse_statements`: a space, `{`, an optional newline, then one
        statement per line at one more level of indentation (or an empty
        line, never two in a row and never the last), then `}` at the
        enclosing indentation. */
    method ParseStatements(i: nat) returns (r: Result<(seq<Statement>, nat), ParserError>)
      requires i <= |tokens|
      modifies this`parsingDepth, this`loopDepth, this`indentation, this`calledHelperFnNames
      decreases |tokens| - i, 14
      ensures r.Err? || var (body, j) := r.value;
        && i + 1 < j <= |tokens| && tokens[i].kind == SpaceToken && tokens[i + 1].kind == OpenBraceToken
        && tokens[j - 1].kind == CloseBraceToken
        && StatementsOk(body) && (old(loopDepth) == 0 ==> NoLooseJumps(body))
      ensures r.Ok? ==> parsingDepth == old(parsingDepth) && loopDepth == old(loopDepth) && indentation == old(indentation)
      ensures r.Ok? ==> calledHelperFnNames == old(calledHelperFnNames) + HelperCallsOfStatements(r.value.0)
    {
      var d := IncreaseParsingDepth();
      if d.Err? {
        return Err(d.error);
      }
      var sp := ConsumeSpace(i);
      if sp.Err? {
        return Err(sp.error);
      }
      var ob := ConsumeTokenType(sp.value, OpenBraceToken);
      if ob.Err? {
        return Err(ob.error);
      }
      var j: nat := ob.value;
      if j >= |tokens| {
        return Err(PeekOutOfBounds(j));
      }
      if tokens[j].kind == NewlineToken {
        j := j + 1;
      }
      indentation := indentation + 1;
      var lines := ParseBlockLines(j);
      if lines.Err? {
        return Err(lines.error);
      }
      var body := lines.value.0;
      j := lines.value.1;
      assert parsingDepth == old(parsingDepth) + 1 && loopDepth == old(loopDepth) && indentation == old(indentation) + 1;
      var cb := CloseBlock(j);
      if cb.Err? {
        return Err(cb.error);
      }
      return Ok((body, cb.value));
    }

    /** The end of `parse_statements`: one level of indentation less, the
        indentation of the enclosing block when it is not the top level,
        `}`, and one level of nesting less. */
    method CloseBlock(j: nat) returns (r: Result<nat, ParserError>)
      requires j <= |tokens| && indentation > 0 && parsingDepth > 0
      modifies this`parsingDepth, this`indentation
      ensures r.Ok? ==> j < r.value <= |tokens| && tokens[r.value - 1].kind == CloseBraceToken
      ensures r.Ok? ==> parsingDepth == old(parsingDepth) - 1 && indentation == old(indentation) - 1
    {
      indentation := indentation - 1;
      var k := j;
      if indentation > 0 {
        var ind := ConsumeIndentation(j);
        if ind.Err? {
          return Err(ind.error);
        }
        k := ind.value;
      }
      var cb := ConsumeTokenType(k, CloseBraceToken);
      if cb.Err? {
        return Err(cb.error);
      }
      var _ := DecreaseParsingDepth();
      return Ok(cb.value);
    }

    // -------------------------------------------------------------------------
    // Functions and globals
    // -------------------------------------------------------------------------

    /** One `name: type` of `parse_arguments`, from its name token: a colon,
        a space and a type word that is not `resource` or `entity`. */
    function ParamAt(k: nat): (r: Result<Argument, ParserError>)
      ensures r.Ok? ==> (
        && k + 4 <= |tokens| && r.value.name == tokens[k].value
        && tokens[k + 1].kind == ColonToken && tokens[k + 2].kind == SpaceToken
        && tokens[k + 3].kind == WordToken && r.value.typeName == tokens[k + 3].value
        && r.value.ty == ParseType(r.value.typeName) && !ForbiddenVariableType(r.value.ty))
      ensures (
        && k + 4 <= |tokens| && tokens[k + 1].kind == ColonToken && tokens[k + 2].kind == SpaceToken
        && tokens[k + 3].kind == WordToken && ForbiddenVariableType(ParseType(tokens[k + 3].value)))
        ==> r == Err(ParserError(ForbiddenArgumentType(tokens[k].value, ParseType(tokens[k + 3].value)), None))
    {
      if k >= |tokens| then Err(PeekOutOfBounds(k))
      else
        var _ :- ConsumeTokenType(k + 1, ColonToken);
        var _ :- ConsumeSpace(k + 2);
        var _ :- ConsumeTokenType(k + 3, WordToken);
        var ty := ParseType(tokens[k + 3].value);
        if ForbiddenVariableType(ty) then Err(ParserError(ForbiddenArgumentType(tokens[k].value, ty), None))
        else Ok(Argument(tokens[k].value, ty, tokens[k + 3].value, None, None))
    }

    /** One `, name: type` of `parse_arguments`, from its comma. */
    method ParseNextParam(j: nat) returns (r: Result<Argument, ParserError>)
      requires j < |tokens| && tokens[j].kind == CommaToken
      ensures r.Ok? ==> (
        && ParamTokensAt(tokens, j + 2, r.value) && tokens[j + 1].kind == SpaceToken
        && r.value.ty == ParseType(r.value.typeName) && !ForbiddenVariableType(r.value.ty))
    {
      var sp := ConsumeSpace(j + 1);
      if sp.Err? {
        return Err(sp.error);
      }
      var w := ConsumeTokenType(j + 2, WordToken);
      if w.Err? {
        return Err(w.error);
      }
      r := ParamAt(j + 2);
    }

    /** `parse_arguments`: the first `name: type`, then `, name: type` while a
        comma follows.  The first name is not checked to be a word; the callers
        only get here when it is one. */
    method ParseArguments(i: nat) returns (r: Result<(seq<Argument>, nat), ParserError>)
      ensures r.Err? || var (params, j) := r.value;
        && i < j < |tokens| && |params| > 0 && params[0].name == tokens[i].value
        && ArgumentsOk(params) && tokens[j].kind != CommaToken
        && (tokens[i].kind == WordToken ==> Shaped(tokens[i..j], RenderParams(params)))
    {
      var first := ParamAt(i);
      if first.Err? {
        return Err(first.error);
      }
      var params := [first.value];
      var j: nat := i + 4;
      if tokens[i].kind == WordToken {
        ShapedFirstParam(tokens, i, first.value);
      }
      while true
        invariant i < j <= |tokens| && |params| > 0 && params[0].name == tokens[i].value
        invariant ArgumentsOk(params)
        invariant tokens[i].kind == WordToken ==> Shaped(tokens[i..j], RenderParams(params))
        decreases |tokens| - j
      {
        if j >= |tokens| {
          return Err(PeekOutOfBounds(j));
        }
        if tokens[j].kind != CommaToken {
          break;
        }
        var next := ParseListedParam(i, j, params);
        if next.Err? {
          return Err(next.error);
        }
        params, j := params + [next.value], j + 6;
      }
      return Ok((params, j));
    }

    /** One pass of the loop of `parse_arguments`: `, name: type` after the
        parameters read so far from `i`, which still meet the rules and keep
        the layout once it is appended. */
    method ParseListedParam(i: nat, j: nat, params: seq<Argument>) returns (r: Result<Argument, ParserError>)
      requires i < j < |tokens| && params != [] && tokens[j].kind == CommaToken
      requires ArgumentsOk(params)
      requires tokens[i].kind == WordToken ==> Shaped(tokens[i..j], RenderParams(params))
      ensures r.Err? || (j + 6 <= |tokens| && ArgumentsOk(params + [r.value])
        && (tokens[i].kind == WordToken ==> Shaped(tokens[i..j + 6], RenderParams(params + [r.value]))))
    {
      var next := ParseNextParam(j);
      if next.Err? {
        return Err(next.error);
      }
      var grown := params + [next.value];
      assert grown[|params|] == next.value;
      if tokens[i].kind == WordToken {
        ShapedNextParam(tokens, i, j, params, next.value);
      }
      return Ok(next.value);
    }

    /** The parameter list of `parse_helper_fn` and `parse_on_fn`: `(`, the
        parameters when a word follows, and `)`. */
    method ParseParameterList(i: nat) returns (r: Result<(seq<Argument>, nat), ParserError>)
      ensures r.Err? || var (params, j) := r.value;
        && i + 2 <= j <= |tokens| && tokens[i].kind == OpenParenthesisToken
        && tokens[j - 1].kind == CloseParenthesisToken && ArgumentsOk(params)
        && (params == [] <==> j == i + 2)
    {
      var o := ConsumeTokenType(i, OpenParenthesisToken);
      if o.Err? {
        return Err(o.error);
      }
      var j: nat := o.value;
      if j >= |tokens| {
        return Err(PeekOutOfBounds(j));
      }
      var params: seq<Argument> := [];
      if tokens[j].kind == WordToken {
        var a := ParseArguments(j);
        if a.Err? {
          return Err(a.error);
        }
        params, j := a.value.0, a.value.1;
      }
      var c := ConsumeTokenType(j, CloseParenthesisToken);
      if c.Err? {
        return Err(c.error);
      }
      return Ok((params, c.value));
    }

    /** The part of `parse_helper_fn` before the body: the check that an
        earlier item calls the function, its parameters and its return type. */
    method ParseHelperFnHeader(i: nat) returns (r: Result<(seq<Argument>, Option<Type>, Option<string>, nat), ParserError>)
      ensures r.Err? || var (params, rt, rtn, j) := r.value;
        && i < j <= |tokens| && tokens[i].value in calledHelperFnNames && ArgumentsOk(params)
        && rt.Some? == rtn.Some?
        && (rt.Some? ==> rt.value == ParseType(rtn.value) && !ForbiddenVariableType(rt.value))
      ensures i < |tokens| && tokens[i].value !in calledHelperFnNames ==>
        r == Err(ParserError(HelperDefinedBeforeCalled(tokens[i].value), None))
    {
      if i >= |tokens| {
        return Err(PeekOutOfBounds(i));
      }
      var name := tokens[i].value;
      if name !in calledHelperFnNames {
        return Err(ParserError(HelperDefinedBeforeCalled(name), None));
      }
      var pl := ParseParameterList(i + 1);
      if pl.Err? {
        return Err(pl.error);
      }
      var rt := HelperReturnType(name, pl.value.1);
      if rt.Err? {
        return Err(rt.error);
      }
      var (returnType, returnTypeName, j) := rt.value;
      return Ok((pl.value.0, returnType, returnTypeName, j));
    }

    /** `parse_helper_fn`: a `helper_` function that an earlier item calls,
        its parameters, an optional return type that is not `resource` or
        `entity`, and a body at indentation 0 with code in it.  The function
        is appended to the AST. */
    method ParseHelperFn(i: nat) returns (r: Result<(HelperFn, nat), ParserError>)
      modifies this`ast, this`parsingDepth, this`loopDepth, this`indentation, this`calledHelperFnNames
      ensures r.Err? || var (f, j) := r.value;
        && i < j <= |tokens| && tokens[j - 1].kind == CloseBraceToken
        && f.fnName == tokens[i].value && f.fnName in old(calledHelperFnNames)
        && (old(loopDepth) == 0 ==> ItemOk(HelperFnItem(f)))
        && ArgumentsOk(f.arguments) && StatementsOk(f.body) && HasCode(f.body)
      ensures r.Ok? ==> ast == old(ast) + [HelperFnItem(r.value.0)]
      ensures r.Ok? ==> parsingDepth == old(parsingDepth) && loopDepth == old(loopDepth) && indentation == 0
      ensures r.Ok? ==> calledHelperFnNames == old(calledHelperFnNames) + HelperCallsOfStatements(r.value.0.body)
      ensures i < |tokens| && tokens[i].value !in old(calledHelperFnNames) ==>
        r == Err(ParserError(HelperDefinedBeforeCalled(tokens[i].value), None))
    {
      ghost var depth0, loops0 := parsingDepth, loopDepth;
      var header := ParseHelperFnHeader(i);
      if header.Err? {
        return Err(header.error);
      }
      var (params, returnType, returnTypeName, j) := header.value;
      var name := tokens[i].value;
      indentation := 0;
      var b := ParseStatements(j);
      if b.Err? {
        return Err(b.error);
      }
      var (body, end) := b.value;
      assert parsingDepth == depth0 && loopDepth == loops0 && indentation == 0;
      if !HasCode(body) {
        return Err(ParserError(EmptyFn(name), None));
      }
      var f := HelperFn(name, params, returnType, returnTypeName, body);
      if loops0 == 0 {
        HelperFnItemOk(f);
      }
      ast := ast + [HelperFnItem(f)];
      return Ok((f, end));
    }

    /** The optional return type of `parse_helper_fn`, from the token after
        the `)`: that token must be a space; a word after it is the return
        type, which may be neither `resource` nor `entity`. */
    function HelperReturnType(name: string, j: nat): (r: Result<(Option<Type>, Option<string>, nat), ParserError>)
      ensures r.Err? || var (rt, rtn, k) := r.value;
        && j + 1 < |tokens| && tokens[j].kind == SpaceToken && k <= |tokens|
        && rt.Some? == rtn.Some? && (rt.Some? <==> tokens[j + 1].kind == WordToken)
        && (rt.Some? ==> k == j + 2 && rtn.value == tokens[j + 1].value
                         && rt.value == ParseType(rtn.value) && !ForbiddenVariableType(rt.value))
        && (rt.None? ==> k == j)
      ensures (j + 1 < |tokens| && tokens[j].kind == SpaceToken && tokens[j + 1].kind == WordToken
               && ForbiddenVariableType(ParseType(tokens[j + 1].value))) ==>
        r == Err(ParserError(ForbiddenReturnType(name, ParseType(tokens[j + 1].value)), None))
    {
      var _ :- ConsumeTokenType(j, SpaceToken);
      if j + 1 >= |tokens| then Err(PeekOutOfBounds(j + 1))
      else if tokens[j + 1].kind == WordToken then
        var ty := ParseType(tokens[j + 1].value);
        if ForbiddenVariableType(ty) then Err(ParserError(ForbiddenReturnType(name, ty), None))
        else Ok((Some(ty), Some(tokens[j + 1].value), j + 2))
      else Ok((None, None, j))
    }

    /** `parse_on_fn`: an `on_` function, its parameters and a body with code
        in it.  The function is appended to the AST. */
    method ParseOnFn(i: nat) returns (r: Result<(OnFn, nat), ParserError>)
      modifies this`ast, this`parsingDepth, this`loopDepth, this`indentation, this`calledHelperFnNames
      ensures r.Err? || var (f, j) := r.value;
        && i < j <= |tokens| && tokens[j - 1].kind == CloseBraceToken
        && f.fnName == tokens[i].value
        && (old(loopDepth) == 0 ==> ItemOk(OnFnItem(f)))
        && ArgumentsOk(f.arguments) && StatementsOk(f.body) && HasCode(f.body)
      ensures r.Ok? ==> ast == old(ast) + [OnFnItem(r.value.0)]
      ensures r.Ok? ==> parsingDepth == old(parsingDepth) && loopDepth == old(loopDepth) && indentation == old(indentation)
      ensures r.Ok? ==> calledHelperFnNames == old(calledHelperFnNames) + HelperCallsOfStatements(r.value.0.body)
    {
      if i >= |tokens| {
        return Err(PeekOutOfBounds(i));
      }
      var name := tokens[i].value;
      var pl := ParseParameterList(i + 1);
      if pl.Err? {
        return Err(pl.error);
      }
      var (params, j) := pl.value;
      var b := ParseStatements(j);
      if b.Err? {
        return Err(b.error);
      }
      var (body, end) := b.value;
      assert parsingDepth == old(parsingDepth) && loopDepth == old(loopDepth) && indentation == old(indentation);
      if !HasCode(body) {
        return Err(ParserError(EmptyFn(name), None));
      }
      var f := OnFn(name, params, body);
      if old(loopDepth) == 0 {
        OnFnItemOk(f);
      }
      ast := ast + [OnFnItem(f)];
      return Ok((f, end));
    }

    /** `parse_global_variable`: `name: type = expr`, where the name is not
        `me` and the type is not `resource` or `entity`. */
    method ParseGlobalVariable(i: nat) returns (r: Result<(Statement, nat), ParserError>)
      modifies this`parsingDepth, this`calledHelperFnNames
      ensures r.Err? || var (g, j) := r.value;
        && i + 6 < j <= |tokens| && ItemOk(GlobalItem(g)) && g.name == tokens[i].value
        && g.typeName == Some(tokens[i + 3].value)
      ensures r.Ok? ==> parsingDepth == old(parsingDepth)
      ensures r.Ok? ==> calledHelperFnNames == old(calledHelperFnNames) + HelperCallsOfStatement(r.value.0)
      ensures i < |tokens| && tokens[i].value == "me" ==> r == Err(ParserError(GlobalNamedMe, None))
    {
      if i >= |tokens| {
        return Err(PeekOutOfBounds(i));
      }
      var name := tokens[i].value;
      if name == "me" {
        return Err(ParserError(GlobalNamedMe, None));
      }
      var c := ConsumeTokenType(i + 1, ColonToken);
      if c.Err? {
        return Err(c.error);
      }
      var sp := ConsumeSpace(i + 2);
      if sp.Err? {
        return Err(sp.error);
      }
      if i + 3 >= |tokens| {
        return Err(PeekOutOfBounds(i + 3));
      }
      if tokens[i + 3].kind != WordToken {
        return Err(ErrorAt(ExpectedTypeWord, i));
      }
      var typeName := tokens[i + 3].value;
      var ty := ParseType(typeName);
      if ForbiddenVariableType(ty) {
        return Err(ParserError(ForbiddenGlobalType(name, ty), None));
      }
      if i + 4 >= |tokens| {
        return Err(PeekOutOfBounds(i + 4));
      }
      if tokens[i + 4].kind != SpaceToken {
        return Err(ErrorAt(GlobalNotAssigned(name), i));
      }
      // the space was just peeked, so consuming it cannot fail
      var _ := ConsumeSpace(i + 4);
      var a := ConsumeTokenType(i + 5, AssignmentToken);
      if a.Err? {
        return Err(a.error);
      }
      var sp2 := ConsumeSpace(i + 6);
      if sp2.Err? {
        return Err(sp2.error);
      }
      var e := ParseExpression(i + 7);
      if e.Err? {
        return Err(e.error);
      }
      return Ok((VariableStatement(name, Some(ty), Some(typeName), e.value.0), e.value.1));
    }

    // -------------------------------------------------------------------------
    // The file
    // -------------------------------------------------------------------------

    /** Appends a parsed global to the AST; the file read so far still
        meets the rules of `parse`. */
    method RegisterGlobal(g: Statement, ghost calledBefore: set<string>, flags: TopLevelFlags)
      requires Progress(ast, onFns, helperFns, calledBefore, flags)
      requires !flags.seenOnFn && (flags.newlineRequired ==> flags.justSeenGlobal) && ItemOk(GlobalItem(g))
      requires calledHelperFnNames == calledBefore + HelperCallsOfStatement(g)
      modifies this`ast
      ensures ast == old(ast) + [GlobalItem(g)]
      ensures Progress(ast, onFns, helperFns, calledHelperFnNames,
        flags.(newlineAllowed := true, newlineRequired := true, justSeenGlobal := true))
    {
      AddGlobal(ast, onFns, helperFns, calledBefore, flags, g);
      ast := ast + [GlobalItem(g)];
    }

    /** The global branch of `parse`, from the global's name to past the
        newline after it. */
    method ParseGlobalItem(i: nat, flags: TopLevelFlags) returns (r: Result<(nat, TopLevelFlags), ParserError>)
      requires Progress(ast, onFns, helperFns, calledHelperFnNames, flags)
      requires parsingDepth == 0
      modifies this`ast, this`parsingDepth, this`calledHelperFnNames
      ensures r.Err? || (i < r.value.0 <= |tokens| && parsingDepth == 0
        && Progress(ast, onFns, helperFns, calledHelperFnNames, r.value.1))
      ensures r.Ok? ==> r.value.1.seenNewline == flags.seenNewline && r.value.1.newlineAllowed
      ensures flags.seenOnFn && i < |tokens| ==> r == Err(ParserError(GlobalAfterOnFn(tokens[i].value), None))
    {
      ghost var calledBefore := calledHelperFnNames;
      if i >= |tokens| {
        return Err(PeekOutOfBounds(i));
      }
      if flags.seenOnFn {
        return Err(ParserError(GlobalAfterOnFn(tokens[i].value), None));
      }
      if flags.newlineRequired && !flags.justSeenGlobal {
        return Err(ErrorAt(ExpectedEmptyLine, i));
      }
      var g := ParseGlobalVariable(i);
      if g.Err? {
        return Err(g.error);
      }
      var (global, j) := g.value;
      RegisterGlobal(global, calledBefore, flags);
      var nl := ConsumeTokenType(j, NewlineToken);
      if nl.Err? {
        return Err(nl.error);
      }
      return Ok((nl.value, flags.(newlineAllowed := true, newlineRequired := true, justSeenGlobal := true)));
    }

    /** Records a parsed on_ function in `on_fns`; the file read so far
        still meets the rules of `parse`. The ghost
        parameters are the parser's state before the function was parsed
        (`== true` keeps the verifier from unfolding `Progress` at the call). */
    method RegisterOnFn(f: OnFn, ghost before: seq<AstItem>, ghost onBefore: map<string, OnFn>,
                          ghost helperBefore: map<string, HelperFn>, ghost calledBefore: set<string>, flags: TopLevelFlags)
      requires Progress(before, onBefore, helperBefore, calledBefore, flags) == true
      requires onFns == onBefore && helperFns == helperBefore
      requires helperFns == map[] && !flags.newlineRequired && f.fnName !in onFns
      requires ItemOk(OnFnItem(f)) == true
      requires ast == before + [OnFnItem(f)]
      requires calledHelperFnNames == calledBefore + HelperCallsOfStatements(f.body)
      modifies this`onFns
      ensures onFns == old(onFns)[f.fnName := f]
      ensures Progress(ast, onFns, helperFns, calledHelperFnNames,
        flags.(seenOnFn := true, newlineAllowed := true, newlineRequired := true, justSeenGlobal := false))
    {
      AddOnFn(before, onBefore, helperBefore, calledBefore, flags, f);
      onFns := onFns[f.fnName := f];
    }

    /** Records a parsed helper_ function in `helper_fns`; the file read so
        far still meets the rules of `parse`. The ghost
        parameters are the parser's state before the function was parsed
        (`== true` keeps the verifier from unfolding `Progress` at the call). */
    method RegisterHelperFn(f: HelperFn, ghost before: seq<AstItem>, ghost onBefore: map<string, OnFn>,
                          ghost helperBefore: map<string, HelperFn>, ghost calledBefore: set<string>, flags: TopLevelFlags)
      requires Progress(before, onBefore, helperBefore, calledBefore, flags) == true
      requires onFns == onBefore && helperFns == helperBefore
      requires !flags.newlineRequired && f.fnName !in helperFns && f.fnName in calledBefore
      requires ItemOk(HelperFnItem(f)) == true
      requires ast == before + [HelperFnItem(f)]
      requires calledHelperFnNames == calledBefore + HelperCallsOfStatements(f.body)
      modifies this`helperFns
      ensures helperFns == old(helperFns)[f.fnName := f]
      ensures Progress(ast, onFns, helperFns, calledHelperFnNames,
        flags.(newlineAllowed := true, newlineRequired := true, justSeenGlobal := false))
    {
      AddHelperFn(before, onBefore, helperBefore, calledBefore, flags, f);
      helperFns := helperFns[f.fnName := f];
    }

    /** The on_ branch of `parse`, from the function's name to past the
        newline after its closing brace. */
    method ParseOnFnItem(i: nat, flags: TopLevelFlags) returns (r: Result<(nat, TopLevelFlags), ParserError>)
      requires Progress(ast, onFns, helperFns, calledHelperFnNames, flags)
      requires parsingDepth == 0 && loopDepth == 0 && indentation == 0
      modifies this`ast, this`onFns, this`parsingDepth, this`loopDepth, this`indentation, this`calledHelperFnNames
      ensures r.Err? || (i < r.value.0 <= |tokens| && parsingDepth == 0 && loopDepth == 0 && indentation == 0
        && Progress(ast, onFns, helperFns, calledHelperFnNames, r.value.1))
      ensures r.Ok? ==> r.value.1.seenNewline == flags.seenNewline && r.value.1.newlineAllowed
      ensures helperFns != map[] && i < |tokens| ==> r == Err(ParserError(OnFnAfterHelperFn(tokens[i].value), None))
    {
      if i >= |tokens| {
        return Err(PeekOutOfBounds(i));
      }
      if helperFns != map[] {
        return Err(ParserError(OnFnAfterHelperFn(tokens[i].value), None));
      }
      if flags.newlineRequired {
        return Err(ErrorAt(ExpectedEmptyLine, i));
      }
      r := ParseOnFnDeclaration(i, flags);
    }

    /** The on_ branch of `parse` once its position checks have passed: the
        function, which must not be a duplicate, and the newline after it. */
    method ParseOnFnDeclaration(i: nat, flags: TopLevelFlags) returns (r: Result<(nat, TopLevelFlags), ParserError>)
      requires Progress(ast, onFns, helperFns, calledHelperFnNames, flags)
      requires parsingDepth == 0 && loopDepth == 0 && indentation == 0
      requires helperFns == map[] && !flags.newlineRequired
      modifies this`ast, this`onFns, this`parsingDepth, this`loopDepth, this`indentation, this`calledHelperFnNames
      ensures r.Err? || (i < r.value.0 <= |tokens| && parsingDepth == 0 && loopDepth == 0 && indentation == 0
        && Progress(ast, onFns, helperFns, calledHelperFnNames, r.value.1))
      ensures r.Ok? ==> r.value.1.seenNewline == flags.seenNewline && r.value.1.newlineAllowed
    {
      ghost var before, onBefore, helperBefore, calledBefore := ast, onFns, helperFns, calledHelperFnNames;
      var o := ParseOnFn(i);
      if o.Err? {
        return Err(o.error);
      }
      var (f, j) := o.value;
      r := FinishOnFnItem(f, j, before, onBefore, helperBefore, calledBefore, flags);
    }

    /** The rest of the on_ branch of `parse` once the function is parsed:
        the duplicate check, the entry in `on_fns` and the newline. */
    method FinishOnFnItem(f: OnFn, j: nat, ghost before: seq<AstItem>, ghost onBefore: map<string, OnFn>,
                          ghost helperBefore: map<string, HelperFn>, ghost calledBefore: set<string>, flags: TopLevelFlags)
      returns (r: Result<(nat, TopLevelFlags), ParserError>)
      requires j <= |tokens|
      requires Progress(before, onBefore, helperBefore, calledBefore, flags) == true
      requires onFns == onBefore && helperFns == helperBefore
      requires helperFns == map[] && !flags.newlineRequired
      requires ItemOk(OnFnItem(f)) == true
      requires ast == before + [OnFnItem(f)]
      requires calledHelperFnNames == calledBefore + HelperCallsOfStatements(f.body)
      modifies this`onFns
      ensures f.fnName in old(onFns) ==> r == Err(ParserError(DuplicateFn(f.fnName), None))
      ensures r.Err? || (j < r.value.0 <= |tokens| && Progress(ast, onFns, helperFns, calledHelperFnNames, r.value.1))
      ensures r.Ok? ==> onFns == old(onFns)[f.fnName := f]
      ensures r.Ok? ==> r.value.1 == flags.(seenOnFn := true, newlineAllowed := true, newlineRequired := true, justSeenGlobal := false)
    {
      if f.fnName in onFns {
        return Err(ParserError(DuplicateFn(f.fnName), None));
      }
      RegisterOnFn(f, before, onBefore, helperBefore, calledBefore, flags);
      var nl := ConsumeTokenType(j, NewlineToken);
      if nl.Err? {
        return Err(nl.error);
      }
      return Ok((nl.value, flags.(seenOnFn := true, newlineAllowed := true, newlineRequired := true, justSeenGlobal := false)));
    }

    /** The helper_ branch of `parse`, from the function's name to past the
        newline after its closing brace. */
    method ParseHelperFnItem(i: nat, flags: TopLevelFlags) returns (r: Result<(nat, TopLevelFlags), ParserError>)
      requires Progress(ast, onFns, helperFns, calledHelperFnNames, flags)
      requires parsingDepth == 0 && loopDepth == 0
      modifies this`ast, this`helperFns, this`parsingDepth, this`loopDepth, this`indentation, this`calledHelperFnNames
      ensures r.Err? || (i < r.value.0 <= |tokens| && parsingDepth == 0 && loopDepth == 0 && indentation == 0
        && Progress(ast, onFns, helperFns, calledHelperFnNames, r.value.1))
      ensures r.Ok? ==> r.value.1.seenNewline == flags.seenNewline && r.value.1.newlineAllowed
    {
      if flags.newlineRequired {
        return Err(ErrorAt(ExpectedEmptyLine, i));
      }
      r := ParseHelperFnDeclaration(i, flags);
    }

    /** The helper_ branch of `parse` once its position check has passed:
        the function, which must not be a duplicate, and the newline after
        it. */
    method ParseHelperFnDeclaration(i: nat, flags: TopLevelFlags) returns (r: Result<(nat, TopLevelFlags), ParserError>)
      requires Progress(ast, onFns, helperFns, calledHelperFnNames, flags)
      requires parsingDepth == 0 && loopDepth == 0 && !flags.newlineRequired
      modifies this`ast, this`helperFns, this`parsingDepth, this`loopDepth, this`indentation, this`calledHelperFnNames
      ensures r.Err? || (i < r.value.0 <= |tokens| && parsingDepth == 0 && loopDepth == 0 && indentation == 0
        && Progress(ast, onFns, helperFns, calledHelperFnNames, r.value.1))
      ensures r.Ok? ==> r.value.1.seenNewline == flags.seenNewline && r.value.1.newlineAllowed
    {
      ghost var before, onBefore, helperBefore, calledBefore := ast, onFns, helperFns, calledHelperFnNames;
      var h := ParseHelperFn(i);
      if h.Err? {
        return Err(h.error);
      }
      var (f, j) := h.value;
      r := FinishHelperFnItem(f, j, before, onBefore, helperBefore, calledBefore, flags);
    }

    /** The rest of the helper_ branch of `parse` once the function is
        parsed: the duplicate check, the entry in `helper_fns` and the
        newline. */
    method FinishHelperFnItem(f: HelperFn, j: nat, ghost before: seq<AstItem>, ghost onBefore: map<string, OnFn>,
                              ghost helperBefore: map<string, HelperFn>, ghost calledBefore: set<string>,
                              flags: TopLevelFlags)
      returns (r: Result<(nat, TopLevelFlags), ParserError>)
      requires j <= |tokens|
      requires Progress(before, onBefore, helperBefore, calledBefore, flags) == true
      requires onFns == onBefore && helperFns == helperBefore
      requires !flags.newlineRequired && f.fnName in calledBefore
      requires ItemOk(HelperFnItem(f)) == true
      requires ast == before + [HelperFnItem(f)]
      requires calledHelperFnNames == calledBefore + HelperCallsOfStatements(f.body)
      modifies this`helperFns
      ensures f.fnName in old(helperFns) ==> r == Err(ParserError(DuplicateFn(f.fnName), None))
      ensures r.Err? || (j < r.value.0 <= |tokens| && Progress(ast, onFns, helperFns, calledHelperFnNames, r.value.1))
      ensures r.Ok? ==> helperFns == old(helperFns)[f.fnName := f]
      ensures r.Ok? ==> r.value.1 == flags.(newlineAllowed := true, newlineRequired := true, justSeenGlobal := false)
    {
      if f.fnName in helperFns {
        return Err(ParserError(DuplicateFn(f.fnName), None));
      }
      RegisterHelperFn(f, before, onBefore, helperBefore, calledBefore, flags);
      var nl := ConsumeTokenType(j, NewlineToken);
      if nl.Err? {
        return Err(nl.error);
      }
      return Ok((nl.value, flags.(newlineAllowed := true, newlineRequired := true, justSeenGlobal := false)));
    }

    /** The empty-line branch of `parse`. */
    method ParseEmptyLineItem(i: nat, flags: TopLevelFlags) returns (r: Result<(nat, TopLevelFlags), ParserError>)
      requires i < |tokens| && tokens[i].kind == NewlineToken
      requires Progress(ast, onFns, helperFns, calledHelperFnNames, flags)
      modifies this`ast
      ensures r.Err? || (i < r.value.0 <= |tokens| && Progress(ast, onFns, helperFns, calledHelperFnNames, r.value.1))
      ensures r.Ok? ==> r.value.1.seenNewline && !r.value.1.newlineAllowed
      ensures r.Err? <==> !flags.newlineAllowed
      ensures r.Err? ==> r.error == ErrorAt(UnexpectedEmptyLine, i)
    {
      ghost var before := ast;
      if !flags.newlineAllowed {
        return Err(ErrorAt(UnexpectedEmptyLine, i));
      }
      AddEmptyLine(before, onFns, helperFns, calledHelperFnNames, flags);
      ast := ast + [EmptyLineItem];
      return Ok((i + 1, flags.(seenNewline := true, newlineAllowed := false, newlineRequired := false,
                               justSeenGlobal := false)));
    }

    /** The comment branch of `parse`: the comment and the newline after it. */
    method ParseCommentItem(i: nat, flags: TopLevelFlags) returns (r: Result<(nat, TopLevelFlags), ParserError>)
      requires i < |tokens| && tokens[i].kind == CommentToken
      requires Progress(ast, onFns, helperFns, calledHelperFnNames, flags)
      modifies this`ast
      ensures r.Err? || (i < r.value.0 <= |tokens| && Progress(ast, onFns, helperFns, calledHelperFnNames, r.value.1))
      ensures r.Ok? ==> r.value.1.seenNewline == flags.seenNewline && r.value.1.newlineAllowed
    {
      ghost var before := ast;
      AddComment(before, onFns, helperFns, calledHelperFnNames, flags, tokens[i].value);
      ast := ast + [CommentItem(tokens[i].value)];
      var nl := ConsumeTokenType(i + 1, NewlineToken);
      if nl.Err? {
        return Err(nl.error);
      }
      return Ok((nl.value, flags.(newlineAllowed := true)));
    }

    /** One pass of `parse`'s loop: the item the token at `i` starts is
        chosen by the token and the one after it, exactly as `parse` tests
        them; any other token is unexpected. */
    method ParseItem(i: nat, flags: TopLevelFlags) returns (r: Result<(nat, TopLevelFlags), ParserError>)
      requires i < |tokens|
      requires Progress(ast, onFns, helperFns, calledHelperFnNames, flags)
      requires parsingDepth == 0 && loopDepth == 0 && indentation == 0
      modifies this`ast, this`onFns, this`helperFns, this`parsingDepth, this`loopDepth, this`indentation,
        this`calledHelperFnNames
      ensures r.Err? || (i < r.value.0 <= |tokens| && parsingDepth == 0 && loopDepth == 0 && indentation == 0
        && Progress(ast, onFns, helperFns, calledHelperFnNames, r.value.1))
      ensures tokens[i].kind == NewlineToken && !flags.newlineAllowed ==> r == Err(ErrorAt(UnexpectedEmptyLine, i))
      ensures !(tokens[i].kind in {WordToken, NewlineToken, CommentToken})
        ==> r == Err(ErrorAt(UnexpectedToken(tokens[i].value), i))
    {
      var token := tokens[i];
      if token.kind == WordToken && i + 1 < |tokens| && tokens[i + 1].kind == ColonToken {
        r := ParseGlobalItem(i, flags);
      } else if token.kind == WordToken && StartsWith(token.value, "on_")
        && i + 1 < |tokens| && tokens[i + 1].kind == OpenParenthesisToken
      {
        r := ParseOnFnItem(i, flags);
      } else if token.kind == WordToken && StartsWith(token.value, "helper_")
        && i + 1 < |tokens| && tokens[i + 1].kind == OpenParenthesisToken
      {
        r := ParseHelperFnItem(i, flags);
      } else if token.kind == NewlineToken {
        r := ParseEmptyLineItem(i, flags);
      } else if token.kind == CommentToken {
        r := ParseCommentItem(i, flags);
      } else {
        r := Err(ErrorAt(UnexpectedToken(token.value), i));
      }
    }

    /** `parse`: the file's globals, on_ functions, helper_ functions, empty
        lines and comments, in order, each declaration and comment followed
        by a newline.  A file it accepts meets every rule of `FileOk`, and
        the function tables index the AST's functions. */
    method Parse() returns (r: Result<seq<AstItem>, ParserError>)
      requires ast == [] && helperFns == map[] && onFns == map[] && calledHelperFnNames == {}
      requires parsingDepth == 0 && loopDepth == 0 && indentation == 0
      modifies this
      ensures r.Ok? ==> r.value == ast && FileOk(ast)
      ensures r.Ok? ==> onFns == OnFnTable(ast) && helperFns == HelperFnTable(ast)
      ensures r.Ok? ==> calledHelperFnNames == HelperCallsOfItems(ast)
      ensures tokens == [] ==> r == Ok([])
      ensures tokens != [] && tokens[0].kind == NewlineToken ==> r == Err(ErrorAt(UnexpectedEmptyLine, 0))
    {
      var flags := START_FLAGS;
      var i := 0;
      ProgressStart();
      while i < |tokens|
        invariant i <= |tokens|
        invariant Progress(ast, onFns, helperFns, calledHelperFnNames, flags)
        invariant parsingDepth == 0 && loopDepth == 0 && indentation == 0
        invariant flags.seenNewline ==> i > 0
        invariant i == 0 ==> !flags.newlineAllowed && ast == []
        invariant i > 0 ==> tokens[0].kind != NewlineToken
        decreases |tokens| - i
      {
        var step := ParseItem(i, flags);
        if step.Err? {
          return Err(step.error);
        }
        i, flags := step.value.0, step.value.1;
      }
      if flags.seenNewline && !flags.newlineAllowed {
        return Err(ErrorAt(UnexpectedEmptyLine, |tokens| - 1));
      }
      ProgressEnd(ast, onFns, helperFns, calledHelperFnNames, flags);
      return Ok(ast);
    }
  }
}
