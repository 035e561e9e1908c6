# grug in Dafny

This project models the core of grug-for-python. grug is a small scripting
language for game mods. A mod is a tree of `.grug` files. Each file
belongs to one entity type, which is named in the file name
(`furnace-BlockEntity.grug`). The file declares global variables, `on_`
functions that the game calls, and `helper_` functions that those
functions call. The Python implementation runs a file through four
stages, and each one is modelled here:

- **Tokenizer** (`tokenizer.dfy`, `tokenizer_props.dfy`). The tokenizer
  is a spec function `TokenizeFrom` that repeats one scanning step
  `Scan`. The imperative `Tokenizer.Tokenize` loop is proved equal to it.
  The lemmas prove several facts:
  - Gluing the tokens back together gives the source text again (a
    round trip).
  - Every token is well formed.
  - A keyword is recognised only when the whole word matches.
  - Each scanning rule (spaces, indentation, strings, numbers, comments,
    two-character operators) behaves as the Python branches do,
    including their error cases.
- **Parser** (`ast.dfy`, `parser.dfy`). The parser is a class `Parser`
  with the same fields as the Python one: `ast`, `on_fns`,
  `helper_fns`, the depth counters and `called_helper_fn_names`.
  - Every `parse_*` method is a method that takes a token index and
    returns the index after what it consumed. Python shares a
    one-element list as a cursor for this.
  - Expressions are proved to be *shaped* like the tokens they came
    from, and to respect operator precedence.
  - The top-level loop keeps an invariant `Progress` that holds for the
    file so far:
    - globals come before `on_` functions, which come before `helper_`
      functions;
    - function names are distinct;
    - every helper function is called before it is defined;
    - empty lines are single.

    At the end of the loop the file is well formed.
- **Type propagator** (`type_rules.dfy`, `type_propagator.dfy`). The
  typing rules are pure functions (`FilledExpr`, `FilledStatement`,
  `FilledHelperFn`, `FilledOnFn`, `FilledGlobal`, …). The class
  `TypePropagator` holds the same local and global variable tables as
  the Python one, and its methods are proved to compute exactly those
  functions. Creating one fails with a `KeyError` when the mod API does
  not declare the file's entity type. The lemmas prove several facts:
  - Shadowing is refused.
  - Argument lists are checked against parameter lists: missing and
    extra arguments, names and types.
  - `on_` functions must be declared by the entity, in the entity's
    order, with its signature.
  - A block's local variables disappear at its end.
  - Globals never call helpers.
  - Entity and resource strings are validated.
- **Runtime** (`grug_value.dfy`, `grug_state.dfy`, `grug_package.dfy`,
  `grug_stdlib.dfy`, `entity.dfy`).
  - `GrugState` compiles a file path into a `GrugFile`. It takes the mod
    from the path and validates the entity type taken from the file name.
    The `GrugFile` holds the mod, the path, and the global, `on_` and
    helper tables of the AST. The state also keeps the table of game
    functions.
  - `GrugPackage` models a package of game functions together with its
    prefix rule.
  - The standard library's list functions work on a `GrugList` class
    that is updated in place.
  - The interpreter is a set of spec functions (`EvalExpr`, `Exec`,
    `CallHelper`, `OnFnCall`, …) over a `Machine` state. The class
    `Entity` holds the Python entity's fields, and every `_run_*` method
    is proved to compute exactly those functions. The lemmas prove
    several facts:
    - Parsed programs never let a `break`/`continue` escape.
    - A new entity's globals are `me`, holding its id, and the file's
      globals, each holding the value its initialiser gave.
    - A `return` from inside an `on_` function leaves a scope on the
      stack, which makes every later call on that entity fail.
    - Helper calls do not restore the caller's local variables.

## Model

| member | source | states |
|---|---|---|
| Tokenizer.GetCharacterLineNumber | src/grug/tokenizer.py:241-263 | the loop computes the 1-based line of a character index, never above index+1 |
| Tokenizer.CharacterLineNumber | src/grug/tokenizer.py:241-262 | one plus the line breaks before the index, between 1 and index+1 |
| Tokenizer.TokenizeFrom | src/grug/tokenizer.py:60-239 | the tokens of the rest of the text, at most one per character; the round-trip lemmas tie them to the text |
| Tokenizer.NumberScan | src/grug/tokenizer.py:188-206 | a number's extent stops at the end of its digits; a second period is reported at its own position |
| Tokenizer.CommentScan | src/grug/tokenizer.py:207-233 | a comment runs over printable characters; the first unprintable one is reported at its position |
| Tokenizer.IndentationRule | src/grug/tokenizer.py:153-170 | a run of spaces becomes one token that consumes at least one character |
| Tokenizer.StringRule | src/grug/tokenizer.py:171-182 | a string literal consumes at least its opening quote |
| Tokenizer.WordRule | src/grug/tokenizer.py:183-187 | a word consumes at least one character |
| Tokenizer.NumberRule | src/grug/tokenizer.py:188-206 | a number literal consumes at least one character |
| Tokenizer.CommentRule | src/grug/tokenizer.py:207-233 | a comment consumes at least its `#` |
| Tokenizer.Scan | src/grug/tokenizer.py:60-239 | one scanning step always advances the cursor |
| Tokenizer.ScanStep | src/grug/tokenizer.py:60-239 | appending the scanned token keeps the tokens produced so far consistent with `TokenizeFrom` |
| Tokenizer.ScanIndentation | src/grug/tokenizer.py:153-170 | the imperative spaces branch returns exactly `IndentationRule` |
| Tokenizer.ScanString | src/grug/tokenizer.py:171-182 | the imperative string branch returns exactly `StringRule` |
| Tokenizer.ScanWord | src/grug/tokenizer.py:183-187 | the imperative word branch returns exactly `WordRule` |
| Tokenizer.ScanNumber | src/grug/tokenizer.py:188-206 | the imperative number branch returns exactly `NumberRule` |
| Tokenizer.ScanComment | src/grug/tokenizer.py:207-233 | the imperative comment branch returns exactly `CommentRule` |
| Tokenizer.ScanOperator | src/grug/tokenizer.py:66-119 | the operator and punctuation chain returns exactly the first matching operator |
| Tokenizer.ScanOne | src/grug/tokenizer.py:60-239 | one pass of the tokenize loop body returns exactly `Scan` |
| Tokenizer.Tokenize | src/grug/tokenizer.py:60-239 | the tokenize loop returns exactly `TokenizeFrom(src, 0)`, tokens or the first error |
| TokenizerProps.TokenizeRoundTrip | src/grug/tokenizer.py:60-239 | when tokenizing succeeds, concatenating the tokens' text gives back the whole source |
| TokenizerProps.TokenizeFromRendersSuffix | src/grug/tokenizer.py:60-239 | the tokens from any position render the rest of the source |
| TokenizerProps.ScanRenders | src/grug/tokenizer.py:60-239 | each token renders exactly the characters it consumed |
| TokenizerProps.ScanTokenFacts | src/grug/tokenizer.py:60-239 | each scanned token is well formed and renders its own span |
| TokenizerProps.IndentationRuleFacts | src/grug/tokenizer.py:153-170 | the spaces rule's token is well formed and renders its span |
| TokenizerProps.StringRuleFacts | src/grug/tokenizer.py:171-182 | the string rule's token is well formed and renders its span, quotes included |
| TokenizerProps.WordRuleFacts | src/grug/tokenizer.py:183-187 | the word rule's token is well formed and renders its span |
| TokenizerProps.NumberRuleFacts | src/grug/tokenizer.py:188-206 | the number rule's token is well formed and renders its span |
| TokenizerProps.CommentRuleFacts | src/grug/tokenizer.py:207-233 | the comment rule's token is well formed and renders its span |
| TokenizerProps.OperatorRuleFacts | src/grug/tokenizer.py:66-119 | an operator token's text is at the cursor and is the operator's fixed spelling |
| TokenizerProps.TokenizeFromWellFormed | src/grug/tokenizer.py:60-239 | every token produced is well formed |
| TokenizerProps.KeywordTableFacts | src/grug/tokenizer.py:120-152 | every keyword is a non-empty lower-case spelling of its token kind |
| TokenizerProps.KeywordAtFacts | src/grug/tokenizer.py:120-152 | a recognised keyword lies at the cursor and ends at a word boundary |
| TokenizerProps.KeywordOrWord | src/grug/tokenizer.py:120-187 | at a word start, the token spans the whole word, and it is a plain word exactly when that word is not a keyword |
| TokenizerProps.KeywordSpansWord | src/grug/tokenizer.py:120-152 | a keyword match covers the whole word, so `iffy` is never `if` |
| TokenizerProps.WordNotKeyword | src/grug/tokenizer.py:183-187 | a word token's text is never a keyword |
| TokenizerProps.WordEndBoundary | src/grug/tokenizer.py:264-268 | a word stops where `is_end_of_word` holds |
| Tokenizer.IsEndOfWord | src/grug/tokenizer.py:264-268 | the end of the text ends a word, and a letter, digit or `_` continues it |
| TokenizerProps.ScanAtWordStart | src/grug/tokenizer.py:120-187 | the keyword branch is tried before the word branch |
| TokenizerProps.SingleCharacterTokens | src/grug/tokenizer.py:66-98 | each single punctuation character becomes a one-character token of its own kind |
| TokenizerProps.TwoCharacterOperatorsFirst | src/grug/tokenizer.py:99-119 | `==`, `!=`, `>=`, `<=` are taken as two-character tokens before their one-character prefixes |
| TokenizerProps.LoneBangIsError | src/grug/tokenizer.py:234-237 | a `!` not followed by `=` is an unrecognised character, reported with its line |
| TokenizerProps.SpacesRule | src/grug/tokenizer.py:153-170 | a single space is a space token; a longer run is an indentation token exactly when its length is a multiple of the indent width, otherwise an error |
| TokenizerProps.StringLiteralRule | src/grug/tokenizer.py:171-182 | a string succeeds exactly when a closing quote follows; the token holds the text between the quotes; otherwise it is an unclosed-string error |
| TokenizerProps.NumberScanFacts | src/grug/tokenizer.py:188-206 | a number holds only digits and at most one period |
| TokenizerProps.CommentScanFacts | src/grug/tokenizer.py:207-233 | a comment holds only printable characters |
| TokenizerProps.LineNumberExamples | src/grug/tokenizer.py:241-251 | sample line numbers: the first line is 1, and each `\n` starts a new line |
| TokenizerProps.LineNumberMonotonic | src/grug/tokenizer.py:241-263 | line numbers never decrease along the source |
| TokenizerProps.LineNumberStep | src/grug/tokenizer.py:241-263 | a `\n` adds one line; an ordinary character adds none |
| TokenizerProps.CrLfCountsTwice | src/grug/tokenizer.py:253-262 | a `\r\n` pair counts as two line breaks, and a lone `\r` as none |
| GrugParser.ParseType | src/grug/parser.py:472-484 | `bool`, `number` and `string` map to their own types (both directions); other names are ids, resources and entities |
| GrugParser.StrToNumber | src/grug/parser.py:862-880 | a digit string gives its decimal value; an empty string or a lone period is an error |
| GrugParser.OnFnTableIndexes | src/grug/parser.py:273-305 | a name is in the on_fns table exactly when an on_ item of that name is in the AST, and maps to that item |
| GrugParser.HelperFnTableIndexes | src/grug/parser.py:306-332 | the same, for the helper_fns table |
| GrugParser.OnFnTable | src/grug/parser.py:293 | each on_ function is stored under its own name |
| GrugParser.HelperFnTable | src/grug/parser.py:322 | each helper function is stored under its own name |
| GrugParser.ProgressStart | src/grug/parser.py:236-243 | the empty file with the initial flags satisfies the top-level invariant |
| GrugParser.AddGlobal | src/grug/parser.py:248-272 | appending a global keeps the invariant (no global after an on_ fn) |
| GrugParser.AddOnFn | src/grug/parser.py:273-305 | appending an on_ fn keeps the invariant (distinct name, no helper yet) |
| GrugParser.AddHelperFn | src/grug/parser.py:306-332 | appending a helper keeps the invariant (distinct name, called earlier) |
| GrugParser.AddEmptyLine | src/grug/parser.py:333-349 | an allowed empty line keeps the invariant (never two in a row) |
| GrugParser.AddComment | src/grug/parser.py:350-356 | a comment keeps the invariant |
| GrugParser.ProgressEnd | src/grug/parser.py:362-367 | at the end, without a trailing empty line, the file is well formed |
| GrugParser.Parser.constructor | src/grug/parser.py:224-235 | a new parser holds the tokens, an empty AST and tables, and zero depths |
| GrugParser.Parser.GetTokenLineNumber | src/grug/parser.py:394-403 | the line of a token is the count of newline tokens before it plus one; an index past the end is an error |
| GrugParser.Parser.PeekToken | src/grug/parser.py:369-375 | returns the token at an index, or an out-of-bounds error exactly when there is none |
| GrugParser.Parser.ConsumeTokenType | src/grug/parser.py:376-393 | advances past a token exactly when it has the expected kind |
| GrugParser.Parser.ConsumeSpace | src/grug/parser.py:665-672 | advances past a space token, and fails otherwise |
| GrugParser.Parser.ConsumeIndentation | src/grug/parser.py:673-682 | advances past an indentation token exactly when its width matches the current depth |
| GrugParser.Parser.IsEndOfBlock | src/grug/parser.py:683-696 | a block ends at a `}` with the right outer indentation; other kinds are errors |
| GrugParser.Parser.IncreaseParsingDepth | src/grug/parser.py:697-703 | raises the depth, and fails exactly when the new depth reaches the maximum |
| GrugParser.Parser.DecreaseParsingDepth | src/grug/parser.py:704-708 | lowers the depth, and fails at zero |
| GrugParser.Parser.ParseExpression | src/grug/parser.py:1039-1044 | the expression is shaped like the tokens it consumed, respects precedence, and records its helper calls |
| GrugParser.Parser.ParseBinaryLevel | src/grug/parser.py:916-1038 | each precedence level (factor … or) folds left, with the same shape, precedence and helper-call facts |
| GrugParser.Parser.ParseUnary | src/grug/parser.py:804-816 | a `-`/`not` prefix applies to a unary-level operand; same facts |
| GrugParser.Parser.ParseCall | src/grug/parser.py:817-861 | a call is a name followed by a parenthesised argument list; helper calls are recorded |
| GrugParser.Parser.ParseCallArguments | src/grug/parser.py:817-861 | the arguments are comma-separated expressions closed by `)` |
| GrugParser.Parser.ParseCallTail | src/grug/parser.py:837-861 | from the name and `(`: a helper_ name is recorded, the arguments run up to `)`, the result is a call of the tightest level laid out as written, and the nesting depth drops by one |
| GrugParser.Parser.ParseCallArgument | src/grug/parser.py:850-858 | one argument expression followed by `)` or `, `, the layout still matching the arguments read so far |
| GrugParser.Parser.ParseArgumentEnd | src/grug/parser.py:853-858 | after an argument comes `)`, which closes the call, or a comma and a space; a missing token is an out-of-bounds error |
| GrugParser.Parser.PrimaryLiteral | src/grug/parser.py:881-915 | true, false, string and word tokens become one-token literals or identifiers, and nothing else does |
| GrugParser.Parser.ParsePrimary | src/grug/parser.py:881-915 | literals, numbers and parenthesised expressions (with depth accounting) keep the shape facts |
| GrugParser.Parser.ParseStatement | src/grug/parser.py:405-471 | a statement starts with the token that chose its branch, is well formed, and outside a loop has no loose break/continue |
| GrugParser.Parser.SingleTokenStatement | src/grug/parser.py:443-466 | break/continue are refused outside loops; empty line and comment statements |
| GrugParser.Parser.ParseWordStatement | src/grug/parser.py:409-428 | a word starts a call statement or a local variable statement of that name |
| GrugParser.Parser.ParseReturnStatement | src/grug/parser.py:431-439 | a return has a value exactly when it is not followed by a newline |
| GrugParser.Parser.ParseLocalVariable | src/grug/parser.py:709-759 | the variable takes its name from the word, is never `me`, and has a type exactly when a `:` follows |
| GrugParser.Parser.ParseIfStatement | src/grug/parser.py:1045-1069 | an if statement is well formed, with its else branches |
| GrugParser.Parser.ParseElse | src/grug/parser.py:1045-1069 | an else part is present exactly when a space follows the block, and ends at a `}` |
| GrugParser.Parser.ParseWhileStatement | src/grug/parser.py:1070-1080 | a while loop is well formed, ends at `}`, and restores the loop depth |
| GrugParser.Parser.ParseIndentedStatement | src/grug/parser.py:610-664 | a block line is an indentation, a statement and a newline |
| GrugParser.Parser.ParseBlockLines | src/grug/parser.py:610-664 | block lines run until the end of the block, and are all well formed |
| GrugParser.Parser.ParseStatements | src/grug/parser.py:610-664 | a block is ` {`, newline, lines and `}`, with the indentation restored |
| GrugParser.Parser.CloseBlock | src/grug/parser.py:654-661 | a block ends with the enclosing indentation (none at the top level) and `}`; indentation and nesting depth each drop by one |
| GrugParser.Parser.ParamAt | src/grug/parser.py:485-544 | a parameter is a name, `:`, a space and a type word |
| GrugParser.Parser.ParseNextParam | src/grug/parser.py:485-544 | a following parameter comes after `, ` and may not have a forbidden type |
| GrugParser.Parser.ParseArguments | src/grug/parser.py:485-544 | a parameter list is non-empty, well formed and ends before a non-comma token |
| GrugParser.Parser.ParseListedParam | src/grug/parser.py:513-541 | one `, name: type` after the parameters so far; the longer list still has allowed types and the written layout |
| GrugParser.Parser.ParseParameterList | src/grug/parser.py:545-560 | a parenthesised parameter list may be empty |
| GrugParser.Parser.ParseHelperFnHeader | src/grug/parser.py:545-589 | a helper must already be called before its definition; a return type is present or absent together with its name |
| GrugParser.Parser.ParseHelperFn | src/grug/parser.py:545-589 | a helper definition ends at `}`, and its name was called earlier |
| GrugParser.Parser.HelperReturnType | src/grug/parser.py:545-589 | a return type is present exactly when a word follows the parameter list |
| GrugParser.Parser.ParseOnFn | src/grug/parser.py:590-609 | an on_ definition ends at `}` and takes its name from the first token |
| GrugParser.Parser.ParseGlobalVariable | src/grug/parser.py:760-803 | a global has an explicit type, a well-formed initialiser and takes its name from the word |
| GrugParser.Parser.RegisterGlobal | src/grug/parser.py:248-272 | appending a global to the AST keeps the top-level invariant |
| GrugParser.Parser.ParseGlobalItem | src/grug/parser.py:248-272 | a global item keeps the invariant; a global after an on_ fn, or a missing newline, is an error |
| GrugParser.Parser.RegisterOnFn | src/grug/parser.py:273-305 | storing an on_ fn in the table keeps the invariant |
| GrugParser.Parser.ParseOnFnItem | src/grug/parser.py:273-305 | an on_ fn after a helper is an error; otherwise the item keeps the invariant |
| GrugParser.Parser.ParseOnFnDeclaration | src/grug/parser.py:273-305 | a duplicate on_ fn is an error; otherwise the table and AST grow and the invariant holds |
| GrugParser.Parser.FinishOnFnItem | src/grug/parser.py:288-305 | a name already in `on_fns` is a duplicate error; otherwise the fn is stored, a newline follows and the top-level invariant holds with the flags of the on_ branch |
| GrugParser.Parser.RegisterHelperFn | src/grug/parser.py:306-332 | storing a helper in the table keeps the invariant |
| GrugParser.Parser.ParseHelperFnItem | src/grug/parser.py:306-332 | a helper item keeps the invariant |
| GrugParser.Parser.ParseHelperFnDeclaration | src/grug/parser.py:306-332 | a duplicate helper is an error; otherwise the table and AST grow and the invariant holds |
| GrugParser.Parser.FinishHelperFnItem | src/grug/parser.py:317-332 | a name already in `helper_fns` is a duplicate error; otherwise the helper is stored, a newline follows and the top-level invariant holds with the flags of the helper_ branch |
| GrugParser.Parser.ParseEmptyLineItem | src/grug/parser.py:333-349 | an empty line is an error exactly when it is not allowed |
| GrugParser.Parser.ParseCommentItem | src/grug/parser.py:350-356 | a comment item keeps the invariant |
| GrugParser.Parser.ParseItem | src/grug/parser.py:245-360 | each top-level item keeps the invariant; an unexpected empty line or token is an error at that token |
| GrugParser.Parser.Parse | src/grug/parser.py:236-367 | a successful parse returns a well-formed file whose tables and called-helper set match the AST; no tokens give an empty AST; a leading newline is an error |
| TypeRules.IsWrongType | src/grug/type_propagator.py:132-144 | types differ, or both are ids with different custom names |
| TypeRules.Assignable | src/grug/type_propagator.py:283-284 | a value fits where its own type name is expected; a different type name fits only where `id` is expected |
| TypeRules.ValidateEntityString | src/grug/type_propagator.py:145-182 | an empty string is refused with its own error; the accepted strings are characterised by `EntityStringAccepted` |
| TypeRules.ValidateResourceString | src/grug/type_propagator.py:184-251 | an accepted resource is non-empty, has no leading or trailing `/`, no trailing `.`, no `\`, and ends with the required extension; `ResourceStringAccepted` characterises it exactly |
| TypeRules.EntityStringAccepted | src/grug/type_propagator.py:145-183 | the entity string check accepts exactly the valid `mod:name` strings |
| TypeRules.ResourceStringAccepted | src/grug/type_propagator.py:184-252 | the resource string check accepts exactly the valid relative paths with the right extension |
| TypeRules.LaterDotSegmentAccepted | src/grug/type_propagator.py:208-242 | only the first `.` or `..` segment is looked at, so `a././b` is accepted |
| TypeRules.GetVariable | src/grug/type_propagator.py:111-117 | a local shadows a global; the lookup fails exactly when neither has the name |
| TypeRules.AddLocal | src/grug/type_propagator.py:118-131 | a local is added exactly when it shadows no local and no global, with the matching error otherwise |
| TypeRules.AddGlobal | src/grug/type_propagator.py:102-110 | a global is added exactly when its name is new |
| TypeRules.ArgumentLocalsOk | src/grug/type_propagator.py:497-502 | parameters become locals exactly when their names are distinct and shadow no global |
| TypeRules.ArgumentLocalsBind | src/grug/type_propagator.py:497-502 | each parameter is bound with its own type |
| TypeRules.BinaryRules | src/grug/type_propagator.py:326-376 | operand types must agree (ids excepted), strings allow only `==`/`!=`, and each operator gets its result type |
| TypeRules.BinaryResult | src/grug/type_propagator.py:326-375 | a string operand allows only equality; operand type names agree unless one is `id`; equality, comparison and logic give bool, arithmetic gives its number-typed left operand |
| TypeRules.FilledExpr | src/grug/type_propagator.py:377-416 | an identifier must be a variable in scope; a call resolves to a helper or game function of that name; a unary expression takes its operand's type |
| TypeRules.FilledVariable | src/grug/type_propagator.py:417-451 | only the value is filled; an assignment needs an existing variable and adds none; a declaration adds exactly its new, unshadowing name |
| TypeRules.FilledStatement | src/grug/type_propagator.py:461-496 | every statement but a declaration leaves the local variables as they were |
| TypeRules.UnaryResult | src/grug/type_propagator.py:384-407 | `not` needs a bool and `-` needs a number |
| TypeRules.CheckedPrefix | src/grug/type_propagator.py:253-288 | arguments are checked in order, and the first failing one is reported |
| TypeRules.CheckedArguments | src/grug/type_propagator.py:253-288 | a missing or extra argument is reported by name; otherwise every argument must fit its parameter |
| TypeRules.FilledCall | src/grug/type_propagator.py:289-325 | a call resolves to a helper or a game function; an unknown name is an error (a distinct one for on_ fns) |
| TypeRules.FilledExprs | src/grug/type_propagator.py:377-416 | filling expressions keeps their number |
| TypeRules.FilledReturn | src/grug/type_propagator.py:471-488 | a return has a value exactly when its function has a return type, and the value is assignable |
| TypeRules.FilledStatements | src/grug/type_propagator.py:461-496 | filling statements keeps their number |
| TypeRules.StatementLocals | src/grug/type_propagator.py:417-451 | a typed variable statement adds one new local; others add none |
| TypeRules.StatementsLocals | src/grug/type_propagator.py:461-496 | a block adds exactly the names it declares, none of which existed before |
| TypeRules.BlockRestoresLocals | src/grug/type_propagator.py:452-496 | removing a block's declarations restores the local table it started with |
| TypeRules.FilledHelperFn | src/grug/type_propagator.py:503-523 | only the body changes, and a helper with a return type must end with a return |
| TypeRules.ParametersFrom | src/grug/type_propagator.py:567-581 | each parameter has the entity's name and type |
| TypeRules.SignatureCheck | src/grug/type_propagator.py:555-581 | a missing or extra parameter is reported by name; otherwise names and types must match |
| TypeRules.FilledOnFn | src/grug/type_propagator.py:524-585 | only the body changes, and the signature matches the entity's |
| TypeRules.CheckGlobalExprCalls | src/grug/type_propagator.py:586-602 | a global's initialiser is accepted exactly when it calls no helper |
| TypeRules.CheckGlobalExprsCalls | src/grug/type_propagator.py:586-602 | the same, for a list of expressions |
| TypeRules.CheckGlobalExpr | src/grug/type_propagator.py:586-602 | the only error is the global-calls-helper error for that global |
| TypeRules.FilledGlobal | src/grug/type_propagator.py:603-632 | a global is typed, calls no helper, is not `me`, and is added to the globals |
| TypePropagation.FnIndexing | src/grug/type_propagator.py:60-64 | the on_/helper tables index distinct names, each at its AST position |
| TypePropagation.Tables | src/grug/type_propagator.py:60-64 | both tables of a parsed file are consistent with the AST |
| TypePropagation.ToGameFn | src/grug/type_propagator.py:73-91 | a mod API game function keeps its name, its parameters' names and type names in order, and its return type name |
| TypePropagation.GameFunctions | src/grug/type_propagator.py:93-96 | one parsed game function per mod API entry, under its own name, with as many parameters |
| TypePropagation.TypePropagator.constructor | src/grug/type_propagator.py:54-100 | for an entity type the mod API declares: the propagator holds the AST, mod, entity type, the entity's on_ functions and the parsed game functions |
| TypePropagation.NewTypePropagator | src/grug/type_propagator.py:54-100 | fails with a KeyError exactly when the mod API does not declare the entity type; otherwise a valid propagator with empty variable tables |
| TypePropagation.TypePropagator.AddGlobalVariable | src/grug/type_propagator.py:102-110 | adds a global exactly when its name is new, else leaves the table unchanged |
| TypePropagation.TypePropagator.AddLocalVariable | src/grug/type_propagator.py:118-131 | adds a local exactly when it shadows nothing, else leaves the table unchanged |
| TypePropagation.TypePropagator.AddArgumentVariables | src/grug/type_propagator.py:497-502 | the locals become exactly the parameter bindings, or the first error |
| TypePropagation.TypePropagator.CheckArguments | src/grug/type_propagator.py:253-288 | returns exactly `CheckedArguments` |
| TypePropagation.TypePropagator.CheckArgument | src/grug/type_propagator.py:253-288 | returns exactly the per-argument check |
| TypePropagation.TypePropagator.FillCallExpr | src/grug/type_propagator.py:289-325 | returns exactly `FilledExpr` for a call |
| TypePropagation.TypePropagator.FillBinaryExpr | src/grug/type_propagator.py:326-376 | returns exactly `FilledExpr` for a binary or logical expression |
| TypePropagation.TypePropagator.FillExpr | src/grug/type_propagator.py:377-416 | returns exactly `FilledExpr` |
| TypePropagation.TypePropagator.FillVariableStatement | src/grug/type_propagator.py:417-451 | returns the filled statement and leaves exactly the resulting locals |
| TypePropagation.TypePropagator.RemoveLocalVariablesInStatements | src/grug/type_propagator.py:452-460 | removes exactly the names the block declared |
| TypePropagation.TypePropagator.FillStatement | src/grug/type_propagator.py:461-496 | returns the filled statement and exactly the resulting locals |
| TypePropagation.TypePropagator.FillStatements | src/grug/type_propagator.py:461-496 | returns the filled block and restores the locals |
| TypePropagation.TypePropagator.FillHelperFn | src/grug/type_propagator.py:503-523 | returns exactly `FilledHelperFn` |
| TypePropagation.TypePropagator.FillHelperFns | src/grug/type_propagator.py:503-523 | replaces every helper in the AST with its filled version, or returns the first error |
| TypePropagation.TypePropagator.HelperFnsDone | src/grug/type_propagator.py:503-523 | every helper is filled once the loop ends |
| TypePropagation.TypePropagator.FillOnFn | src/grug/type_propagator.py:524-585 | returns exactly `FilledOnFn` |
| TypePropagation.TypePropagator.FirstUndeclaredFrom | src/grug/type_propagator.py:526-530 | finds an on_ fn the entity does not declare, or proves that there is none |
| TypePropagation.TypePropagator.OnFnsAccepted | src/grug/type_propagator.py:524-585 | on_ fns are accepted exactly when the entity declares all of them in the same relative order and their bodies fill |
| TypePropagation.TypePropagator.FillOnFns | src/grug/type_propagator.py:524-585 | replaces every on_ fn in the AST with its filled version, or returns the first error |
| TypePropagation.TypePropagator.CheckSignature | src/grug/type_propagator.py:555-581 | returns exactly `SignatureCheck` |
| TypePropagation.TypePropagator.FillGlobal | src/grug/type_propagator.py:608-632 | returns the filled global and exactly the new globals |
| TypePropagation.TypePropagator.FillGlobalVariables | src/grug/type_propagator.py:603-632 | fills every global in order after the implicit `me`, or returns the first error |
| TypePropagation.TypePropagator.CheckGlobalExpression | src/grug/type_propagator.py:586-602 | returns exactly `CheckGlobalExpr` |
| TypePropagation.TypePropagator.Fill | src/grug/type_propagator.py:633-637 | globals, then on_ fns, then helpers: the AST becomes the fully typed file, or the first error |
| TypePropagation.TypePropagator.GlobalsFilled | src/grug/type_propagator.py:603-632 | filling globals keeps the AST's shape and only adds globals |
| TypePropagation.TypePropagator.GlobalsIndexed | src/grug/type_propagator.py:603-632 | the tables still index the AST after globals are filled |
| TypePropagation.TypePropagator.OnFnsIndexed | src/grug/type_propagator.py:524-585 | the tables still index the AST after on_ fns are filled |
| TypePropagation.TypePropagator.HelperFnsIndexed | src/grug/type_propagator.py:503-523 | the tables still index the AST after helpers are filled |
| GrugStates.CheckCustomIdIsPascal | src/grug/grug_state.py:159-181 | accepted exactly for PascalCase names; empty and lower-case starts get their own errors |
| GrugStates.GetFileEntityType | src/grug/grug_state.py:116-157 | no dash, or only a trailing dash, is a missing-entity-type error; a result is PascalCase |
| GrugStates.FileEntityTypeSplits | src/grug/grug_state.py:130-152 | an accepted type is the text between the first dash and the next period |
| GrugStates.FileEntityTypeOfSplit | src/grug/grug_state.py:130-152 | conversely, such a split yields that type |
| GrugStates.FurnaceIsBlockEntity | src/grug/grug_state.py:116-157 | `furnace-BlockEntity.grug` gives `BlockEntity` |
| GrugStates.NoPeriodAfterDash | src/grug/grug_state.py:130-152 | a name with no period after its dash is a missing-period error |
| GrugStates.ModIsFirstComponent | src/grug/grug_state.py:61 | the mod is the first path component |
| GrugStates.PathParts | src/grug/grug_state.py:61 | the parts of a path are non-empty, never `.`, contain no `/` except the root part, and an absolute path starts with the root |
| GrugStates.PathName | src/grug/grug_state.py:66 | the file name of a path holds no `/` and is not `.` |
| GrugStates.GlobalsOf | src/grug/grug_state.py:70 | the globals are items of the AST, and every global variable statement of the AST is among them |
| GrugStates.GlobalsOfAppend | src/grug/grug_state.py:70 | the globals keep file order: those of one part of the file come before those of the next |
| GrugStates.GrugState.constructor | src/grug/grug_state.py:32-49 | a new state has no game functions and starts ids at 0 |
| GrugStates.GrugState.RegisterGameFn | src/grug/grug_state.py:56-57 | the name now maps to the function; nothing else changes |
| GrugStates.GrugState.GameFnDecorator | src/grug/grug_state.py:51-54 | registers the function under its own name and returns it unchanged |
| GrugStates.GrugState.CompileGrugFile | src/grug/grug_state.py:59-84 | succeeds exactly when the path has parts and the file name gives an entity type, with those errors otherwise; the file has the mod, the path, this state, the AST's globals in file order, and its on_/helper tables |
| GrugPackages.PostInit | src/grug/grug_package.py:12-14 | an empty prefix is refused |
| GrugPackages.GrugPackage.Init | src/grug/grug_package.py:7-10 | the dataclass stores prefix and game functions |
| GrugPackages.GrugPackage.Noprefix | src/grug/grug_package.py:16-18 | clears the prefix and returns the same package |
| GrugPackages.NewGrugPackage | src/grug/grug_package.py:7-14 | creation fails exactly for an empty prefix |
| GrugPackages.PackageWithoutPrefix | src/grug/grug_package.py:7-18 | creation with a prefix followed by `noprefix()` gives an unprefixed package |
| GrugStdlib.GrugList.constructor | src/grug/packages/grug_stdlib/grug_stdlib.py:81-82 | a new list is empty |
| GrugStdlib.ListX | src/grug/packages/grug_stdlib/grug_stdlib.py:81-82 | returns a fresh empty list |
| GrugStdlib.ListAppend | src/grug/packages/grug_stdlib/grug_stdlib.py:85-86 | appends the value at the end |
| GrugStdlib.ListLen | src/grug/packages/grug_stdlib/grug_stdlib.py:89-90 | the number of elements |
| GrugStdlib.ListExtend | src/grug/packages/grug_stdlib/grug_stdlib.py:93-94 | appends the second list's old contents (also when both are the same list) |
| GrugStdlib.InsertPosition | src/grug/packages/grug_stdlib/grug_stdlib.py:97-98 | Python's insert clamps the index into the list |
| GrugStdlib.Trunc | src/grug/packages/grug_stdlib/grug_stdlib.py:97-98 | `int()` of a float truncates toward zero |
| GrugStdlib.ListInsert | src/grug/packages/grug_stdlib/grug_stdlib.py:97-98 | inserts at the truncated and clamped index and shifts the rest |
| GrugStdlib.ListRemove | src/grug/packages/grug_stdlib/grug_stdlib.py:101-102 | removes the first equal element, or raises ValueError and leaves the list unchanged |
| GrugStdlib.CountPositiveIffFound | src/grug/packages/grug_stdlib/grug_stdlib.py:113-118 | a value is counted exactly when index finds it |
| GrugStdlib.RemoveFirstCount | src/grug/packages/grug_stdlib/grug_stdlib.py:101-102 | removing one occurrence lowers the count by one |
| GrugStdlib.ListPop | src/grug/packages/grug_stdlib/grug_stdlib.py:105-106 | removes and returns the last element; IndexError on an empty list |
| GrugStdlib.PopPosition | src/grug/packages/grug_stdlib/grug_stdlib.py:109-110 | negative indexes count from the end; out-of-range indexes have no position |
| GrugStdlib.ListPopIndex | src/grug/packages/grug_stdlib/grug_stdlib.py:109-110 | removes and returns the element at the index; IndexError leaves the list unchanged |
| GrugStdlib.ListIndex | src/grug/packages/grug_stdlib/grug_stdlib.py:113-114 | the first index of an equal element; ValueError exactly when there is none |
| GrugStdlib.FirstIndexOf | src/grug/packages/grug_stdlib/grug_stdlib.py:113-114 | the first position holding an equal element, or none exactly when no element is equal |
| GrugStdlib.ListCount | src/grug/packages/grug_stdlib/grug_stdlib.py:117-118 | the number of positions holding an equal element; positive exactly when index succeeds |
| GrugStdlib.CountOf | src/grug/packages/grug_stdlib/grug_stdlib.py:117-118 | the count of equal elements is at most the length |
| GrugStdlib.CountIsOccurrences | src/grug/packages/grug_stdlib/grug_stdlib.py:117-118 | the count is the number of positions holding an element `==` to the value |
| GrugStdlib.LeTotal | src/grug/packages/grug_stdlib/grug_stdlib.py:130-131 | the sort order is total on numbers and on strings |
| GrugStdlib.LeTransitive | src/grug/packages/grug_stdlib/grug_stdlib.py:130-131 | the sort order is transitive |
| GrugStdlib.InsertSortedKeepsOrder | src/grug/packages/grug_stdlib/grug_stdlib.py:130-131 | inserting into a sorted sequence keeps it sorted |
| GrugStdlib.SortValuesSorted | src/grug/packages/grug_stdlib/grug_stdlib.py:130-131 | the sort result is sorted |
| GrugStdlib.SortValues | src/grug/packages/grug_stdlib/grug_stdlib.py:130-131 | the sorted elements are a permutation of the list (`SortValuesSorted` proves them sorted) |
| GrugStdlib.ListSort | src/grug/packages/grug_stdlib/grug_stdlib.py:130-131 | succeeds exactly when there is at most one element or the elements are all numbers or all strings, and then sorts them; TypeError otherwise; the contents are always a permutation |
| GrugStdlib.ListReverse | src/grug/packages/grug_stdlib/grug_stdlib.py:134-135 | element k becomes old element n-1-k |
| GrugStdlib.ListCopy | src/grug/packages/grug_stdlib/grug_stdlib.py:138-139 | returns a fresh list with the same elements |
| GrugStdlib.CopyIsIndependent | src/grug/packages/grug_stdlib/grug_stdlib.py:138-139 | appending to the copy leaves the original unchanged |
| GrugStdlib.ListClear | src/grug/packages/grug_stdlib/grug_stdlib.py:142-143 | the list becomes empty |
| GrugStdlib.MakeListPackage | src/grug/packages/grug_stdlib/grug_stdlib.py:149-173 | 14 entries, named `list_<type>` plus each operation's suffix, in the source's order |
| GrugStdlib.ListPackageNamesDistinct | src/grug/packages/grug_stdlib/grug_stdlib.py:149-173 | the 14 names of one package are distinct |
| GrugStdlib.AppendListPackage | src/grug/packages/grug_stdlib/grug_stdlib.py:198-202 | one inner loop appends that type's 14 functions after the existing ones |
| GrugStdlib.GatherGameFns | src/grug/packages/grug_stdlib/grug_stdlib.py:179-202 | 14 fixed functions followed by 14 list functions for each of number, bool, string and id: 70 in all |
| GrugStdlib.Get | src/grug/packages/grug_stdlib/grug_stdlib.py:179-207 | as written, creating the package always fails with the empty-prefix error |
| GrugStdlib.GetWithoutPrefix | src/grug/packages/grug_stdlib/grug_stdlib.py:179-207 | the intended package: no prefix and the 70 gathered functions |
| Entities.EntityString | src/grug/entity.py:135-138 | a string without `:` gets the `mod:` prefix; one with `:` is kept |
| Entities.Lookup | src/grug/entity.py:139-142 | globals are looked up first, then locals; a missing name is an error |
| Entities.Assign | src/grug/entity.py:116-121 | an assignment succeeds exactly when a global or a local scope exists, and the name then reads back the value |
| Entities.Bind | src/grug/entity.py:86-87 | the `zip` binds exactly the parameters that have an argument: a parameter without one stays unbound, and surplus arguments are dropped |
| Entities.BindDistinct | src/grug/entity.py:86-87 | each parameter is bound to its argument |
| Entities.BindKeeps | src/grug/entity.py:86-87 | other names keep their values |
| Entities.BinaryOp | src/grug/entity.py:173-210 | arithmetic needs two floats and a non-zero divisor; failures are raised Python errors |
| GrugValues.PyEq | src/grug/entity.py:191-196 | Python's `==`: values of different kinds are never equal, numbers aside (`True == 1`); strings compare by content; any other object, a list included, by identity |
| Entities.CallGame | src/grug/entity.py:278-282 | an unknown game function is a KeyError; otherwise the game code's result |
| Entities.EvalExpr | src/grug/entity.py:126-160 | evaluation keeps the state growing, and with jump-free helpers (every parsed file, `ParsedHelpersJumpFree`) never jumps; a helper call used as a value fails; with no scope stack yet it changes no global, and a successful evaluation changes nothing |
| Entities.EvalUnary | src/grug/entity.py:162-171 | negation yields a float |
| Entities.EvalBinary | src/grug/entity.py:173-210 | binary evaluation keeps the frame facts |
| Entities.EvalLogical | src/grug/entity.py:212-224 | `and`/`or` short-circuit |
| GrugValues.Truthy | src/grug/entity.py:212-224 | Python's truth value: a bool, number or string is false exactly when it is `False`, `0`, `0.0` or `""`; any other object has its own truth value |
| Entities.EvalArgs | src/grug/entity.py:226-232 | arguments are evaluated left to right, one value each |
| Entities.EvalCall | src/grug/entity.py:226-232 | a helper call gives no value |
| Entities.CallHelper | src/grug/entity.py:261-276 | a helper call returns nothing and keeps the frame facts |
| Entities.Exec | src/grug/entity.py:98-124 | on a parsed statement no break/continue escapes, and a normal end keeps the depth |
| Entities.WhileLoop | src/grug/entity.py:245-253 | a while loop absorbs its breaks and continues |
| Entities.ExecFrom | src/grug/entity.py:94-96 | a statement list keeps the same facts |
| Entities.Enter | src/grug/entity.py:83-84 | pushes one scope and keeps the globals |
| Entities.OnFnCall | src/grug/entity.py:76-92 | unknown names raise; from an empty stack the call succeeds exactly when its body does, and leaves the stack empty; a leftover scope makes the call fail |
| Entities.ReturnPoisonsEntity | src/grug/entity.py:76-92 | a `return` inside an on_ fn leaves a scope behind, and every later on_ call on the entity then fails |
| Entities.GlobalNames | src/grug/entity.py:55-58 | the names of the global statements |
| Entities.InitGlobals | src/grug/entity.py:55-58 | initialising globals adds exactly their names; before the stack exists the locals stay unset and `me` keeps its value unless a global redefines it |
| Entities.InitGlobalsSplit | src/grug/entity.py:57-58 | the loop over globals `k..` is the loop over `k..j-1` followed, if it succeeded, by the loop over `j..` |
| Entities.InitGlobalsKeeps | src/grug/entity.py:57-58 | a global that no later global redefines keeps its value through the loop |
| Entities.InitGlobalsStores | src/grug/entity.py:57-58 | after `__init__` each global holds the value its initialiser gave in the state the earlier globals left, unless a later global of that name overwrote it |
| Entities.InitReadsOnlyEarlierGlobals | src/grug/entity.py:55-58 | an initialiser that reads a name defined neither before `__init__` nor by an earlier global makes `__init__` raise a TypeError, unless an earlier initialiser failed first |
| Entities.ParsedHelpersJumpFree | src/grug/parser.py:443-456 | parsed helper bodies have no loose break/continue |
| Entities.LocalsNotRestored | src/grug/entity.py:266-276 | after a helper call the caller's locals are those of the helper |
| Entities.Entity.constructor | src/grug/entity.py:47-64 | takes the next id from the state, and starts with only `me` |
| Entities.Entity.InitGlobalVariables | src/grug/entity.py:55-64 | runs `InitGlobals`, then starts with an empty local scope and empty stack |
| Entities.Entity.RunExpr | src/grug/entity.py:126-160 | computes exactly `EvalExpr` |
| Entities.Entity.RunUnaryExpr | src/grug/entity.py:162-171 | computes exactly `EvalUnary` |
| Entities.Entity.RunBinaryExpr | src/grug/entity.py:173-210 | computes exactly `EvalBinary` |
| Entities.Entity.RunLogicalExpr | src/grug/entity.py:212-224 | computes exactly `EvalLogical` |
| Entities.Entity.RunArguments | src/grug/entity.py:227 | computes exactly `EvalArgs` |
| Entities.Entity.RunCallExpr | src/grug/entity.py:226-232 | computes exactly `EvalCall` |
| Entities.Entity.BindArguments | src/grug/entity.py:86-87 | the locals become `Bind` of the arguments; nothing else changes |
| Entities.Entity.RunHelperFn | src/grug/entity.py:261-276 | computes exactly `CallHelper` |
| Entities.Entity.RunGameFn | src/grug/entity.py:278-282 | computes exactly `CallGame` |
| Entities.Entity.RunStatements | src/grug/entity.py:94-96 | computes exactly `ExecFrom` |
| Entities.Entity.RunStatement | src/grug/entity.py:98-114 | computes exactly `Exec` |
| Entities.Entity.RunVariableStatement | src/grug/entity.py:116-121 | computes exactly `Exec` |
| Entities.Entity.RunCallStatement | src/grug/entity.py:123-124 | computes exactly `Exec` |
| Entities.Entity.RunIfStatement | src/grug/entity.py:234-238 | computes exactly `Exec` |
| Entities.Entity.RunReturnStatement | src/grug/entity.py:240-243 | computes exactly `Exec` |
| Entities.Entity.RunWhileStatement | src/grug/entity.py:245-253 | computes exactly `WhileLoop` |
| Entities.Entity.RunOnFn | src/grug/entity.py:76-92 | computes exactly `OnFnCall` |
| Entities.CreateEntity | src/grug/grug_file.py:25-28 | takes the next id, and the entity's globals are initialised or the first error is returned; the globals are `me` and the file's globals, and `me` holds the entity's id unless the file redefines it |

## Left out

- I/O: reading mod files and `mod_api.json` is left out. `GrugState.CompileGrugFile` takes the already parsed AST as a parameter instead of running the frontend on the file text. The typing environment takes the mod API as a parsed value.
- GrugStates.GrugState.CompileGrugFile: the AST parameter is not tied to a parse and type propagation of the file's text with the mod and entity type the path gives. The entity type is validated and then not used, because the frontend that would receive it is not modelled. The parser and the type propagator are modelled on their own.
- Game code: game functions are a pure function from arguments to a result. Side effects in the game are not modelled.
- Entities.EvalExpr, Exec, CallHelper: helper calls and while iterations each cost one unit of `fuel`. A run without fuel ends in `OutOfFuel`. Python's recursion limit and non-terminating loops are therefore not modelled.
- Numbers are reals, so floating-point rounding, NaN, infinities and overflow are not modelled. `str_to_number`'s range checks are left out for the same reason.
- GrugParser.StrToNumber: the contract states the value only for numbers without a period, and the error for an empty string or a lone period. The value of a number with a fractional part is computed but not stated.
- The local-variable scope stack is modelled by its height. Its saved dictionaries are never read back by the source.
- `Entity.__getattr__` hands out a runner for any missing attribute name. This dynamic dispatch is not modelled. The one place it matters, a local table read before the first `on_` call, is modelled as an absent (`None`) local table that makes the access fail.
- `GrugState.update`, `dump_file_to_json`, `generate_file_from_json`, `get_mods`, `init_globals_fn_dispatcher` and the runtime error handler are I/O or serialisation. They are not part of this model.
- Paths: `PurePosixPath` is modelled as a split on `/` that drops empty and `.` components. Other path edge cases are not modelled.
- Character classes (`isalpha`, `isdigit`, `isprintable`, …) are ASCII only.
- The stdlib's `print_*`, `assert_*`, `ceil` and `sqrt` appear only by name in the gathered table. Their bodies are console output or float math.
- GrugStdlib.ListSort: on a TypeError only the multiset of elements is promised. CPython may leave the list partly sorted. User-defined `__lt__`, and stability between equal elements, are not modelled. A list of lists (lists held as values, for example ids from `list_number()` appended with `list_id_append`) raises TypeError here, while Python sorts it lexicographically, element by element.
- GrugValues.PyEq: a list held as a value (a list inside a list) compares by identity here, while Python compares two lists element by element. So `ListIndex`, `ListRemove` and `ListCount` on a list of lists can differ from `list_index`, `list_remove` and `list_count`: an equal but distinct inner list is not found here. Content equality would make `==` read the heap at every evaluation step.
- GrugStdlib.ListExtend: a list extended by itself is modelled as doubling, which is what CPython does.

## Findings

| source | as written | input that shows it | evidently intended | confidence | as-written member | corrected member |
|---|---|---|---|---|---|---|
| src/grug/packages/grug_stdlib/grug_stdlib.py:204-207 | `get()` builds `GrugPackage(prefix="")`, and `__post_init__` (src/grug/grug_package.py:12-14) refuses an empty prefix | any call of `get()` | a stdlib package without a prefix, e.g. created with a prefix and then `noprefix()` | high, not executed | GrugStdlib.Get | GrugStdlib.GetWithoutPrefix |
