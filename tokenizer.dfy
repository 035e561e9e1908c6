/** The grug tokenizer: one cursor over the source text, one rule per character
    class (src/grug/tokenizer.py).  `Scan` states the rule that applies at a
    position, `TokenizeFrom` chains the rules, and the method `Tokenize` is the
    source's while loop, proved to compute `TokenizeFrom(src, 0)`. */
module Tokenizer {
  import opened Wrappers
  import opened CharClasses

  const SPACES_PER_INDENT: nat := 4

  datatype TokenType =
    | OpenParenthesisToken | CloseParenthesisToken | OpenBraceToken | CloseBraceToken
    | PlusToken | MinusToken | MultiplicationToken | DivisionToken
    | CommaToken | ColonToken | NewlineToken
    | EqualsToken | NotEqualsToken | AssignmentToken
    | GreaterOrEqualToken | GreaterToken | LessOrEqualToken | LessToken
    | AndToken | OrToken | NotToken | TrueToken | FalseToken
    | IfToken | ElseToken | WhileToken | BreakToken | ReturnToken | ContinueToken
    | SpaceToken | IndentationToken | StringToken | WordToken | NumberToken | CommentToken

  datatype Token = Token(kind: TokenType, value: string)

  /** The `TokenizerError`s the source raises, with the line number it reports. */
  datatype TokenizerError =
    | BadIndentation(spaces: nat, line: nat)
    | UnclosedString(line: nat)
    | TwoPeriodsInNumber(line: nat)
    | MissingDigitAfterPeriod(number: string)
    | MissingSpaceAfterHash(line: nat)
    | UnprintableInComment(line: nat)
    | EmptyComment(line: nat)
    | CommentTrailingWhitespace(line: nat)
    | UnrecognizedCharacter(c: char, line: nat)

  // ---------------------------------------------------------------------------
  // Line numbers
  // ---------------------------------------------------------------------------

  /** Position `k` ends a line: a `\n`, or a `\r` directly followed by `\n`. */
  predicate IsLineBreakAt(src: string, k: nat)
    requires k < |src|
  {
    src[k] == '\n' || (src[k] == '\r' && k + 1 < |src| && src[k + 1] == '\n')
  }

  /** The number of positions below `idx` that end a line. */
  function LineBreaksBefore(src: string, idx: nat): (r: nat)
    requires idx <= |src|
    ensures r <= idx
  {
    if idx == 0 then 0
    else LineBreaksBefore(src, idx - 1) + (if IsLineBreakAt(src, idx - 1) then 1 else 0)
  }

  /** The line the source reports for character index `idx`. */
  function CharacterLineNumber(src: string, idx: nat): (r: nat)
    requires idx <= |src|
    ensures 1 <= r <= idx + 1
  {
    1 + LineBreaksBefore(src, idx)
  }

  /** `get_character_line_number`: the counting loop. */
  method GetCharacterLineNumber(src: string, idx: nat) returns (line: nat)
    requires idx <= |src|
    ensures line == CharacterLineNumber(src, idx)
    ensures 1 <= line <= idx + 1
  {
    line := 1;
    for i := 0 to idx
      invariant line == 1 + LineBreaksBefore(src, i)
      invariant line <= i + 1
    {
      if src[i] == '\n' || (src[i] == '\r' && i + 1 < |src| && src[i + 1] == '\n') {
        line := line + 1;
      }
    }
  }

  // ---------------------------------------------------------------------------
  // The rules, one per character class
  // ---------------------------------------------------------------------------

  /** `src.startswith(word, i)` */
  predicate StartsWithAt(src: string, word: string, i: nat) {
    i + |word| <= |src| && src[i..i + |word|] == word
  }

  /** `is_end_of_word(idx)` */
  predicate IsEndOfWord(src: string, idx: nat): (b: bool)
    // the end of the text ends a word; a letter, digit or `_` continues it
    ensures idx >= |src| ==> b
    ensures idx < |src| && (IsAlnum(src[idx]) || src[idx] == '_') ==> !b
  {
    idx >= |src| || !IsWordChar(src[idx])
  }

  /** The keywords with their token kinds, in the order the source tries them. */
  const KeywordTable: seq<(TokenType, string)> := [
    (AndToken, "and"), (OrToken, "or"), (NotToken, "not"), (TrueToken, "true"),
    (FalseToken, "false"), (IfToken, "if"), (ElseToken, "else"), (WhileToken, "while"),
    (BreakToken, "break"), (ReturnToken, "return"), (ContinueToken, "continue")]

  predicate IsKeyword(w: string) {
    exists m :: 0 <= m < |KeywordTable| && KeywordTable[m].1 == w
  }

  /** The first keyword rule from entry `k` on that matches at `i`: the keyword
      text is there and a word boundary follows it. */
  function KeywordFrom(src: string, i: nat, k: nat): Option<Token>
    requires k <= |KeywordTable|
    decreases |KeywordTable| - k
  {
    if k == |KeywordTable| then None
    else
      var w := KeywordTable[k].1;
      if StartsWithAt(src, w, i) && IsEndOfWord(src, i + |w|) then Some(Token(KeywordTable[k].0, w))
      else KeywordFrom(src, i, k + 1)
  }

  /** The keyword rules, tried in the source's order. */
  function KeywordAt(src: string, i: nat): Option<Token> {
    KeywordFrom(src, i, 0)
  }

  /** The end of the run of spaces starting at `i`. */
  function SpaceRunEnd(src: string, i: nat): (j: nat)
    requires i <= |src|
    ensures i <= j <= |src|
    decreases |src| - i
  {
    if i < |src| && src[i] == ' ' then SpaceRunEnd(src, i + 1) else i
  }

  /** The end of the word starting at `i`. */
  function WordEnd(src: string, i: nat): (j: nat)
    requires i <= |src|
    ensures i <= j <= |src|
    decreases |src| - i
  {
    if i < |src| && IsWordChar(src[i]) then WordEnd(src, i + 1) else i
  }

  /** The index of the first `"` at or after `i`, or `|src|`. */
  function StringEnd(src: string, i: nat): (j: nat)
    requires i <= |src|
    ensures i <= j <= |src|
    decreases |src| - i
  {
    if i < |src| && src[i] != '"' then StringEnd(src, i + 1) else i
  }

  /** The digits-and-periods scan of a number from `i`: its end, or the index
      of a second period (`seen` says whether a period came before `i`). */
  function NumberScan(src: string, i: nat, seen: bool): (r: Result<nat, nat>)
    requires i <= |src|
    ensures r.Ok? ==> i <= r.value <= |src|
    ensures r.Err? ==> i <= r.error < |src| && src[r.error] == '.'
    decreases |src| - i
  {
    if i < |src| && (IsDigit(src[i]) || src[i] == '.') then
      if src[i] == '.' then
        if seen then Err(i) else NumberScan(src, i + 1, true)
      else NumberScan(src, i + 1, seen)
    else Ok(i)
  }

  /** The scan of a comment's text from `i`: the index of the first `\r` or
      `\n` (or `|src|`), or the index of an unprintable character before it. */
  function CommentScan(src: string, i: nat): (r: Result<nat, nat>)
    requires i <= |src|
    ensures r.Ok? ==> i <= r.value <= |src|
    ensures r.Err? ==> i <= r.error < |src| && !IsPrintable(src[r.error])
    decreases |src| - i
  {
    if i < |src| && src[i] != '\r' && src[i] != '\n' then
      if !IsPrintable(src[i]) then Err(i) else CommentScan(src, i + 1)
    else Ok(i)
  }

  function Spaces(n: nat): (s: string)
    ensures |s| == n
  {
    seq(n, _ => ' ')
  }

  /** The rule for a run of two or more spaces starting at `i`. */
  function IndentationRule(src: string, i: nat): (r: Result<(Token, nat), TokenizerError>)
    requires i + 1 < |src| && src[i] == ' ' && src[i + 1] == ' '
    ensures r.Ok? ==> i < r.value.1 <= |src|
  {
    var j := SpaceRunEnd(src, i);
    if (j - i) % SPACES_PER_INDENT != 0 then Err(BadIndentation(j - i, CharacterLineNumber(src, j)))
    else Ok((Token(IndentationToken, Spaces(j - i)), j))
  }

  /** The rule for a string literal whose opening quote is at `i`. */
  function StringRule(src: string, i: nat): (r: Result<(Token, nat), TokenizerError>)
    requires i < |src| && src[i] == '"'
    ensures r.Ok? ==> i < r.value.1 <= |src|
  {
    var j := StringEnd(src, i + 1);
    if j >= |src| then Err(UnclosedString(CharacterLineNumber(src, i + 1)))
    else Ok((Token(StringToken, src[i + 1..j]), j + 1))
  }

  /** The rule for a word starting at `i`. */
  function WordRule(src: string, i: nat): (r: (Token, nat))
    requires i < |src| && (IsAlpha(src[i]) || src[i] == '_')
    ensures i < r.1 <= |src|
  {
    var j := WordEnd(src, i);
    (Token(WordToken, src[i..j]), j)
  }

  /** The rule for a number whose first digit is at `i`. */
  function NumberRule(src: string, i: nat): (r: Result<(Token, nat), TokenizerError>)
    requires i < |src| && IsDigit(src[i])
    ensures r.Ok? ==> i < r.value.1 <= |src|
  {
    match NumberScan(src, i + 1, false)
    case Err(k) => Err(TwoPeriodsInNumber(CharacterLineNumber(src, k)))
    case Ok(j) =>
      if src[j - 1] == '.' then Err(MissingDigitAfterPeriod(src[i..j]))
      else Ok((Token(NumberToken, src[i..j]), j))
  }

  /** The rule for a comment whose `#` is at `i`. */
  function CommentRule(src: string, i: nat): (r: Result<(Token, nat), TokenizerError>)
    requires i < |src| && src[i] == '#'
    ensures r.Ok? ==> i < r.value.1 <= |src|
  {
    if i + 1 >= |src| || src[i + 1] != ' ' then Err(MissingSpaceAfterHash(CharacterLineNumber(src, i + 1)))
    else
      match CommentScan(src, i + 2)
      case Err(k) => Err(UnprintableInComment(CharacterLineNumber(src, k + 1)))
      case Ok(j) =>
        if j == i + 2 then Err(EmptyComment(CharacterLineNumber(src, j)))
        else if IsSpace(src[j - 1]) then Err(CommentTrailingWhitespace(CharacterLineNumber(src, j)))
        else Ok((Token(CommentToken, src[i + 2..j]), j))
  }

  /** The single- and two-character rules, tried in the source's order. */
  function OperatorAt(src: string, i: nat): Option<Token>
    requires i < |src|
  {
    var c := src[i];
    if c == '(' then Some(Token(OpenParenthesisToken, "("))
    else if c == ')' then Some(Token(CloseParenthesisToken, ")"))
    else if c == '{' then Some(Token(OpenBraceToken, "{"))
    else if c == '}' then Some(Token(CloseBraceToken, "}"))
    else if c == '+' then Some(Token(PlusToken, "+"))
    else if c == '-' then Some(Token(MinusToken, "-"))
    else if c == '*' then Some(Token(MultiplicationToken, "*"))
    else if c == '/' then Some(Token(DivisionToken, "/"))
    else if c == ',' then Some(Token(CommaToken, ","))
    else if c == ':' then Some(Token(ColonToken, ":"))
    else if c == '\n' then Some(Token(NewlineToken, "\n"))
    else if c == '=' && i + 1 < |src| && src[i + 1] == '=' then Some(Token(EqualsToken, "=="))
    else if c == '!' && i + 1 < |src| && src[i + 1] == '=' then Some(Token(NotEqualsToken, "!="))
    else if c == '=' then Some(Token(AssignmentToken, "="))
    else if c == '>' && i + 1 < |src| && src[i + 1] == '=' then Some(Token(GreaterOrEqualToken, ">="))
    else if c == '>' then Some(Token(GreaterToken, ">"))
    else if c == '<' && i + 1 < |src| && src[i + 1] == '=' then Some(Token(LessOrEqualToken, "<="))
    else if c == '<' then Some(Token(LessToken, "<"))
    else None
  }

  /** The rule that applies at position `i`: the token it produces and the
      position after it, or the error it raises. */
  function Scan(src: string, i: nat): (r: Result<(Token, nat), TokenizerError>)
    requires i < |src|
    ensures r.Ok? ==> i < r.value.1 <= |src|
  {
    var c := src[i];
    if OperatorAt(src, i).Some? then
      var t := OperatorAt(src, i).value;
      Ok((t, i + |t.value|))
    else if KeywordAt(src, i).Some? then
      var t := KeywordAt(src, i).value;
      Ok((t, i + |t.value|))
    else if c == ' ' then
      if i + 1 >= |src| || src[i + 1] != ' ' then Ok((Token(SpaceToken, " "), i + 1))
      else IndentationRule(src, i)
    else if c == '"' then StringRule(src, i)
    else if IsAlpha(c) || c == '_' then Ok(WordRule(src, i))
    else if IsDigit(c) then NumberRule(src, i)
    else if c == '#' then CommentRule(src, i)
    else Err(UnrecognizedCharacter(c, CharacterLineNumber(src, i + 1)))
  }

  /** Prefixes already produced tokens to the outcome of the rest of the scan. */
  function Prepend(ts: seq<Token>, r: Result<seq<Token>, TokenizerError>): Result<seq<Token>, TokenizerError> {
    match r
    case Ok(rest) => Ok(ts + rest)
    case Err(e) => Err(e)
  }

  /** The tokens of `src[i..]`, or the first error. */
  function TokenizeFrom(src: string, i: nat): (r: Result<seq<Token>, TokenizerError>)
    requires i <= |src|
    decreases |src| - i
    // every token consumes at least one character
    ensures r.Ok? ==> |r.value| <= |src| - i
  {
    if i == |src| then Ok([])
    else
      match Scan(src, i)
      case Err(e) => Err(e)
      case Ok((t, j)) => Prepend([t], TokenizeFrom(src, j))
  }

  lemma PrependAssoc(a: seq<Token>, b: seq<Token>, r: Result<seq<Token>, TokenizerError>)
    ensures Prepend(a, Prepend(b, r)) == Prepend(a + b, r)
  {
    if r.Ok? {
      assert a + (b + r.value) == (a + b) + r.value;
    }
  }

  /** One step of the scan: the tokens from `i` are the token the rule at `i`
      yields, then the tokens from where that rule stopped. */
  lemma ScanStep(src: string, i: nat, t: Token, j: nat, done: seq<Token>)
    requires i < |src| && Scan(src, i) == Ok((t, j))
    ensures j <= |src|
    ensures Prepend(done, TokenizeFrom(src, i)) == Prepend(done + [t], TokenizeFrom(src, j))
  {
    PrependAssoc(done, [t], TokenizeFrom(src, j));
  }

  /** The inner loop over a run of spaces (two or more). */
  method ScanIndentation(src: string, i0: nat) returns (r: Result<(Token, nat), TokenizerError>)
    requires i0 + 1 < |src| && src[i0] == ' ' && src[i0 + 1] == ' '
    ensures r == IndentationRule(src, i0)
  {
    var i := i0;
    while i < |src| && src[i] == ' '
      invariant i0 <= i <= |src|
      invariant SpaceRunEnd(src, i) == SpaceRunEnd(src, i0)
      decreases |src| - i
    {
      i := i + 1;
    }
    var spaces := i - i0;
    if spaces % SPACES_PER_INDENT != 0 {
      var line := GetCharacterLineNumber(src, i);
      return Err(BadIndentation(spaces, line));
    }
    r := Ok((Token(IndentationToken, seq(spaces, _ => ' ')), i));
  }

  /** The inner loop over a string literal. */
  method ScanString(src: string, i0: nat) returns (r: Result<(Token, nat), TokenizerError>)
    requires i0 < |src| && src[i0] == '"'
    ensures r == StringRule(src, i0)
  {
    var openQuoteIndex := i0;
    var i := i0 + 1;
    var start := i;
    while i < |src| && src[i] != '"'
      invariant start <= i <= |src|
      invariant StringEnd(src, i) == StringEnd(src, start)
      decreases |src| - i
    {
      i := i + 1;
    }
    if i >= |src| {
      var line := GetCharacterLineNumber(src, openQuoteIndex + 1);
      return Err(UnclosedString(line));
    }
    r := Ok((Token(StringToken, src[start..i]), i + 1));
  }

  /** The inner loop over a word. */
  method ScanWord(src: string, i0: nat) returns (t: Token, i: nat)
    requires i0 < |src| && (IsAlpha(src[i0]) || src[i0] == '_')
    ensures (t, i) == WordRule(src, i0)
  {
    i := i0;
    while i < |src| && (IsAlnum(src[i]) || src[i] == '_')
      invariant i0 <= i <= |src|
      invariant WordEnd(src, i) == WordEnd(src, i0)
      decreases |src| - i
    {
      i := i + 1;
    }
    t := Token(WordToken, src[i0..i]);
  }

  /** The inner loop over a number, with its `seen_period` flag. */
  method ScanNumber(src: string, i0: nat) returns (r: Result<(Token, nat), TokenizerError>)
    requires i0 < |src| && IsDigit(src[i0])
    ensures r == NumberRule(src, i0)
  {
    var start := i0;
    var seenPeriod := false;
    var i := i0 + 1;
    while i < |src| && (IsDigit(src[i]) || src[i] == '.')
      invariant start < i <= |src|
      invariant NumberScan(src, i, seenPeriod) == NumberScan(src, start + 1, false)
      decreases |src| - i
    {
      if src[i] == '.' {
        if seenPeriod {
          var line := GetCharacterLineNumber(src, i);
          return Err(TwoPeriodsInNumber(line));
        }
        seenPeriod := true;
      }
      i := i + 1;
    }
    if src[i - 1] == '.' {
      return Err(MissingDigitAfterPeriod(src[start..i]));
    }
    r := Ok((Token(NumberToken, src[start..i]), i));
  }

  /** The inner loop over a comment. */
  method ScanComment(src: string, i0: nat) returns (r: Result<(Token, nat), TokenizerError>)
    requires i0 < |src| && src[i0] == '#'
    ensures r == CommentRule(src, i0)
  {
    var i := i0 + 1;
    if i >= |src| || src[i] != ' ' {
      var line := GetCharacterLineNumber(src, i);
      return Err(MissingSpaceAfterHash(line));
    }
    i := i + 1;
    var start := i;
    while i < |src| && src[i] != '\r' && src[i] != '\n'
      invariant start <= i <= |src|
      invariant CommentScan(src, i) == CommentScan(src, start)
      decreases |src| - i
    {
      if !IsPrintable(src[i]) {
        var line := GetCharacterLineNumber(src, i + 1);
        return Err(UnprintableInComment(line));
      }
      i := i + 1;
    }
    var commentLen := i - start;
    if commentLen == 0 {
      var line := GetCharacterLineNumber(src, i);
      return Err(EmptyComment(line));
    }
    if IsSpace(src[i - 1]) {
      var line := GetCharacterLineNumber(src, i);
      return Err(CommentTrailingWhitespace(line));
    }
    r := Ok((Token(CommentToken, src[start..i]), i));
  }

  /** The punctuation branches of `tokenize`'s loop, in its order. */
  method ScanOperator(src: string, i: nat) returns (op: Option<Token>)
    requires i < |src|
    ensures op == OperatorAt(src, i)
  {
    var c := src[i];
    if c == '(' {
      op := Some(Token(OpenParenthesisToken, [c]));
    } else if c == ')' {
      op := Some(Token(CloseParenthesisToken, [c]));
    } else if c == '{' {
      op := Some(Token(OpenBraceToken, [c]));
    } else if c == '}' {
      op := Some(Token(CloseBraceToken, [c]));
    } else if c == '+' {
      op := Some(Token(PlusToken, [c]));
    } else if c == '-' {
      op := Some(Token(MinusToken, [c]));
    } else if c == '*' {
      op := Some(Token(MultiplicationToken, [c]));
    } else if c == '/' {
      op := Some(Token(DivisionToken, [c]));
    } else if c == ',' {
      op := Some(Token(CommaToken, [c]));
    } else if c == ':' {
      op := Some(Token(ColonToken, [c]));
    } else if c == '\n' {
      op := Some(Token(NewlineToken, [c]));
    } else if c == '=' && i + 1 < |src| && src[i + 1] == '=' {
      op := Some(Token(EqualsToken, "=="));
    } else if c == '!' && i + 1 < |src| && src[i + 1] == '=' {
      op := Some(Token(NotEqualsToken, "!="));
    } else if c == '=' {
      op := Some(Token(AssignmentToken, [c]));
    } else if c == '>' && i + 1 < |src| && src[i + 1] == '=' {
      op := Some(Token(GreaterOrEqualToken, ">="));
    } else if c == '>' {
      op := Some(Token(GreaterToken, ">"));
    } else if c == '<' && i + 1 < |src| && src[i + 1] == '=' {
      op := Some(Token(LessOrEqualToken, "<="));
    } else if c == '<' {
      op := Some(Token(LessToken, "<"));
    } else {
      op := None;
    }
  }

  /** One pass of `tokenize`'s loop: the branch for the character at `i`. */
  method ScanOne(src: string, i: nat) returns (step: Result<(Token, nat), TokenizerError>)
    requires i < |src|
    ensures step == Scan(src, i)
  {
    var c := src[i];
    var op := ScanOperator(src, i);
    if op.Some? {
      step := Ok((op.value, i + |op.value.value|));
    } else if KeywordAt(src, i).Some? {
      var t := KeywordAt(src, i).value;
      step := Ok((t, i + |t.value|));
    } else if c == ' ' {
      if i + 1 >= |src| || src[i + 1] != ' ' {
        step := Ok((Token(SpaceToken, " "), i + 1));
      } else {
        step := ScanIndentation(src, i);
      }
    } else if c == '"' {
      step := ScanString(src, i);
    } else if IsAlpha(c) || c == '_' {
      var t, j := ScanWord(src, i);
      step := Ok((t, j));
    } else if IsDigit(c) {
      step := ScanNumber(src, i);
    } else if c == '#' {
      step := ScanComment(src, i);
    } else {
      var line := GetCharacterLineNumber(src, i + 1);
      step := Err(UnrecognizedCharacter(c, line));
    }
  }

  /** `Tokenizer.tokenize`: the source's while loop over `i`, appending to
      `tokens`, one branch per character class; it returns exactly what the
      rules compute. */
  method Tokenize(src: string) returns (r: Result<seq<Token>, TokenizerError>)
    ensures r == TokenizeFrom(src, 0)
  {
    var tokens: seq<Token> := [];
    var i: nat := 0;
    if TokenizeFrom(src, 0).Ok? {
      assert [] + TokenizeFrom(src, 0).value == TokenizeFrom(src, 0).value;
    }
    while i < |src|
      invariant i <= |src|
      invariant TokenizeFrom(src, 0) == Prepend(tokens, TokenizeFrom(src, i))
      decreases |src| - i
    {
      var step := ScanOne(src, i);
      match step
      case Err(e) =>
        return Err(e);
      case Ok((t, j)) =>
        ScanStep(src, i, t, j, tokens);
        tokens := tokens + [t];
        i := j;
    }
    r := Ok(tokens);
    assert tokens + [] == tokens;
  }
}
