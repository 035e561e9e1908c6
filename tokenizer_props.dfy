/** What the tokenizer promises about the tokens it produces: they render back
    to the source text, each has the shape its rule allows, keywords and words
    are told apart at word boundaries, and line numbers count line breaks. */
module TokenizerProps {
  import opened Wrappers
  import opened CharClasses
  import opened Tokenizer

  // ---------------------------------------------------------------------------
  // Round trip
  // ---------------------------------------------------------------------------

  /** The source text a token was scanned from: a string token without its
      quotes and a comment without its `# ` are given them back. */
  function RenderToken(t: Token): string {
    match t.kind
    case StringToken => "\"" + t.value + "\""
    case CommentToken => "# " + t.value
    case _ => t.value
  }

  function Render(ts: seq<Token>): string {
    if ts == [] then "" else RenderToken(ts[0]) + Render(ts[1..])
  }

  lemma SpaceRunAllSpaces(src: string, i: nat)
    requires i <= |src|
    ensures forall k :: i <= k < SpaceRunEnd(src, i) ==> src[k] == ' '
    decreases |src| - i
  {
    if i < |src| && src[i] == ' ' {
      SpaceRunAllSpaces(src, i + 1);
    }
  }

  lemma StringEndIsQuote(src: string, i: nat)
    requires i <= |src|
    ensures StringEnd(src, i) < |src| ==> src[StringEnd(src, i)] == '"'
    ensures forall k :: i <= k < StringEnd(src, i) ==> src[k] != '"'
    decreases |src| - i
  {
    if i < |src| && src[i] != '"' {
      StringEndIsQuote(src, i + 1);
    }
  }

  /** Concatenating the rendered tokens gives back the text they came from. */
  lemma {:induction false} TokenizeFromRendersSuffix(src: string, i: nat)
    requires i <= |src| && TokenizeFrom(src, i).Ok?
    ensures Render(TokenizeFrom(src, i).value) == src[i..]
    decreases |src| - i
  {
    if i < |src| {
      var (t, j) := Scan(src, i).value;
      var rest := TokenizeFrom(src, j).value;
      TokenizeFromRendersSuffix(src, j);
      ScanRenders(src, i);
      assert TokenizeFrom(src, i).value == [t] + rest;
      RenderCons(t, rest);
      assert src[i..] == src[i..j] + src[j..];
    }
  }

  lemma RenderCons(t: Token, rest: seq<Token>)
    ensures Render([t] + rest) == RenderToken(t) + Render(rest)
  {
    assert ([t] + rest)[1..] == rest;
  }

  /** The token a rule yields renders back to the text the rule consumed. */
  lemma ScanRenders(src: string, i: nat)
    requires i < |src| && Scan(src, i).Ok?
    ensures RenderToken(Scan(src, i).value.0) == src[i..Scan(src, i).value.1]
  {
    ScanTokenFacts(src, i);
  }

  /** Tokenizing loses no text: a successful tokenization renders back to the
      whole source. */
  lemma TokenizeRoundTrip(src: string)
    requires TokenizeFrom(src, 0).Ok?
    ensures Render(TokenizeFrom(src, 0).value) == src
  {
    TokenizeFromRendersSuffix(src, 0);
    assert src[0..] == src;
  }

  // ---------------------------------------------------------------------------
  // Shape of each token
  // ---------------------------------------------------------------------------

  predicate AllWordChars(s: string) { forall k :: 0 <= k < |s| ==> IsWordChar(s[k]) }

  /** The value a token of a fixed-text kind always carries. */
  function FixedText(kind: TokenType): Option<string> {
    match kind
    case OpenParenthesisToken => Some("(")
    case CloseParenthesisToken => Some(")")
    case OpenBraceToken => Some("{")
    case CloseBraceToken => Some("}")
    case PlusToken => Some("+")
    case MinusToken => Some("-")
    case MultiplicationToken => Some("*")
    case DivisionToken => Some("/")
    case CommaToken => Some(",")
    case ColonToken => Some(":")
    case NewlineToken => Some("\n")
    case EqualsToken => Some("==")
    case NotEqualsToken => Some("!=")
    case AssignmentToken => Some("=")
    case GreaterOrEqualToken => Some(">=")
    case GreaterToken => Some(">")
    case LessOrEqualToken => Some("<=")
    case LessToken => Some("<")
    case AndToken => Some("and")
    case OrToken => Some("or")
    case NotToken => Some("not")
    case TrueToken => Some("true")
    case FalseToken => Some("false")
    case IfToken => Some("if")
    case ElseToken => Some("else")
    case WhileToken => Some("while")
    case BreakToken => Some("break")
    case ReturnToken => Some("return")
    case ContinueToken => Some("continue")
    case SpaceToken => Some(" ")
    case _ => None
  }

  function PeriodCount(s: string): nat {
    if s == [] then 0 else (if s[0] == '.' then 1 else 0) + PeriodCount(s[1..])
  }

  /** The shape the rules allow for each kind of token. */
  predicate WellFormed(t: Token) {
    match t.kind
    case IndentationToken =>
      |t.value| >= SPACES_PER_INDENT && |t.value| % SPACES_PER_INDENT == 0
      && forall k :: 0 <= k < |t.value| ==> t.value[k] == ' '
    case StringToken => forall k :: 0 <= k < |t.value| ==> t.value[k] != '"'
    case WordToken =>
      |t.value| > 0 && (IsAlpha(t.value[0]) || t.value[0] == '_')
      && AllWordChars(t.value) && !IsKeyword(t.value)
    case NumberToken =>
      |t.value| > 0 && IsDigit(t.value[0]) && t.value[|t.value| - 1] != '.'
      && (forall k :: 0 <= k < |t.value| ==> IsDigit(t.value[k]) || t.value[k] == '.')
      && PeriodCount(t.value) <= 1
    case CommentToken =>
      |t.value| > 0 && !IsSpace(t.value[|t.value| - 1])
      && forall k :: 0 <= k < |t.value| ==> IsPrintable(t.value[k])
    case _ => FixedText(t.kind) == Some(t.value)
  }

  lemma WordEndFacts(src: string, i: nat)
    requires i <= |src|
    ensures AllWordChars(src[i..WordEnd(src, i)])
    ensures IsEndOfWord(src, WordEnd(src, i))
    decreases |src| - i
  {
    if i < |src| && IsWordChar(src[i]) {
      WordEndFacts(src, i + 1);
      assert src[i..WordEnd(src, i)] == [src[i]] + src[i + 1..WordEnd(src, i)];
    }
  }

  /** A run of word characters ending at a word boundary is where the word
      scan stops. */
  lemma WordEndAt(src: string, i: nat, j: nat)
    requires i <= j <= |src|
    requires forall k :: i <= k < j ==> IsWordChar(src[k])
    requires IsEndOfWord(src, j)
    ensures WordEnd(src, i) == j
    decreases j - i
  {
    if i < j {
      WordEndAt(src, i + 1, j);
    }
  }

  lemma NumberScanFacts(src: string, i: nat, seen: bool)
    requires i <= |src|
    requires NumberScan(src, i, seen).Ok?
    ensures var j := NumberScan(src, i, seen).value;
      (forall k :: i <= k < j ==> IsDigit(src[k]) || src[k] == '.')
      && PeriodCount(src[i..j]) + (if seen then 1 else 0) <= 1
    decreases |src| - i
  {
    var j := NumberScan(src, i, seen).value;
    if i < |src| && (IsDigit(src[i]) || src[i] == '.') {
      NumberScanFacts(src, i + 1, seen || src[i] == '.');
      assert src[i..j][1..] == src[i + 1..j];
    }
  }

  lemma CommentScanFacts(src: string, i: nat)
    requires i <= |src|
    requires CommentScan(src, i).Ok?
    ensures forall k :: i <= k < CommentScan(src, i).value ==> IsPrintable(src[k])
    decreases |src| - i
  {
    if i < |src| && src[i] != '\r' && src[i] != '\n' {
      CommentScanFacts(src, i + 1);
    }
  }

  /** The punctuation rules consume their token's fixed text. */
  lemma OperatorRuleFacts(src: string, i: nat)
    requires i < |src| && OperatorAt(src, i).Some?
    ensures var t := OperatorAt(src, i).value;
      StartsWithAt(src, t.value, i) && RenderToken(t) == t.value && WellFormed(t)
  {
    var t := OperatorAt(src, i).value;
    if |t.value| == 2 {
      assert src[i..i + 2] == [src[i], src[i + 1]];
    }
  }

  lemma IndentationRuleFacts(src: string, i: nat)
    requires i + 1 < |src| && src[i] == ' ' && src[i + 1] == ' '
    requires IndentationRule(src, i).Ok?
    ensures var (t, j) := IndentationRule(src, i).value;
      RenderToken(t) == src[i..j] && WellFormed(t)
  {
    var (t, j) := IndentationRule(src, i).value;
    SpaceRunAllSpaces(src, i);
    assert SpaceRunEnd(src, i) == SpaceRunEnd(src, i + 2);
    assert t.value == src[i..j];
  }

  lemma StringRuleFacts(src: string, i: nat)
    requires i < |src| && src[i] == '"' && StringRule(src, i).Ok?
    ensures var (t, j) := StringRule(src, i).value;
      RenderToken(t) == src[i..j] && WellFormed(t)
  {
    var (t, j) := StringRule(src, i).value;
    StringEndIsQuote(src, i + 1);
    assert src[i..j] == [src[i]] + src[i + 1..j - 1] + [src[j - 1]];
  }

  lemma WordRuleFacts(src: string, i: nat)
    requires i < |src| && (IsAlpha(src[i]) || src[i] == '_') && KeywordAt(src, i).None?
    ensures var (t, j) := WordRule(src, i);
      RenderToken(t) == src[i..j] && WellFormed(t)
  {
    WordEndFacts(src, i);
    WordNotKeyword(src, i);
  }

  lemma NumberRuleFacts(src: string, i: nat)
    requires i < |src| && IsDigit(src[i]) && NumberRule(src, i).Ok?
    ensures var (t, j) := NumberRule(src, i).value;
      RenderToken(t) == src[i..j] && WellFormed(t)
  {
    var (t, j) := NumberRule(src, i).value;
    NumberScanFacts(src, i + 1, false);
    assert src[i..j][1..] == src[i + 1..j];
  }

  lemma CommentRuleFacts(src: string, i: nat)
    requires i < |src| && src[i] == '#' && CommentRule(src, i).Ok?
    ensures var (t, j) := CommentRule(src, i).value;
      RenderToken(t) == src[i..j] && WellFormed(t)
  {
    var (t, j) := CommentRule(src, i).value;
    CommentScanFacts(src, i + 2);
    assert src[i..j] == [src[i], src[i + 1]] + src[i + 2..j];
  }

  /** Every token a rule produces is well formed and renders to exactly the
      text the rule consumed. */
  lemma {:induction false} ScanTokenFacts(src: string, i: nat)
    requires i < |src| && Scan(src, i).Ok?
    ensures var (t, j) := Scan(src, i).value;
      RenderToken(t) == src[i..j] && WellFormed(t)
  {
    KeywordAtLower(src, i);
    var c := src[i];
    if OperatorAt(src, i).Some? {
      OperatorRuleFacts(src, i);
    } else if KeywordAt(src, i).Some? {
      KeywordAtFacts(src, i);
      var t := KeywordAt(src, i).value;
      assert RenderToken(t) == t.value;
    } else if c == ' ' {
      if i + 1 < |src| && src[i + 1] == ' ' {
        assert Scan(src, i) == IndentationRule(src, i);
        IndentationRuleFacts(src, i);
      }
    } else if c == '"' {
      assert Scan(src, i) == StringRule(src, i);
      StringRuleFacts(src, i);
    } else if IsAlpha(c) || c == '_' {
      assert Scan(src, i) == Ok(WordRule(src, i));
      WordRuleFacts(src, i);
    } else if IsDigit(c) {
      assert Scan(src, i) == NumberRule(src, i);
      NumberRuleFacts(src, i);
    } else if c == '#' {
      assert Scan(src, i) == CommentRule(src, i);
      CommentRuleFacts(src, i);
    }
  }

  /** What the keyword table holds: lower-case texts, each the fixed text of
      its kind. */
  lemma KeywordTableFacts()
    ensures forall m :: 0 <= m < |KeywordTable| ==>
      && |KeywordTable[m].1| > 0
      && (forall c :: 0 <= c < |KeywordTable[m].1| ==> IsLower(KeywordTable[m].1[c]))
      && FixedText(KeywordTable[m].0) == Some(KeywordTable[m].1)
  {
    forall m | 0 <= m < |KeywordTable|
      ensures |KeywordTable[m].1| > 0
      ensures forall c :: 0 <= c < |KeywordTable[m].1| ==> IsLower(KeywordTable[m].1[c])
      ensures FixedText(KeywordTable[m].0) == Some(KeywordTable[m].1)
    {
      if m == 0 {} else if m == 1 {} else if m == 2 {} else if m == 3 {} else if m == 4 {}
      else if m == 5 {} else if m == 6 {} else if m == 7 {} else if m == 8 {} else if m == 9 {}
      else {}
    }
  }

  /** A keyword rule that fires is a table entry from `k` on whose text is at
      `i` and followed by a word boundary; `m` is its index. */
  lemma {:induction false} KeywordFromIndex(src: string, i: nat, k: nat) returns (m: nat)
    requires k <= |KeywordTable| && KeywordFrom(src, i, k).Some?
    ensures k <= m < |KeywordTable|
    ensures KeywordTable[m] == (KeywordFrom(src, i, k).value.kind, KeywordFrom(src, i, k).value.value)
    ensures StartsWithAt(src, KeywordTable[m].1, i) && IsEndOfWord(src, i + |KeywordTable[m].1|)
    decreases |KeywordTable| - k
  {
    var w := KeywordTable[k].1;
    if StartsWithAt(src, w, i) && IsEndOfWord(src, i + |w|) {
      m := k;
    } else {
      m := KeywordFromIndex(src, i, k + 1);
    }
  }

  /** When no keyword rule fires, no table entry from `k` on is at `i` with a
      word boundary after it. */
  /** No keyword rule from entry `k` on matches at `i`. */
  predicate NoKeywordMatchFrom(src: string, i: nat, k: nat)
    requires k <= |KeywordTable|
  {
    forall m :: k <= m < |KeywordTable| ==>
      !(StartsWithAt(src, KeywordTable[m].1, i) && IsEndOfWord(src, i + |KeywordTable[m].1|))
  }

  lemma {:induction false} KeywordFromNone(src: string, i: nat, k: nat)
    requires k <= |KeywordTable| && KeywordFrom(src, i, k).None?
    ensures NoKeywordMatchFrom(src, i, k)
    decreases |KeywordTable| - k
  {
    if k < |KeywordTable| {
      KeywordFromNone(src, i, k + 1);
    }
  }

  /** A keyword token carries its keyword's text, starts with a lower-case
      letter and ends at a word boundary. */
  lemma KeywordAtFacts(src: string, i: nat)
    requires KeywordAt(src, i).Some?
    ensures var t := KeywordAt(src, i).value;
      && IsKeyword(t.value) && FixedText(t.kind) == Some(t.value)
      && StartsWithAt(src, t.value, i) && IsEndOfWord(src, i + |t.value|)
      && i < |src| && IsLower(src[i])
      && forall k :: i <= k < i + |t.value| ==> IsWordChar(src[k])
  {
    var m := KeywordFromIndex(src, i, 0);
    KeywordTableFacts();
    var t := KeywordAt(src, i).value;
    assert t.value == KeywordTable[m].1;
    forall k | i <= k < i + |t.value| ensures IsWordChar(src[k]) {
      assert src[k] == t.value[k - i];
      assert IsLower(KeywordTable[m].1[k - i]);
    }
    assert src[i] == t.value[0];
    assert IsLower(KeywordTable[m].1[0]);
  }

  /** Only a lower-case letter can start a keyword. */
  lemma KeywordAtLower(src: string, i: nat)
    ensures KeywordAt(src, i).Some? ==> i < |src| && IsLower(src[i])
  {
    if KeywordAt(src, i).Some? {
      KeywordAtFacts(src, i);
    }
  }

  /** At a letter or `_`, no punctuation rule applies: the rule is a keyword
      rule or the word rule. */
  lemma ScanAtWordStart(src: string, i: nat)
    requires i < |src| && (IsAlpha(src[i]) || src[i] == '_')
    ensures KeywordAt(src, i).Some? ==>
      Scan(src, i) == Ok((KeywordAt(src, i).value, i + |KeywordAt(src, i).value.value|))
    ensures KeywordAt(src, i).None? ==> Scan(src, i) == Ok(WordRule(src, i))
  {
    assert OperatorAt(src, i).None?;
  }

  /** The word rule only applies where no keyword rule did, so a word token
      is never a keyword. */
  lemma WordNotKeyword(src: string, i: nat)
    requires i < |src| && (IsAlpha(src[i]) || src[i] == '_') && KeywordAt(src, i).None?
    ensures !IsKeyword(src[i..WordEnd(src, i)])
  {
    WordEndBoundary(src, i);
    KeywordFromNone(src, i, 0);
    UnmatchedNotKeyword(src, i, WordEnd(src, i));
  }

  /** The text from `i` to a word boundary `j`, where no keyword rule
      matches, is not a keyword. */
  lemma UnmatchedNotKeyword(src: string, i: nat, j: nat)
    requires i <= j <= |src| && IsEndOfWord(src, j)
    requires NoKeywordMatchFrom(src, i, 0)
    ensures !IsKeyword(src[i..j])
  {
    var w := src[i..j];
    assert StartsWithAt(src, w, i) && i + |w| == j;
  }

  /** `WordEnd` stops at a word boundary. */
  lemma {:induction false} WordEndBoundary(src: string, i: nat)
    requires i <= |src|
    ensures IsEndOfWord(src, WordEnd(src, i))
    decreases |src| - i
  {
    if i < |src| && IsWordChar(src[i]) {
      WordEndBoundary(src, i + 1);
    }
  }

  /** Every token of a successful tokenization is well formed. */
  lemma {:induction false} TokenizeFromWellFormed(src: string, i: nat)
    requires i <= |src| && TokenizeFrom(src, i).Ok?
    ensures forall k :: 0 <= k < |TokenizeFrom(src, i).value| ==> WellFormed(TokenizeFrom(src, i).value[k])
    decreases |src| - i
  {
    if i < |src| {
      var (t, j) := Scan(src, i).value;
      ScanTokenFacts(src, i);
      TokenizeFromWellFormed(src, j);
      assert TokenizeFrom(src, i).value == [t] + TokenizeFrom(src, j).value;
    }
  }

  // ---------------------------------------------------------------------------
  // The individual rules
  // ---------------------------------------------------------------------------

  /** Each one-character punctuation mark, and the newline, is one token of
      its kind holding that character. */
  lemma SingleCharacterTokens(src: string, i: nat)
    requires i < |src| && src[i] in "(){}+-*/,:\n"
    ensures Scan(src, i).Ok? && Scan(src, i).value.1 == i + 1
    ensures Scan(src, i).value.0.value == [src[i]]
    ensures FixedText(Scan(src, i).value.0.kind) == Some([src[i]])
  {
  }

  /** `==`, `!=`, `>=` and `<=` are matched before `=`, `>` and `<`. */
  lemma TwoCharacterOperatorsFirst(src: string, i: nat)
    requires i + 1 < |src| && src[i] in "=!><" && src[i + 1] == '='
    ensures Scan(src, i) == Ok((Token(Scan(src, i).value.0.kind, src[i..i + 2]), i + 2))
    ensures Scan(src, i).value.0.kind in {EqualsToken, NotEqualsToken, GreaterOrEqualToken, LessOrEqualToken}
  {
    assert src[i..i + 2] == [src[i], src[i + 1]];
  }

  /** A `!` not followed by `=` is an unrecognized character. */
  lemma LoneBangIsError(src: string, i: nat)
    requires i < |src| && src[i] == '!' && (i + 1 == |src| || src[i + 1] != '=')
    ensures Scan(src, i) == Err(UnrecognizedCharacter('!', CharacterLineNumber(src, i + 1)))
  {
    KeywordAtLower(src, i);
  }

  /** At a letter or `_`, the rule takes the whole word; it is a keyword token
      exactly when that word is one of the keywords, and a word token
      otherwise. */
  lemma KeywordOrWord(src: string, i: nat)
    requires i < |src| && (IsAlpha(src[i]) || src[i] == '_')
    ensures Scan(src, i).Ok?
    ensures Scan(src, i).value.1 == WordEnd(src, i)
    ensures Scan(src, i).value.0.value == src[i..WordEnd(src, i)]
    ensures Scan(src, i).value.0.kind == WordToken <==> !IsKeyword(src[i..WordEnd(src, i)])
  {
    ScanAtWordStart(src, i);
    WordEndFacts(src, i);
    if KeywordAt(src, i).Some? {
      KeywordSpansWord(src, i);
    } else {
      WordNotKeyword(src, i);
    }
  }

  /** A keyword rule that fires takes exactly the word at `i`, and its token
      is not a word token. */
  lemma KeywordSpansWord(src: string, i: nat)
    requires KeywordAt(src, i).Some?
    ensures var t := KeywordAt(src, i).value;
      && WordEnd(src, i) == i + |t.value| && src[i..WordEnd(src, i)] == t.value
      && t.kind != WordToken && IsKeyword(t.value)
  {
    var t := KeywordAt(src, i).value;
    KeywordAtFacts(src, i);
    var j := i + |t.value|;
    assert forall k :: i <= k < j ==> IsWordChar(src[k]);
    WordEndAt(src, i, j);
  }

  /** A single space is a space token; a run of two or more is one
      indentation token holding the whole run, an error unless its length is a
      multiple of four. */
  lemma SpacesRule(src: string, i: nat)
    requires i < |src| && src[i] == ' '
    ensures i + 1 == |src| || src[i + 1] != ' ' ==> Scan(src, i) == Ok((Token(SpaceToken, " "), i + 1))
    ensures i + 1 < |src| && src[i + 1] == ' ' ==>
      var j := SpaceRunEnd(src, i);
      && i + 2 <= j
      && (j == |src| || src[j] != ' ')
      && (forall k :: i <= k < j ==> src[k] == ' ')
      && (Scan(src, i).Ok? <==> (j - i) % SPACES_PER_INDENT == 0)
      && (Scan(src, i).Ok? ==> Scan(src, i).value == (Token(IndentationToken, src[i..j]), j))
  {
    KeywordAtLower(src, i);
    if i + 1 < |src| && src[i + 1] == ' ' {
      var j := SpaceRunEnd(src, i);
      SpaceRunAllSpaces(src, i);
      SpaceRunStops(src, i);
      assert SpaceRunEnd(src, i) == SpaceRunEnd(src, i + 2);
      if (j - i) % SPACES_PER_INDENT == 0 {
        assert Spaces(j - i) == src[i..j];
      }
    }
  }

  lemma SpaceRunStops(src: string, i: nat)
    requires i <= |src|
    ensures SpaceRunEnd(src, i) == |src| || src[SpaceRunEnd(src, i)] != ' '
    decreases |src| - i
  {
    if i < |src| && src[i] == ' ' {
      SpaceRunStops(src, i + 1);
    }
  }

  /** A string token holds exactly the characters between its quotes, and a
      string without a closing quote is an error. */
  lemma StringLiteralRule(src: string, i: nat)
    requires i < |src| && src[i] == '"'
    ensures Scan(src, i).Ok? <==> exists k :: i < k < |src| && src[k] == '"'
    ensures Scan(src, i).Ok? ==>
      var j := Scan(src, i).value.1;
      && src[j - 1] == '"'
      && Scan(src, i).value.0 == Token(StringToken, src[i + 1..j - 1])
      && (forall k :: i < k < j - 1 ==> src[k] != '"')
    ensures Scan(src, i).Err? ==> Scan(src, i) == Err(UnclosedString(CharacterLineNumber(src, i + 1)))
  {
    KeywordAtLower(src, i);
    assert Scan(src, i) == StringRule(src, i);
    StringEndIsQuote(src, i + 1);
    var e := StringEnd(src, i + 1);
    if e < |src| {
      assert i < e < |src| && src[e] == '"';
    }
  }

  // ---------------------------------------------------------------------------
  // Line numbers
  // ---------------------------------------------------------------------------

  /** The examples of `get_character_line_number`'s own documentation. */
  lemma LineNumberExamples()
    ensures CharacterLineNumber("", 0) == 1
    ensures CharacterLineNumber("a", 0) == 1
    ensures CharacterLineNumber("ab", 1) == 1
    ensures CharacterLineNumber("\n", 0) == 1
    ensures CharacterLineNumber("\na", 1) == 2
    ensures CharacterLineNumber("\n\n", 1) == 2
  {
  }

  /** Later positions never lie on earlier lines. */
  lemma {:induction false} LineNumberMonotonic(src: string, a: nat, b: nat)
    requires a <= b <= |src|
    ensures CharacterLineNumber(src, a) <= CharacterLineNumber(src, b)
    decreases b - a
  {
    if a < b {
      LineNumberMonotonic(src, a, b - 1);
    }
  }

  /** The line number goes up by one at a newline and stays put at any
      character that is neither a newline nor a `\r` before one. */
  lemma LineNumberStep(src: string, k: nat)
    requires k < |src|
    ensures src[k] == '\n' ==> CharacterLineNumber(src, k + 1) == CharacterLineNumber(src, k) + 1
    ensures src[k] != '\n' && src[k] != '\r' ==> CharacterLineNumber(src, k + 1) == CharacterLineNumber(src, k)
  {
  }

  /** A Windows line ending is counted twice: its `\r` (followed by `\n`) and
      its `\n` each end a line. */
  lemma CrLfCountsTwice()
    ensures CharacterLineNumber("\r\na", 2) == 3
    ensures CharacterLineNumber("\ra", 1) == 1
  {
  }
}
