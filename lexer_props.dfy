/** Properties of the lexer of src/lexer.rs, stated over the functions of LexerSpec
    (which the class in lexer.dfy is proved to compute). */
module LexerProperties {
  import opened Wrappers
  import opened Tokens
  import opened LexerSpec

  // ---------------------------------------------------------------------------
  // Positions: `LocAt` against an independent description of lines and columns.

  /** The number of newlines in `s`. */
  function NewlineCount(s: seq<char>): nat {
    if s == [] then 0 else NewlineCount(s[..|s| - 1]) + (if s[|s| - 1] == '\n' then 1 else 0)
  }

  /** The index where the line holding index `k` starts: just after the last newline
      before `k`, or 0 on the first line. */
  function LineStart(src: seq<char>, k: nat): (b: nat)
    requires k <= |src|
    ensures b <= k
    ensures b == 0 || src[b - 1] == '\n'
    ensures forall m :: b <= m < k ==> src[m] != '\n'
  {
    if k == 0 then 0 else if src[k - 1] == '\n' then k else LineStart(src, k - 1)
  }

  /** The location of index `k` is line 1 + (newlines before `k`), and its column is
      1 + (characters between the start of its line and `k`). */
  lemma {:induction false} LocAtCounts(src: seq<char>, k: nat)
    requires k <= |src|
    ensures LocAt(src, k).line == 1 + NewlineCount(src[..k])
    ensures LocAt(src, k).col == 1 + k - LineStart(src, k)
  {
    if k > 0 {
      LocAtCounts(src, k - 1);
      assert src[..k][..k - 1] == src[..k - 1];
    }
  }

  /** Strictly earlier in the text: an earlier line, or the same line and an earlier column. */
  predicate Before(a: Loc, b: Loc) {
    a.line < b.line || (a.line == b.line && a.col < b.col)
  }

  predicate AtOrBefore(a: Loc, b: Loc) {
    a == b || Before(a, b)
  }

  /** Consuming characters always moves the cursor forward in (line, column) order. */
  lemma {:induction false} LocAtIncreasing(src: seq<char>, i: nat, j: nat)
    requires i < j <= |src|
    ensures Before(LocAt(src, i), LocAt(src, j))
    decreases j
  {
    if i < j - 1 {
      LocAtIncreasing(src, i, j - 1);
    }
  }

  lemma LocAtMonotone(src: seq<char>, i: nat, j: nat)
    requires i <= j <= |src|
    ensures AtOrBefore(LocAt(src, i), LocAt(src, j))
  {
    if i < j {
      LocAtIncreasing(src, i, j);
    }
  }

  // ---------------------------------------------------------------------------
  // Spans and order of the tokens.

  /** The k-th token of a lexeme list spans the locations of its lexeme's indices. */
  lemma {:induction false} ToTokensAt(src: seq<char>, ls: seq<Lexeme>, k: nat)
    requires forall m :: 0 <= m < |ls| ==> ls[m].from <= ls[m].to <= |src|
    requires k < |ls|
    ensures ToTokens(src, ls)[k] == Token(LocAt(src, ls[k].from), LocAt(src, ls[k].to), ls[k].value)
    decreases |ls|
  {
    if k < |ls| - 1 {
      var init := ls[..|ls| - 1];
      assert init[k] == ls[k];
      ToTokensAt(src, init, k);
    }
  }

  /** Every lexeme of a successful scan from `i` is what one `scan_token` call at its
      start emits. */
  lemma {:induction false} LexemesAreScans(src: seq<char>, i: nat)
    requires i <= |src| && Lexemes(src, i).Success?
    ensures forall k :: 0 <= k < |Lexemes(src, i).value| ==>
      var l := Lexemes(src, i).value[k];
      l.from < |src| && ScanAt(src, l.from) == Success(Emit(l.value, l.to))
    decreases |src| - i
  {
    if i < |src| {
      var s := ScanAt(src, i).value;
      LexemesAreScans(src, s.next);
      var rest := Lexemes(src, s.next).value;
      assert Lexemes(src, i).value == LexemesOf(i, s) + rest;
    }
  }

  /** The tokens of a successful lex: each one is what `scan_token` emits at the index
      where its lexeme starts, its start is the location of that index and its end the
      location after its last character; each token starts before it ends, and each
      ends no later than the next one starts. */
  lemma TokensInSourceOrder(src: seq<char>)
    requires Tokenize(src).Success?
    ensures var ts := Tokenize(src).value; var ls := Lexemes(src, 0).value;
      && |ts| == |ls|
      && (forall k :: 0 <= k < |ts| ==>
            && ls[k].from < ls[k].to <= |src|
            && ScanAt(src, ls[k].from) == Success(Emit(ts[k].value, ls[k].to))
            && ts[k].start == LocAt(src, ls[k].from) && ts[k].end == LocAt(src, ls[k].to)
            && Before(ts[k].start, ts[k].end))
      && (forall k :: 0 <= k < |ts| - 1 ==> AtOrBefore(ts[k].end, ts[k + 1].start))
  {
    var ls := Lexemes(src, 0).value;
    var ts := Tokenize(src).value;
    LexemesAreScans(src, 0);
    forall k | 0 <= k < |ts|
      ensures ts[k] == Token(LocAt(src, ls[k].from), LocAt(src, ls[k].to), ls[k].value)
      ensures Before(ts[k].start, ts[k].end)
    {
      ToTokensAt(src, ls, k);
      LocAtIncreasing(src, ls[k].from, ls[k].to);
    }
    forall k | 0 <= k < |ts| - 1
      ensures AtOrBefore(ts[k].end, ts[k + 1].start)
    {
      ToTokensAt(src, ls, k);
      ToTokensAt(src, ls, k + 1);
      LocAtMonotone(src, ls[k].to, ls[k + 1].from);
    }
  }

  // ---------------------------------------------------------------------------
  // What a single `scan_token` call skips, and what it rejects.

  predicate IsWhitespace(c: char) {
    c == ' ' || c == '\r' || c == '\t' || c == '\n'
  }

  /** `w` occurs in `src` at index `i`. */
  predicate StartsWith(src: seq<char>, i: nat, w: string) {
    i + |w| <= |src| && forall m :: 0 <= m < |w| ==> src[i + m] == w[m]
  }

  /** First characters of the punctuation arms of `scan_token`. */
  predicate IsPunctuationChar(c: char) {
    c == '(' || c == ')' || c == '{' || c == '}' || c == ',' || c == '.' || c == ';' || c == ':'
  }

  /** First characters of its arithmetic operator arms. */
  predicate IsArithmeticChar(c: char) {
    c == '+' || c == '-' || c == '*' || c == '/' || c == '%'
  }

  /** First characters of its remaining operator arms. */
  predicate IsOperatorChar(c: char) {
    c == '=' || c == '!' || c == '<' || c == '>' || c == '&' || c == '|' || c == '~' || c == '^'
  }

  predicate IsSymbolChar(c: char) {
    IsPunctuationChar(c) || IsArithmeticChar(c) || IsOperatorChar(c)
  }

  /** The characters some arm of `scan_token` accepts as the first of a lexeme. */
  predicate StartsLexeme(c: char) {
    IsSymbolChar(c) || c == '"' || IsWhitespace(c) || IsDigit(c) || IsAlpha(c)
  }

  /** A `//` comment is skipped up to, and not including, the next newline or the end
      of the input. */
  lemma LineComment(src: seq<char>, i: nat)
    requires i < |src| && StartsWith(src, i, "//")
    ensures ScanAt(src, i).Success? && ScanAt(src, i).value.Skip?
    ensures var j := ScanAt(src, i).value.next;
      && i + 2 <= j <= |src|
      && (forall m :: i + 2 <= m < j ==> src[m] != '\n')
      && (j == |src| || src[j] == '\n')
  {
    assert "//"[0] == '/' && "//"[1] == '/';
  }

  /** A scan emits nothing exactly on whitespace, which it skips one character at a time,
      and on a `//` comment. */
  lemma SkipsAreBlanks(src: seq<char>, i: nat)
    requires i < |src|
    ensures (ScanAt(src, i).Success? && ScanAt(src, i).value.Skip?)
        <==> IsWhitespace(src[i]) || StartsWith(src, i, "//")
    ensures IsWhitespace(src[i]) ==> ScanAt(src, i) == Success(Skip(i + 1))
  {
    if StartsWith(src, i, "//") {
      LineComment(src, i);
    }
  }

  /** A scan fails with "Unexpected character" exactly on a character no arm accepts,
      and reports the location of that character. */
  lemma UnexpectedCharacterOnly(src: seq<char>, i: nat)
    requires i < |src|
    ensures (ScanAt(src, i).Failure? && ScanAt(src, i).error.UnexpectedCharacter?) <==> !StartsLexeme(src[i])
    ensures !StartsLexeme(src[i]) ==> ScanAt(src, i) == Failure(UnexpectedCharacter(LocAt(src, i)))
  {
  }

  // ---------------------------------------------------------------------------
  // Maximal munch over punctuation and operators.

  /** The text of each punctuation and operator token; empty for literals, keywords
      and `EOF`, which have no fixed spelling. */
  function Spelling(v: TokenValue): string {
    match v
    case LeftParen => "("
    case RightParen => ")"
    case LeftBrace => "{"
    case RightBrace => "}"
    case Comma => ","
    case Dot => "."
    case Colon => ":"
    case ColonColon => "::"
    case Semicolon => ";"
    case Plus => "+"
    case Minus => "-"
    case Star => "*"
    case Slash => "/"
    case Mod => "%"
    case LogNot => "!"
    case BitNot => "~"
    case LogAnd => "&&"
    case BitAnd => "&"
    case LogOr => "||"
    case BitOr => "|"
    case BitXor => "^"
    case LeftShift => "<<"
    case RightShift => ">>"
    case Equal => "="
    case PlusEqual => "+="
    case MinusEqual => "-="
    case StarEqual => "*="
    case SlashEqual => "/="
    case ModEqual => "%="
    case BitAndEqual => "&="
    case BitOrEqual => "|="
    case BitXorEqual => "^="
    case LeftShiftEqual => "<<="
    case RightShiftEqual => ">>="
    case EqualEqual => "=="
    case NotEqual => "!="
    case Greater => ">"
    case GreaterEqual => ">="
    case Less => "<"
    case LessEqual => "<="
    case _ => ""
  }

  predicate IsPunctuator(v: TokenValue) {
    Spelling(v) != ""
  }

  /** Spellings are one to three characters long. */
  lemma SpellingLength(v: TokenValue)
    ensures |Spelling(v)| <= 3
    ensures |Spelling(v)| == 3 ==> v == LeftShiftEqual || v == RightShiftEqual
  {
  }

  /** The characters a short spelling fixes. */
  lemma StartsWithShort(src: seq<char>, i: nat, w: string)
    requires |w| <= 3
    ensures StartsWith(src, i, w) <==>
      && i + |w| <= |src|
      && (|w| >= 1 ==> src[i] == w[0])
      && (|w| >= 2 ==> src[i + 1] == w[1])
      && (|w| >= 3 ==> src[i + 2] == w[2])
  {
    if i + |w| <= |src| && |w| >= 1 {
      assert src[i + 0] == src[i];
    }
  }

  /** Every spelling starts with a symbol character. */
  lemma SpellingStartsWithSymbol(v: TokenValue)
    requires IsPunctuator(v)
    ensures IsSymbolChar(Spelling(v)[0])
  {
  }

  /** A punctuator the scanner emits is spelled by exactly the characters it consumed. */
  lemma MunchSound(src: seq<char>, i: nat)
    requires i < |src| && ScanAt(src, i).Success? && ScanAt(src, i).value.Emit?
    requires IsPunctuator(ScanAt(src, i).value.value)
    ensures var s := ScanAt(src, i).value;
      StartsWith(src, i, Spelling(s.value)) && s.next == i + |Spelling(s.value)|
  {
    if IsSymbolChar(src[i]) {
      PunctuationSound(src, i);
    }
  }

  /** `MunchSound` for the punctuation arms. */
  lemma PunctuationSound(src: seq<char>, i: nat)
    requires i < |src| && PunctuationAt(src, i).Success? && PunctuationAt(src, i).value.Emit?
    requires IsPunctuator(PunctuationAt(src, i).value.value)
    ensures var s := PunctuationAt(src, i).value;
      StartsWith(src, i, Spelling(s.value)) && s.next == i + |Spelling(s.value)|
  {
    if !IsPunctuationChar(src[i]) {
      ArithmeticSound(src, i);
    } else {
      var s := PunctuationAt(src, i).value;
      StartsWithShort(src, i, Spelling(s.value));
    }
  }

  /** `MunchSound` for the arithmetic operator arms. */
  lemma ArithmeticSound(src: seq<char>, i: nat)
    requires i < |src| && ArithmeticAt(src, i).Success? && ArithmeticAt(src, i).value.Emit?
    requires IsPunctuator(ArithmeticAt(src, i).value.value)
    ensures var s := ArithmeticAt(src, i).value;
      StartsWith(src, i, Spelling(s.value)) && s.next == i + |Spelling(s.value)|
  {
    if !IsArithmeticChar(src[i]) {
      OperatorSound(src, i);
    } else {
      var s := ArithmeticAt(src, i).value;
      StartsWithShort(src, i, Spelling(s.value));
    }
  }

  /** `MunchSound` for the remaining operator arms. */
  lemma OperatorSound(src: seq<char>, i: nat)
    requires i < |src| && OperatorAt(src, i).Success? && OperatorAt(src, i).value.Emit?
    requires IsPunctuator(OperatorAt(src, i).value.value)
    ensures var s := OperatorAt(src, i).value;
      StartsWith(src, i, Spelling(s.value)) && s.next == i + |Spelling(s.value)|
  {
    var s := OperatorAt(src, i).value;
    StartsWithShort(src, i, Spelling(s.value));
  }

  /** No punctuator longer than the one the scanner emits occurs at the same index. */
  lemma MunchLongest(src: seq<char>, i: nat, w: TokenValue)
    requires i < |src| && ScanAt(src, i).Success? && ScanAt(src, i).value.Emit?
    requires IsPunctuator(ScanAt(src, i).value.value)
    requires IsPunctuator(w) && StartsWith(src, i, Spelling(w))
    ensures |Spelling(w)| <= ScanAt(src, i).value.next - i
  {
    SpellingStartsWithSymbol(w);
    assert src[i + 0] == Spelling(w)[0];
    SymbolScan(src, i);
    if IsPunctuationChar(src[i]) {
      PunctuationLongest(src, i, w);
    } else if IsArithmeticChar(src[i]) {
      ArithmeticLongest(src, i, w);
    } else {
      OperatorLongest(src, i, w);
    }
  }

  /** `MunchLongest` for the punctuation arms. */
  lemma PunctuationLongest(src: seq<char>, i: nat, w: TokenValue)
    requires i < |src| && IsPunctuationChar(src[i])
    requires PunctuationAt(src, i).Success? && PunctuationAt(src, i).value.Emit?
    requires IsPunctuator(w) && StartsWith(src, i, Spelling(w))
    ensures |Spelling(w)| <= PunctuationAt(src, i).value.next - i
  {
    if |Spelling(w)| >= 2 {
      LongPunctuation(w);
      StartsWithShort(src, i, "::");
    }
  }

  /** The only punctuator of two or more characters that starts like a punctuation arm
      is `::`. */
  lemma LongPunctuation(v: TokenValue)
    requires |Spelling(v)| >= 2 && IsPunctuationChar(Spelling(v)[0])
    ensures v == ColonColon
  {
  }

  /** `MunchLongest` for the arithmetic operator arms. */
  lemma ArithmeticLongest(src: seq<char>, i: nat, w: TokenValue)
    requires i < |src| && IsArithmeticChar(src[i])
    requires ArithmeticAt(src, i).Success? && ArithmeticAt(src, i).value.Emit?
    requires IsPunctuator(w) && StartsWith(src, i, Spelling(w))
    ensures |Spelling(w)| <= ArithmeticAt(src, i).value.next - i
  {
    if |Spelling(w)| >= 2 {
      LongArithmetic(w);
      assert src[i + 0] == Spelling(w)[0] && src[i + 1] == '=';
    }
  }

  /** A punctuator of two or more characters that starts like an arithmetic arm is that
      operator's assignment form. */
  lemma LongArithmetic(v: TokenValue)
    requires |Spelling(v)| >= 2 && IsArithmeticChar(Spelling(v)[0])
    ensures |Spelling(v)| == 2 && Spelling(v)[1] == '='
  {
  }

  /** `MunchLongest` for the remaining operator arms. */
  lemma OperatorLongest(src: seq<char>, i: nat, w: TokenValue)
    requires i < |src| && OperatorAt(src, i).Success? && OperatorAt(src, i).value.Emit?
    requires IsPunctuator(w) && StartsWith(src, i, Spelling(w))
    ensures |Spelling(w)| <= OperatorAt(src, i).value.next - i
  {
    SpellingLength(w);
    StartsWithShort(src, i, Spelling(w));
  }

  /** Where some punctuator occurs and no comment starts, the scanner emits a punctuator. */
  lemma MunchComplete(src: seq<char>, i: nat, w: TokenValue)
    requires i < |src| && IsPunctuator(w) && StartsWith(src, i, Spelling(w))
    requires !StartsWith(src, i, "//")
    ensures ScanAt(src, i).Success? && ScanAt(src, i).value.Emit?
    ensures IsPunctuator(ScanAt(src, i).value.value)
  {
    SpellingStartsWithSymbol(w);
    assert src[i + 0] == Spelling(w)[0];
    SymbolScan(src, i);
    PunctuationComplete(src, i);
  }

  /** A symbol character takes `scan_token` to its punctuation arms. */
  lemma SymbolScan(src: seq<char>, i: nat)
    requires i < |src| && IsSymbolChar(src[i])
    ensures ScanAt(src, i) == PunctuationAt(src, i)
  {
  }

  /** `MunchComplete` for the punctuation arms, from the first character. */
  lemma PunctuationComplete(src: seq<char>, i: nat)
    requires i < |src| && IsSymbolChar(src[i]) && !StartsWith(src, i, "//")
    ensures PunctuationAt(src, i).Success? && PunctuationAt(src, i).value.Emit?
    ensures IsPunctuator(PunctuationAt(src, i).value.value)
  {
    if !IsPunctuationChar(src[i]) {
      ArithmeticComplete(src, i);
    }
  }

  /** `MunchComplete` for the arithmetic operator arms. */
  lemma ArithmeticComplete(src: seq<char>, i: nat)
    requires i < |src| && (IsArithmeticChar(src[i]) || IsOperatorChar(src[i]))
    requires !StartsWith(src, i, "//")
    ensures ArithmeticAt(src, i).Success? && ArithmeticAt(src, i).value.Emit?
    ensures IsPunctuator(ArithmeticAt(src, i).value.value)
  {
    if !IsArithmeticChar(src[i]) {
      OperatorComplete(src, i);
    } else {
      StartsWithShort(src, i, "//");
    }
  }

  /** `MunchComplete` for the remaining operator arms. */
  lemma OperatorComplete(src: seq<char>, i: nat)
    requires i < |src| && IsOperatorChar(src[i])
    ensures OperatorAt(src, i).Success? && OperatorAt(src, i).value.Emit?
    ensures IsPunctuator(OperatorAt(src, i).value.value)
  {
  }

  // ---------------------------------------------------------------------------
  // Literals: what the scanner reads back from the text of a value.

  predicate OneLine(src: seq<char>) {
    forall m :: 0 <= m < |src| ==> src[m] != '\n'
  }

  /** On a text without newlines, index `k` is at column `k + 1` of line 1. */
  lemma {:induction false} LocAtOneLine(src: seq<char>, k: nat)
    requires k <= |src| && OneLine(src)
    ensures LocAt(src, k) == Loc(1, k + 1)
  {
    if k > 0 {
      LocAtOneLine(src, k - 1);
    }
  }

  /** A one-line text that one scan consumes whole lexes to that single token. */
  lemma SingleToken(src: seq<char>, v: TokenValue)
    requires 0 < |src| && OneLine(src) && ScanAt(src, 0) == Success(Emit(v, |src|))
    ensures Tokenize(src) == Success([Token(Loc(1, 1), Loc(1, |src| + 1), v)])
  {
    var l := Lexeme(v, 0, |src|);
    assert Lexemes(src, |src|) == Success([]);
    assert [l] + [] == [l];
    assert Lexemes(src, 0) == Success([l]);
    assert [l][..0] == [];
    assert ToTokens(src, [l]) == ToTokens(src, []) + [Token(LocAt(src, 0), LocAt(src, |src|), v)];
    LocAtOneLine(src, |src|);
    assert ToTokens(src, [l]) == [Token(Loc(1, 1), Loc(1, |src| + 1), v)];
    assert Tokenize(src) == Success(ToTokens(src, [l]));
  }

  function DigitChar(d: nat): (c: char)
    requires d < 10
    ensures IsDigit(c) && DigitValue(c) == d
  {
    ('0' as int + d) as char
  }

  /** The decimal text of `n`, without leading zeros. */
  function DecimalText(n: nat): (s: string)
    ensures |s| >= 1 && AllDigits(s)
  {
    if n < 10 then [DigitChar(n)] else DecimalText(n / 10) + [DigitChar(n % 10)]
  }

  /** Reading back the decimal text of `n` gives `n`. */
  lemma {:induction false} DecimalRoundTrip(n: nat)
    ensures DecimalValue(DecimalText(n)) == n
  {
    var s := DecimalText(n);
    if n >= 10 {
      DecimalRoundTrip(n / 10);
      assert s[..|s| - 1] == DecimalText(n / 10);
    } else {
      assert s[..|s| - 1] == [];
    }
  }

  /** A digit run scanned to the end of the input. */
  lemma {:induction false} RunToEnd(src: seq<char>, k: nat, run: Run)
    requires k <= |src| && forall m :: k <= m < |src| ==> InRun(src[m], run)
    ensures RunEnd(src, k, run) == |src|
    decreases |src| - k
  {
    if k < |src| {
      RunToEnd(src, k + 1, run);
    }
  }

  /** The decimal text of an i64 value lexes to that integer. */
  lemma IntegerLexes(n: nat)
    requires n <= I64Max
    ensures var text := DecimalText(n);
      Tokenize(text) == Success([Token(Loc(1, 1), Loc(1, |text| + 1), Integer(n))])
  {
    var text := DecimalText(n);
    RunToEnd(text, 1, DigitRun);
    DecimalRoundTrip(n);
    assert text[0..|text|] == text;
    SingleToken(text, Integer(n));
  }

  /** The decimal text of a value above the i64 range fails to lex, reporting that text. */
  lemma IntegerOverflows(n: nat)
    requires n > I64Max
    ensures var text := DecimalText(n); Tokenize(text) == Failure(IntegerOverflow(text))
  {
    var text := DecimalText(n);
    RunToEnd(text, 1, DigitRun);
    DecimalRoundTrip(n);
    assert text[0..|text|] == text;
  }

  /** A scan at a digit reads the maximal digit run.  Unless a `.` and a digit follow,
      the run is an integer: its decimal value within the `i64` range, an overflow error
      beyond it.  Otherwise the fraction's maximal digit run follows the `.`, and the
      whole text is a float. */
  lemma NumberLexeme(src: seq<char>, i: nat) returns (j: nat)
    requires i < |src| && IsDigit(src[i])
    ensures i < j <= |src| && AllDigits(src[i..j]) && (j == |src| || !IsDigit(src[j]))
    ensures !(CharAt(src, j) == '.' && IsDigit(CharAt(src, j + 1))) ==>
      if DecimalValue(src[i..j]) <= I64Max then ScanAt(src, i) == Success(Emit(Integer(DecimalValue(src[i..j])), j))
      else ScanAt(src, i) == Failure(IntegerOverflow(src[i..j]))
    ensures CharAt(src, j) == '.' && IsDigit(CharAt(src, j + 1)) ==>
      && ScanAt(src, i).Success? && ScanAt(src, i).value.Emit?
      && var k := ScanAt(src, i).value.next;
        && j + 1 < k <= |src| && AllDigits(src[j + 1..k]) && (k == |src| || !IsDigit(src[k]))
        && ScanAt(src, i).value.value == Float(src[i..k])
  {
    j := RunEnd(src, i + 1, DigitRun);
    assert ScanAt(src, i) == NumberAt(src, i);
    assert AllDigits(src[i..j]) by {
      forall m | 0 <= m < j - i
        ensures IsDigit(src[i..j][m])
      {
        assert src[i..j][m] == src[i + m];
      }
    }
    if CharAt(src, j) == '.' && IsDigit(CharAt(src, j + 1)) {
      NumberFraction(src, i, j);
      var lo := j + 1;
      var k := RunEnd(src, lo, DigitRun);
      assert AllDigits(src[lo..k]) by {
        forall m | 0 <= m < k - lo
          ensures IsDigit(src[lo..k][m])
        {
          assert src[lo..k][m] == src[lo + m];
        }
      }
    } else {
      NumberInteger(src, i, j);
    }
  }

  /** How a character is written inside a string literal: the six characters with an
      escape are written with it, every other character as itself. */
  function EscapeChar(c: char): (w: string)
    ensures |w| == 1 ==> w[0] == c && c != '\\' && c != '"'
    ensures |w| == 2 ==> w[0] == '\\' && Unescape(w[1]) == Some(c)
    ensures 1 <= |w| <= 2 && forall m :: 0 <= m < |w| ==> w[m] != '\n'
  {
    match c
    case '\0' => "\\0"
    case '\n' => "\\n"
    case '\r' => "\\r"
    case '\t' => "\\t"
    case '\\' => "\\\\"
    case '"' => "\\\""
    case _ => [c]
  }

  /** The body of a string literal that denotes `s`. */
  function Escape(s: string): string {
    if s == [] then [] else EscapeChar(s[0]) + Escape(s[1..])
  }

  /** `s` as a string literal, quotes included. */
  function Quote(s: string): string {
    ['"'] + Escape(s) + ['"']
  }

  lemma {:induction false} EscapeOneLine(s: string)
    ensures OneLine(Escape(s))
    decreases |s|
  {
    if s != [] {
      EscapeOneLine(s[1..]);
    }
  }

  /** A string body written as `Escape(s)` and closed by a quote decodes to `s`. */
  lemma {:induction false} StringBodyReads(src: seq<char>, k: nat, decoded: string, s: string)
    requires k + |Escape(s)| < |src|
    requires forall m :: 0 <= m < |Escape(s)| ==> src[k + m] == Escape(s)[m]
    requires src[k + |Escape(s)|] == '"'
    ensures StringBody(src, k, decoded) == Success((decoded + s, k + |Escape(s)| + 1))
    decreases |s|
  {
    if s == [] {
      assert decoded + s == decoded;
    } else {
      var w := EscapeChar(s[0]);
      var tail := Escape(s[1..]);
      assert Escape(s) == w + tail;
      forall m | 0 <= m < |tail|
        ensures src[k + |w| + m] == tail[m]
      {
        assert Escape(s)[|w| + m] == tail[m];
      }
      StringBodyReads(src, k + |w|, decoded + [s[0]], s[1..]);
      assert decoded + [s[0]] + s[1..] == decoded + s;
      assert src[k] == Escape(s)[0];
      if |w| == 2 {
        assert src[k + 1] == Escape(s)[1];
      }
    }
  }

  /** A string literal written with `Quote` lexes to a String token holding exactly `s`. */
  lemma StringLexes(s: string)
    ensures var text := Quote(s);
      Tokenize(text) == Success([Token(Loc(1, 1), Loc(1, |text| + 1), String(s))])
  {
    var text := Quote(s);
    var body := Escape(s);
    forall m | 0 <= m < |body|
      ensures text[1 + m] == body[m]
    {
    }
    StringBodyReads(text, 1, [], s);
    assert [] + s == s;
    EscapeOneLine(s);
    assert OneLine(text);
    SingleToken(text, String(s));
  }

  /** Reading `Escape(s)` inside a string body decodes `s` and moves past it, whatever
      follows. */
  lemma {:induction false} StringBodySkips(src: seq<char>, k: nat, decoded: string, s: string)
    requires k + |Escape(s)| <= |src|
    requires forall m :: 0 <= m < |Escape(s)| ==> src[k + m] == Escape(s)[m]
    ensures StringBody(src, k, decoded) == StringBody(src, k + |Escape(s)|, decoded + s)
    decreases |s|
  {
    if s == [] {
      assert decoded + s == decoded;
    } else {
      var w := EscapeChar(s[0]);
      var tail := Escape(s[1..]);
      assert Escape(s) == w + tail;
      forall m | 0 <= m < |tail|
        ensures src[k + |w| + m] == tail[m]
      {
        assert Escape(s)[|w| + m] == tail[m];
      }
      StringBodySkips(src, k + |w|, decoded + [s[0]], s[1..]);
      assert decoded + [s[0]] + s[1..] == decoded + s;
      assert src[k] == Escape(s)[0];
      if |w| == 2 {
        assert src[k + 1] == Escape(s)[1];
      }
    }
  }

  /** A backslash followed by a character with no escape, or by nothing, stops the
      string with an invalid-escape error at the location just after the backslash,
      whatever well-formed text came before it. */
  lemma EscapeRejected(s: string, tail: string)
    requires tail == [] || Unescape(tail[0]).None?
    ensures var src := ['"'] + Escape(s) + ['\\'] + tail;
      Tokenize(src) == Failure(InvalidEscapeSequence(LocAt(src, |Escape(s)| + 2)))
  {
    var body := Escape(s);
    var src := ['"'] + body + ['\\'] + tail;
    forall m | 0 <= m < |body|
      ensures src[1 + m] == body[m]
    {
    }
    StringBodySkips(src, 1, [], s);
    var k := 1 + |body|;
    assert src[k] == '\\';
    if tail != [] {
      assert src[k + 1] == tail[0];
    }
    assert StringBody(src, 1, []) == Failure(InvalidEscapeSequence(LocAt(src, k + 1)));
    StringFails(src);
  }

  /** A string whose body fails stops the whole lexer with that error. */
  lemma StringFails(src: seq<char>)
    requires |src| > 0 && src[0] == '"' && StringBody(src, 1, []).Failure?
    ensures Tokenize(src) == Failure(StringBody(src, 1, []).error)
  {
  }

  /** A string literal that reaches the end of the input without its closing quote is
      an unterminated-string error at the end's location, one column past the text. */
  lemma Unterminated(s: string)
    ensures var src := ['"'] + Escape(s);
      Tokenize(src) == Failure(UnterminatedString(Loc(1, |src| + 1)))
  {
    var body := Escape(s);
    var src := ['"'] + body;
    forall m | 0 <= m < |body|
      ensures src[1 + m] == body[m]
    {
    }
    UnterminatedAt(src, s);
    EscapeOneLine(s);
    QuotedOneLine(body);
    LocAtOneLine(src, |src|);
  }

  lemma UnterminatedAt(src: seq<char>, s: string)
    requires |src| == 1 + |Escape(s)| && src[0] == '"'
    requires forall m :: 0 <= m < |Escape(s)| ==> src[1 + m] == Escape(s)[m]
    ensures Tokenize(src) == Failure(UnterminatedString(LocAt(src, |src|)))
  {
    StringBodySkips(src, 1, [], s);
    StringFails(src);
  }


  lemma QuotedOneLine(body: string)
    requires OneLine(body)
    ensures OneLine(['"'] + body)
  {
    var src := ['"'] + body;
    forall m | 0 <= m < |src|
      ensures src[m] != '\n'
    {
      if m > 0 {
        assert src[m] == body[m - 1];
      }
    }
  }


  /** A word of letters, digits and underscores that starts with a letter or underscore
      lexes to its keyword when the table has it, and to an identifier otherwise. */
  lemma WordLexes(w: string)
    requires |w| > 0 && IsAlpha(w[0]) && forall m :: 0 <= m < |w| ==> IsAlphanumeric(w[m])
    ensures Tokenize(w) == Success([Token(Loc(1, 1), Loc(1, |w| + 1),
      if w in KeywordTable then KeywordTable[w] else Identifier(w))])
  {
    RunToEnd(w, 1, IdentifierRun);
    assert w[0..|w|] == w;
    assert OneLine(w);
    SingleToken(w, if w in KeywordTable then KeywordTable[w] else Identifier(w));
  }

  /** Each keyword's spelling lexes to that keyword. */
  lemma KeywordLexes(v: TokenValue)
    requires IsKeyword(v)
    ensures var w := KeywordText(v);
      Tokenize(w) == Success([Token(Loc(1, 1), Loc(1, |w| + 1), v)])
  {
    var w := KeywordText(v);
    KeywordTableComplete(v);
    assert |w| > 0 && forall m :: 0 <= m < |w| ==> 'a' <= w[m] <= 'z';
    WordLexes(w);
  }

  /** An emitted identifier holds exactly the text it was read from, which starts with a
      letter or underscore and is not a keyword. */
  lemma IdentifierText(src: seq<char>, i: nat)
    requires i < |src| && ScanAt(src, i).Success? && ScanAt(src, i).value.Emit?
    requires ScanAt(src, i).value.value.Identifier?
    ensures var s := ScanAt(src, i).value;
      && IsAlpha(src[i]) && s.value.name == src[i..s.next] && s.value.name !in KeywordTable
      && (forall m :: i <= m < s.next ==> IsAlphanumeric(src[m]))
      && (s.next == |src| || !IsAlphanumeric(src[s.next]))
  {
    if !IsAlpha(src[i]) && IsSymbolChar(src[i]) {
      PunctuationIdentifierFree(src, i);
    }
  }

  /** The punctuation and operator arms never emit an identifier. */
  lemma PunctuationIdentifierFree(src: seq<char>, i: nat)
    requires i < |src|
    ensures PunctuationAt(src, i).Success? && PunctuationAt(src, i).value.Emit? ==>
      !PunctuationAt(src, i).value.value.Identifier?
  {
    if !IsPunctuationChar(src[i]) && !IsArithmeticChar(src[i]) {
      assert PunctuationAt(src, i) == OperatorAt(src, i);
    }
  }

  /** The located tokens of one lexeme and of two. */
  lemma OneTokenOf(src: seq<char>, l: Lexeme)
    requires l.from <= l.to <= |src|
    ensures ToTokens(src, [l]) == [Token(LocAt(src, l.from), LocAt(src, l.to), l.value)]
  {
    assert [l][..0] == [];
  }

  lemma TwoTokensOf(src: seq<char>, l0: Lexeme, l1: Lexeme)
    requires l0.from <= l0.to <= |src| && l1.from <= l1.to <= |src|
    ensures ToTokens(src, [l0, l1]) == [Token(LocAt(src, l0.from), LocAt(src, l0.to), l0.value),
                                        Token(LocAt(src, l1.from), LocAt(src, l1.to), l1.value)]
  {
    assert [l0, l1][..1] == [l0];
    OneTokenOf(src, l0);
  }

  /** A number followed by a dot and no digit stops before the dot. */
  lemma IntegerThenDot()
    ensures Tokenize("123.") == Success([
      Token(Loc(1, 1), Loc(1, 4), Integer(123)), Token(Loc(1, 4), Loc(1, 5), Dot)])
  {
    var src := "123.";
    assert src[1] == '2' && src[2] == '3' && src[3] == '.';
    assert RunEnd(src, 3, DigitRun) == 3;
    assert RunEnd(src, 1, DigitRun) == 3;
    assert src[0..3] == "123";
    assert DecimalValue("123"[..2]) == 12 by {
      assert "123"[..2] == "12" && "12"[..1] == "1" && "1"[..0] == "";
    }
    assert NumberAt(src, 0) == Success(Emit(Integer(123), 3));
    assert ScanAt(src, 3) == Success(Emit(Dot, 4));
    var ls := [Lexeme(Integer(123), 0, 3), Lexeme(Dot, 3, 4)];
    assert Lexemes(src, 4) == Success([]);
    assert [Lexeme(Dot, 3, 4)] + [] == [Lexeme(Dot, 3, 4)];
    assert Lexemes(src, 3) == Success([Lexeme(Dot, 3, 4)]);
    assert [ls[0]] + [ls[1]] == ls;
    assert Lexemes(src, 0) == Success(ls);
    assert LocAt(src, 3) == Loc(1, 4) && LocAt(src, 4) == Loc(1, 5);
    TwoTokensOf(src, ls[0], ls[1]);
  }

  /** "&&=" is a logical and followed by an assignment, not a compound assignment. */
  lemma LogAndThenEqual()
    ensures Tokenize("&&=") == Success([
      Token(Loc(1, 1), Loc(1, 3), LogAnd), Token(Loc(1, 3), Loc(1, 4), Equal)])
  {
    var src := "&&=";
    assert src[0] == '&' && src[1] == '&' && src[2] == '=';
    assert ScanAt(src, 0) == Success(Emit(LogAnd, 2));
    assert ScanAt(src, 2) == Success(Emit(Equal, 3));
    var ls := [Lexeme(LogAnd, 0, 2), Lexeme(Equal, 2, 3)];
    assert Lexemes(src, 3) == Success([]);
    assert [Lexeme(Equal, 2, 3)] + [] == [Lexeme(Equal, 2, 3)];
    assert Lexemes(src, 2) == Success([Lexeme(Equal, 2, 3)]);
    assert [ls[0]] + [ls[1]] == ls;
    assert Lexemes(src, 0) == Success(ls);
    assert LocAt(src, 2) == Loc(1, 3) && LocAt(src, 3) == Loc(1, 4);
    TwoTokensOf(src, ls[0], ls[1]);
  }

  /** "<<=" is a single shift-assignment. */
  lemma ShiftAssignment()
    ensures Tokenize("<<=") == Success([Token(Loc(1, 1), Loc(1, 4), LeftShiftEqual)])
  {
    var src := "<<=";
    assert src[0] == '<' && src[1] == '<' && src[2] == '=';
    assert ScanAt(src, 0) == Success(Emit(LeftShiftEqual, 3));
    assert Lexemes(src, 3) == Success([]);
    assert [Lexeme(LeftShiftEqual, 0, 3)] + [] == [Lexeme(LeftShiftEqual, 0, 3)];
    assert Lexemes(src, 0) == Success([Lexeme(LeftShiftEqual, 0, 3)]);
    assert LocAt(src, 3) == Loc(1, 4);
    OneTokenOf(src, Lexeme(LeftShiftEqual, 0, 3));
  }

  /** An unknown escape is reported where the escaped character stands. */
  lemma BadEscape()
    ensures Tokenize("\"a\\qb\"") == Failure(InvalidEscapeSequence(Loc(1, 4)))
  {
  }

  /** A string cut off by the end of the input is reported at the end. */
  lemma CutOffString()
    ensures Tokenize("\"ab") == Failure(UnterminatedString(Loc(1, 4)))
  {
  }

  /** An unexpected character is reported at its own line and column. */
  lemma StrayCharacter()
    ensures Tokenize("x\n  @") == Failure(UnexpectedCharacter(Loc(2, 3)))
  {
    var src := "x\n  @";
    assert src[0] == 'x' && src[1] == '\n' && src[2] == ' ' && src[3] == ' ' && src[4] == '@';
    assert RunEnd(src, 1, IdentifierRun) == 1;
    assert ScanAt(src, 0) == Success(Emit(Identifier("x"), 1)) by {
      assert src[0..1] == "x";
      assert "x" !in KeywordTable;
    }
    assert OperatorAt(src, 4) == Failure(UnexpectedCharacter(LocAt(src, 4)));
    assert ScanAt(src, 4) == Failure(UnexpectedCharacter(LocAt(src, 4)));
    assert LocAt(src, 4) == Loc(2, 3);
    assert Lexemes(src, 4).Failure?;
    assert Lexemes(src, 3) == Lexemes(src, 4);
    assert Lexemes(src, 2) == Lexemes(src, 3);
    assert Lexemes(src, 1) == Lexemes(src, 2);
  }

  /** A comment runs to the end of its line; the next line is lexed again. */
  lemma CommentToEndOfLine()
    ensures Tokenize("a // b\nc") == Success([
      Token(Loc(1, 1), Loc(1, 2), Identifier("a")), Token(Loc(2, 1), Loc(2, 2), Identifier("c"))])
  {
    var src := "a // b\nc";
    CommentExampleScans();
    var ls := [Lexeme(Identifier("a"), 0, 1), Lexeme(Identifier("c"), 7, 8)];
    assert Lexemes(src, 8) == Success([]);
    assert [ls[1]] + [] == [ls[1]];
    assert Lexemes(src, 7) == Success([ls[1]]);
    assert [] + [ls[1]] == [ls[1]];
    assert Lexemes(src, 6) == Success([ls[1]]);
    assert Lexemes(src, 2) == Success([ls[1]]);
    assert Lexemes(src, 1) == Success([ls[1]]);
    assert [ls[0]] + [ls[1]] == ls;
    assert Lexemes(src, 0) == Success(ls);
    TwoTokensOf(src, ls[0], ls[1]);
  }

  /** The scans of `CommentToEndOfLine`'s input, one index at a time. */
  lemma CommentExampleScans()
    ensures var src := "a // b\nc";
      && ScanAt(src, 0) == Success(Emit(Identifier("a"), 1))
      && ScanAt(src, 1) == Success(Skip(2))
      && ScanAt(src, 2) == Success(Skip(6))
      && ScanAt(src, 6) == Success(Skip(7))
      && ScanAt(src, 7) == Success(Emit(Identifier("c"), 8))
      && LocAt(src, 1) == Loc(1, 2) && LocAt(src, 7) == Loc(2, 1) && LocAt(src, 8) == Loc(2, 2)
  {
    var src := "a // b\nc";
    assert src[0] == 'a' && src[1] == ' ' && src[2] == '/' && src[3] == '/' && src[4] == ' '
      && src[5] == 'b' && src[6] == '\n' && src[7] == 'c';
    assert RunEnd(src, 6, CommentRun) == 6;
    assert RunEnd(src, 4, CommentRun) == 6;
    assert RunEnd(src, 1, IdentifierRun) == 1;
    assert RunEnd(src, 8, IdentifierRun) == 8;
    assert src[0..1] == "a" && "a" !in KeywordTable;
    assert src[7..8] == "c" && "c" !in KeywordTable;
  }
}
