/** What the lexer of src/lexer.rs computes, as pure functions over the source text
    (a sequence of ASCII characters) and indices into it.  `ScanAt(src, i)` is one
    `scan_token` call starting at index `i`; `Lexemes(src, i)` is the `scan_tokens`
    loop from `i`; `Tokenize(src)` is the token list of `Lexer::new`.  The imperative
    lexer in lexer.dfy is proved to compute exactly these. */
module LexerSpec {
  import opened Wrappers
  import opened Tokens

  /** The lexer's terminal errors.  The first three are reported by `error` with a
      line and column; an integer literal that does not fit in i64 makes the
      `parse::<i64>().unwrap()` panic, which reports the offending text. */
  datatype LexError =
    | UnexpectedCharacter(at: Loc)
    | InvalidEscapeSequence(at: Loc)
    | UnterminatedString(at: Loc)
    | IntegerOverflow(digits: string)

  const I64Max: int := 0x7fff_ffff_ffff_ffff

  // ---------------------------------------------------------------------------
  // Character classes (`is_digit`, `is_alpha`, `is_alphanumeric`).

  predicate IsDigit(c: char) {
    '0' <= c <= '9'
  }

  predicate IsAlpha(c: char) {
    'A' <= c <= 'Z' || 'a' <= c <= 'z' || c == '_'
  }

  predicate IsAlphanumeric(c: char) {
    IsDigit(c) || IsAlpha(c)
  }

  // ---------------------------------------------------------------------------
  // Positions.

  /** The cursor step of `increment_position`: a newline starts the next line at
      column 1, any other character moves one column right. */
  function Advance(loc: Loc, c: char): Loc {
    if c == '\n' then Loc(loc.line + 1, 1) else Loc(loc.line, loc.col + 1)
  }

  /** The location of index `k`: the cursor after consuming `src[..k]` from (1, 1). */
  function LocAt(src: seq<char>, k: nat): Loc
    requires k <= |src|
  {
    if k == 0 then Loc(1, 1) else Advance(LocAt(src, k - 1), src[k - 1])
  }

  /** `peek` at index `k`: the character there, or NUL past the end. */
  function CharAt(src: seq<char>, k: nat): char {
    if k < |src| then src[k] else '\0'
  }

  /** The test of `match_char`: not at the end, and the expected character is next. */
  predicate Matches(src: seq<char>, k: nat, expected: char) {
    k < |src| && src[k] == expected
  }

  /** The three character runs the lexer's inner loops consume. */
  datatype Run = DigitRun | IdentifierRun | CommentRun

  predicate InRun(c: char, run: Run) {
    match run
    case DigitRun => IsDigit(c)
    case IdentifierRun => IsAlphanumeric(c)
    case CommentRun => c != '\n'
  }

  /** Where a maximal run of `run` characters starting at `k` ends. */
  function RunEnd(src: seq<char>, k: nat, run: Run): (j: nat)
    requires k <= |src|
    ensures k <= j <= |src|
    ensures forall m :: k <= m < j ==> InRun(src[m], run)
    ensures j == |src| || !InRun(src[j], run)
    decreases |src| - k
  {
    if k < |src| && InRun(src[k], run) then RunEnd(src, k + 1, run) else k
  }

  // ---------------------------------------------------------------------------
  // One token.

  /** The result of one successful `scan_token` call: a token value covering
      `src[i..next]`, or nothing (whitespace, a comment) up to `next`. */
  datatype Scanned = Emit(value: TokenValue, next: nat) | Skip(next: nat)

  /** A token whose lexeme so far ends before index `k`: it becomes `longer` (one
      character longer) when `second` is at `k`, and stays `shorter` otherwise. */
  function Either(src: seq<char>, k: nat, second: char, longer: TokenValue, shorter: TokenValue): Scanned {
    if Matches(src, k, second) then Emit(longer, k + 1) else Emit(shorter, k)
  }

  /** The character an escape `\c` stands for, if `c` is one of `0 n r t \ "`. */
  function Unescape(c: char): Option<char> {
    match c
    case '0' => Some('\0')
    case 'n' => Some('\n')
    case 'r' => Some('\r')
    case 't' => Some('\t')
    case '\\' => Some('\\')
    case '"' => Some('"')
    case _ => None
  }

  /** The body of a string literal from index `k`, with `decoded` the text decoded so
      far: the full decoded text and the index after the closing quote. */
  function StringBody(src: seq<char>, k: nat, decoded: string): (r: Result<(string, nat), LexError>)
    requires k <= |src|
    ensures r.Success? ==> k < r.value.1 <= |src| && src[r.value.1 - 1] == '"'
    ensures r.Failure? ==> r.error.UnterminatedString? || r.error.InvalidEscapeSequence?
    decreases |src| - k
  {
    if k == |src| then Failure(UnterminatedString(LocAt(src, |src|)))
    else if src[k] == '"' then Success((decoded, k + 1))
    else if src[k] == '\\' then
      if k + 1 < |src| && Unescape(src[k + 1]).Some? then
        StringBody(src, k + 2, decoded + [Unescape(src[k + 1]).value])
      else
        Failure(InvalidEscapeSequence(LocAt(src, k + 1)))
    else
      StringBody(src, k + 1, decoded + [src[k]])
  }

  /** `scan_string`, for the opening quote at `i`. */
  function StringAt(src: seq<char>, i: nat): Result<Scanned, LexError>
    requires i < |src|
  {
    match StringBody(src, i + 1, [])
    case Failure(e) => Failure(e)
    case Success((text, j)) => Success(Emit(String(text), j))
  }

  function DigitValue(c: char): nat
    requires IsDigit(c)
  {
    c as int - '0' as int
  }

  predicate AllDigits(s: string) {
    forall k :: 0 <= k < |s| ==> IsDigit(s[k])
  }

  /** The number a string of decimal digits denotes. */
  function DecimalValue(digits: string): nat
    requires AllDigits(digits)
  {
    if |digits| == 0 then 0
    else DecimalValue(digits[..|digits| - 1]) * 10 + DigitValue(digits[|digits| - 1])
  }

  /** `str::parse::<i64>` on a non-empty run of digits: fails exactly on overflow. */
  function ParseI64(digits: string): (r: Option<int>)
    requires AllDigits(digits)
    ensures r.Some? ==> 0 <= r.value <= I64Max
  {
    var n := DecimalValue(digits);
    if n <= I64Max then Some(n) else None
  }

  /** `scan_number`, for the first digit at `i`. */
  function NumberAt(src: seq<char>, i: nat): Result<Scanned, LexError>
    requires i < |src| && IsDigit(src[i])
  {
    var j := RunEnd(src, i + 1, DigitRun);
    if !(CharAt(src, j) == '.' && IsDigit(CharAt(src, j + 1))) then
      var text := src[i..j];
      match ParseI64(text)
      case Some(n) => Success(Emit(Integer(n), j))
      case None => Failure(IntegerOverflow(text))
    else
      var k := RunEnd(src, j + 1, DigitRun);
      Success(Emit(Float(src[i..k]), k))
  }

  /** The integer arm of `NumberAt`, once the digit run ends at `j`. */
  lemma NumberInteger(src: seq<char>, i: nat, j: nat)
    requires i < |src| && IsDigit(src[i]) && j == RunEnd(src, i + 1, DigitRun)
    requires !(CharAt(src, j) == '.' && IsDigit(CharAt(src, j + 1)))
    ensures AllDigits(src[i..j])
    ensures ParseI64(src[i..j]).Some? ==> NumberAt(src, i) == Success(Emit(Integer(ParseI64(src[i..j]).value), j))
    ensures ParseI64(src[i..j]).None? ==> NumberAt(src, i) == Failure(IntegerOverflow(src[i..j]))
  {
  }

  /** The fraction arm of `NumberAt`, once the digit run ends at the `.` at `j`. */
  lemma NumberFraction(src: seq<char>, i: nat, j: nat)
    requires i < |src| && IsDigit(src[i]) && j == RunEnd(src, i + 1, DigitRun)
    requires CharAt(src, j) == '.' && IsDigit(CharAt(src, j + 1))
    ensures j < |src|
    ensures var k := RunEnd(src, j + 1, DigitRun);
      NumberAt(src, i) == Success(Emit(Float(src[i..k]), k))
  {
  }

  /** `scan_identifier`, for the first letter or underscore at `i`. */
  function IdentifierAt(src: seq<char>, i: nat): Scanned
    requires i < |src|
  {
    var j := RunEnd(src, i + 1, IdentifierRun);
    var word := src[i..j];
    if word in KeywordTable then Emit(KeywordTable[word], j) else Emit(Identifier(word), j)
  }

  /** `scan_token` at index `i`; every success consumes at least one character.  The
      arms for punctuation and operators are in `PunctuationAt`, `ArithmeticAt` and
      `OperatorAt`; the
      character sets of the arms are disjoint, so the order of the arms does not matter. */
  function ScanAt(src: seq<char>, i: nat): (r: Result<Scanned, LexError>)
    requires i < |src|
    ensures r.Success? ==> i < r.value.next <= |src|
  {
    match src[i]
    case '"' => StringAt(src, i)
    case ' ' | '\r' | '\t' | '\n' => Success(Skip(i + 1))
    case c =>
      if IsDigit(c) then NumberAt(src, i)
      else if IsAlpha(c) then Success(IdentifierAt(src, i))
      else PunctuationAt(src, i)
  }

  /** The punctuation arms of `scan_token` at index `i`; any other character goes on
      to `ArithmeticAt`. */
  function PunctuationAt(src: seq<char>, i: nat): (r: Result<Scanned, LexError>)
    requires i < |src|
    ensures r.Success? ==> i < r.value.next <= |src|
  {
    match src[i]
    case '(' => Success(Emit(LeftParen, i + 1))
    case ')' => Success(Emit(RightParen, i + 1))
    case '{' => Success(Emit(LeftBrace, i + 1))
    case '}' => Success(Emit(RightBrace, i + 1))
    case ',' => Success(Emit(Comma, i + 1))
    case '.' => Success(Emit(Dot, i + 1))
    case ';' => Success(Emit(Semicolon, i + 1))
    case ':' => Success(Either(src, i + 1, ':', ColonColon, Colon))
    case _ => ArithmeticAt(src, i)
  }

  /** The arithmetic operator arms of `scan_token` at index `i` (`+ - * / %`, their
      assignment forms, and the line comment); any other character goes on to
      `OperatorAt`. */
  function ArithmeticAt(src: seq<char>, i: nat): (r: Result<Scanned, LexError>)
    requires i < |src|
    ensures r.Success? ==> i < r.value.next <= |src|
  {
    match src[i]
    case '+' => Success(Either(src, i + 1, '=', PlusEqual, Plus))
    case '-' => Success(Either(src, i + 1, '=', MinusEqual, Minus))
    case '*' => Success(Either(src, i + 1, '=', StarEqual, Star))
    case '/' =>
      if Matches(src, i + 1, '/') then Success(Skip(RunEnd(src, i + 2, CommentRun)))
      else Success(Either(src, i + 1, '=', SlashEqual, Slash))
    case '%' => Success(Either(src, i + 1, '=', ModEqual, Mod))
    case _ => OperatorAt(src, i)
  }

  /** The remaining operator arms of `scan_token` at index `i` (assignment, comparison,
      logical, shift and bitwise operators), and the error for any character no arm of
      `scan_token` accepts. */
  function OperatorAt(src: seq<char>, i: nat): (r: Result<Scanned, LexError>)
    requires i < |src|
    ensures r.Success? ==> i < r.value.next <= |src|
  {
    match src[i]
    case '=' => Success(Either(src, i + 1, '=', EqualEqual, Equal))
    case '!' => Success(Either(src, i + 1, '=', NotEqual, LogNot))
    case '<' =>
      if Matches(src, i + 1, '<') then
        Success(Either(src, i + 2, '=', LeftShiftEqual, LeftShift))
      else Success(Either(src, i + 1, '=', LessEqual, Less))
    case '>' =>
      if Matches(src, i + 1, '>') then
        Success(Either(src, i + 2, '=', RightShiftEqual, RightShift))
      else Success(Either(src, i + 1, '=', GreaterEqual, Greater))
    case '&' =>
      if Matches(src, i + 1, '&') then Success(Emit(LogAnd, i + 2))
      else Success(Either(src, i + 1, '=', BitAndEqual, BitAnd))
    case '|' =>
      if Matches(src, i + 1, '|') then Success(Emit(LogOr, i + 2))
      else Success(Either(src, i + 1, '=', BitOrEqual, BitOr))
    case '~' => Success(Emit(BitNot, i + 1))
    case '^' => Success(Either(src, i + 1, '=', BitXorEqual, BitXor))
    case _ => Failure(UnexpectedCharacter(LocAt(src, i)))
  }

  // ---------------------------------------------------------------------------
  // The whole input.

  /** A token value with the index range `[from, to)` of its lexeme. */
  datatype Lexeme = Lexeme(value: TokenValue, from: nat, to: nat)

  /** What one successful scan at `i` contributes. */
  function LexemesOf(i: nat, s: Scanned): seq<Lexeme> {
    if s.Emit? then [Lexeme(s.value, i, s.next)] else []
  }

  function Prepend<T, E>(prefix: seq<T>, r: Result<seq<T>, E>): Result<seq<T>, E> {
    match r
    case Success(rest) => Success(prefix + rest)
    case Failure(e) => Failure(e)
  }

  /** Non-empty lexemes inside `src[lo..]`, in source order and without overlap. */
  ghost predicate Ordered(src: seq<char>, lo: nat, ls: seq<Lexeme>) {
    && (forall k :: 0 <= k < |ls| ==> lo <= ls[k].from < ls[k].to <= |src|)
    && (forall k :: 0 <= k < |ls| - 1 ==> ls[k].to <= ls[k + 1].from)
  }

  /** `scan_tokens` from index `i`: the lexemes up to the end of the input, or the
      first error. */
  function Lexemes(src: seq<char>, i: nat): (r: Result<seq<Lexeme>, LexError>)
    requires i <= |src|
    ensures r.Success? ==> Ordered(src, i, r.value)
    decreases |src| - i
  {
    if i == |src| then Success([])
    else match ScanAt(src, i)
      case Failure(e) => Failure(e)
      case Success(s) => Prepend(LexemesOf(i, s), Lexemes(src, s.next))
  }

  /** The located tokens of a list of lexemes. */
  function ToTokens(src: seq<char>, ls: seq<Lexeme>): (ts: seq<Token>)
    requires forall k :: 0 <= k < |ls| ==> ls[k].from <= ls[k].to <= |src|
    ensures |ts| == |ls|
  {
    if ls == [] then []
    else ToTokens(src, ls[..|ls| - 1]) + [Token(LocAt(src, ls[|ls| - 1].from), LocAt(src, ls[|ls| - 1].to), ls[|ls| - 1].value)]
  }

  /** The token list `Lexer::new(src)` builds, or its error. */
  function Tokenize(src: seq<char>): Result<seq<Token>, LexError> {
    match Lexemes(src, 0)
    case Success(ls) => Success(ToTokens(src, ls))
    case Failure(e) => Failure(e)
  }

  // ---------------------------------------------------------------------------
  // Steps of the whole-input scan, used by the imperative lexer's loop.

  lemma PrependNothing<T, E>(r: Result<seq<T>, E>)
    ensures Prepend([], r) == r
  {
    if r.Success? {
      assert [] + r.value == r.value;
    }
  }

  /** One successful scan at `i` moves what is still to be scanned past its lexeme. */
  lemma LexemesStep(src: seq<char>, done: seq<Lexeme>, i: nat)
    requires i < |src| && ScanAt(src, i).Success?
    ensures Prepend(done, Lexemes(src, i))
         == Prepend(done + LexemesOf(i, ScanAt(src, i).value), Lexemes(src, ScanAt(src, i).value.next))
  {
    var s := ScanAt(src, i).value;
    assert Lexemes(src, i) == Prepend(LexemesOf(i, s), Lexemes(src, s.next));
    if Lexemes(src, s.next).Success? {
      var rest := Lexemes(src, s.next).value;
      assert done + (LexemesOf(i, s) + rest) == (done + LexemesOf(i, s)) + rest;
    }
  }

  /** Every lexeme of `ls` is a range that ends by `bound`. */
  predicate EndsBy(ls: seq<Lexeme>, bound: nat) {
    forall k :: 0 <= k < |ls| ==> ls[k].from <= ls[k].to <= bound
  }

  /** The located token, if any, of one scan of the lexeme starting at `i`. */
  function TokensOf(src: seq<char>, i: nat, s: Scanned): seq<Token>
    requires i <= s.next <= |src|
  {
    if s.Emit? then [Token(LocAt(src, i), LocAt(src, s.next), s.value)] else []
  }

  /** Appending the lexeme of one scan appends its token. */
  lemma ExtendLexemes(src: seq<char>, done: seq<Lexeme>, i: nat, s: Scanned)
    requires EndsBy(done, i) && i <= s.next <= |src|
    ensures EndsBy(done + LexemesOf(i, s), s.next)
    ensures ToTokens(src, done + LexemesOf(i, s)) == ToTokens(src, done) + TokensOf(src, i, s)
  {
    if s.Emit? {
      assert (done + LexemesOf(i, s))[..|done|] == done;
    } else {
      assert done + LexemesOf(i, s) == done;
    }
  }

  /** The token list after one more scan: `before` held the tokens of `done` after
      `prior`, and the scan appended the tokens of its lexeme. */
  lemma ExtendTokens(src: seq<char>, prior: seq<Token>, before: seq<Token>, after: seq<Token>,
                     done: seq<Lexeme>, i: nat, s: Scanned)
    requires EndsBy(done, i) && i <= s.next <= |src|
    requires before == prior + ToTokens(src, done) && after == before + TokensOf(src, i, s)
    ensures EndsBy(done + LexemesOf(i, s), s.next)
    ensures after == prior + ToTokens(src, done + LexemesOf(i, s))
  {
    ExtendLexemes(src, done, i, s);
  }
}
