/** The cursor-driven lexer of src/lexer.rs as a class whose fields are updated step by
    step.  Every method is proved to do what the matching function of LexerSpec says,
    so the properties proved about LexerSpec hold of the tokens this class builds. */
module Lexing {
  import opened Wrappers
  import opened Tokens
  import opened LexerSpec

  class Lexer {
    const source: string
    var tokens: seq<Token>
    var startIdx: nat
    var startLoc: Loc
    var currIdx: nat
    var currLoc: Loc

    /** Both cursors lie inside the source and carry the location of their index. */
    ghost predicate Valid()
      reads this
    {
      && startIdx <= currIdx <= |source|
      && startLoc == LocAt(source, startIdx)
      && currLoc == LocAt(source, currIdx)
    }

    /** The field initialisation of `Lexer::new`, before it scans. */
    constructor (source: string)
      ensures this.source == source && tokens == []
      ensures startIdx == 0 && currIdx == 0 && startLoc == Loc(1, 1) && currLoc == Loc(1, 1)
      ensures Valid()
    {
      this.source := source;
      tokens := [];
      startIdx := 0;
      startLoc := Loc(1, 1);
      currIdx := 0;
      currLoc := Loc(1, 1);
    }

    predicate IsAtEnd()
      reads this
    {
      currIdx >= |source|
    }

    /** The current character, NUL at the end of the input. */
    function Peek(): (c: char)
      reads this
      ensures c == CharAt(source, currIdx)
      ensures !IsAtEnd() ==> c == source[currIdx]
    {
      if IsAtEnd() then '\0' else source[currIdx]
    }

    /** The character after the current one, NUL past the end of the input. */
    function PeekNext(): (c: char)
      reads this
      ensures c == CharAt(source, currIdx + 1)
    {
      if currIdx + 1 >= |source| then '\0' else source[currIdx + 1]
    }

    /** Consume the current character: a newline moves to column 1 of the next line,
        anything else one column right; the index advances by exactly one. */
    method IncrementPosition()
      requires Valid() && !IsAtEnd()
      modifies this`currIdx, this`currLoc
      ensures Valid()
      ensures currIdx == old(currIdx) + 1
      ensures old(source[currIdx]) == '\n' ==> currLoc == Loc(old(currLoc.line) + 1, 1)
      ensures old(source[currIdx]) != '\n' ==> currLoc == Loc(old(currLoc.line), old(currLoc.col) + 1)
    {
      if Peek() == '\n' {
        currIdx := currIdx + 1;
        currLoc := Loc(currLoc.line + 1, 1);
      } else {
        currIdx := currIdx + 1;
        currLoc := Loc(currLoc.line, currLoc.col + 1);
      }
    }

    /** Consume and return the current character. */
    method Next() returns (c: char)
      requires Valid() && !IsAtEnd()
      modifies this`currIdx, this`currLoc
      ensures Valid()
      ensures c == old(source[currIdx]) && currIdx == old(currIdx) + 1
    {
      c := Peek();
      IncrementPosition();
    }

    /** Consume the current character only if it is `expected`; at the end of the input
        or on a mismatch nothing moves. */
    method MatchChar(expected: char) returns (matched: bool)
      requires Valid()
      modifies this`currIdx, this`currLoc
      ensures Valid()
      ensures matched == Matches(source, old(currIdx), expected)
      ensures currIdx == if matched then old(currIdx) + 1 else old(currIdx)
    {
      if IsAtEnd() {
        matched := false;
      } else if Peek() != expected {
        matched := false;
      } else {
        IncrementPosition();
        matched := true;
      }
    }

    /** Consume the longest run of `run` characters at the cursor: the loops of
        `scan_token`'s line comment, `scan_number` and `scan_identifier`. */
    method SkipRun(run: Run)
      requires Valid()
      modifies this`currIdx, this`currLoc
      ensures Valid() && currIdx == RunEnd(source, old(currIdx), run)
    {
      ghost var from := currIdx;
      while !IsAtEnd() && InRun(Peek(), run)
        invariant Valid() && from <= currIdx
        invariant RunEnd(source, currIdx, run) == RunEnd(source, from, run)
        decreases |source| - currIdx
      {
        IncrementPosition();
      }
    }

    method AddToken(token: Token)
      modifies this`tokens
      ensures tokens == old(tokens) + [token]
    {
      tokens := tokens + [token];
    }

    /** The token of the current lexeme, from the start cursor to the current one. */
    method AddCurrent(value: TokenValue)
      modifies this`tokens
      ensures tokens == old(tokens) + [Token(startLoc, currLoc, value)]
    {
      AddToken(Token(startLoc, currLoc, value));
    }

    /** The repeated `if self.match_char(second) { longer } else { shorter }` of
        `scan_token`: add the token of the lexeme that ends at the cursor, after
        taking `second` into it when it comes next. */
    method ScanEither(second: char, longer: TokenValue, shorter: TokenValue)
      requires Valid()
      modifies this`currIdx, this`currLoc, this`tokens
      ensures Valid() && currIdx == Either(source, old(currIdx), second, longer, shorter).next
      ensures tokens == old(tokens) + [Token(startLoc, currLoc, Either(source, old(currIdx), second, longer, shorter).value)]
    {
      ghost var e := Either(source, currIdx, second, longer, shorter);
      var m := MatchChar(second);
      if m {
        assert e.value == longer;
        AddCurrent(longer);
      } else {
        assert e.value == shorter;
        AddCurrent(shorter);
      }
    }

    /** Scan one lexeme starting at `startIdx`, as `ScanAt` says. */
    method ScanToken() returns (err: Option<LexError>)
      requires Valid() && startIdx == currIdx && !IsAtEnd()
      modifies this`currIdx, this`currLoc, this`tokens
      ensures ScanAt(source, startIdx).Failure? ==> err == Some(ScanAt(source, startIdx).error)
      ensures ScanAt(source, startIdx).Success? ==>
        && err.None? && Valid()
        && currIdx == ScanAt(source, startIdx).value.next
        && tokens == old(tokens) + TokensOf(source, startIdx, ScanAt(source, startIdx).value)
    {
      err := None;
      var c := Next();
      match c
      case '"' => err := ScanString();
      case ' ' | '\r' | '\t' | '\n' =>
      case _ =>
        if IsDigit(c) {
          err := ScanNumber();
        } else if IsAlpha(c) {
          ScanIdentifier();
        } else {
          err := ScanPunctuation(c);
        }
    }

    /** The punctuation arms of `scan_token`, after `c` was consumed. */
    method ScanPunctuation(c: char) returns (err: Option<LexError>)
      requires Valid() && currIdx == startIdx + 1 && startIdx < |source| && source[startIdx] == c
      modifies this`currIdx, this`currLoc, this`tokens
      ensures PunctuationAt(source, startIdx).Failure? ==> err == Some(PunctuationAt(source, startIdx).error)
      ensures PunctuationAt(source, startIdx).Success? ==>
        && err.None? && Valid()
        && currIdx == PunctuationAt(source, startIdx).value.next
        && tokens == old(tokens) + TokensOf(source, startIdx, PunctuationAt(source, startIdx).value)
    {
      err := None;
      match c
      case '(' => AddCurrent(LeftParen);
      case ')' => AddCurrent(RightParen);
      case '{' => AddCurrent(LeftBrace);
      case '}' => AddCurrent(RightBrace);
      case ',' => AddCurrent(Comma);
      case '.' => AddCurrent(Dot);
      case ';' => AddCurrent(Semicolon);
      case ':' => ScanEither(':', ColonColon, Colon);
      case _ => err := ScanArithmetic(c);
    }

    /** The arithmetic operator arms of `scan_token`, after `c` was consumed. */
    method ScanArithmetic(c: char) returns (err: Option<LexError>)
      requires Valid() && currIdx == startIdx + 1 && startIdx < |source| && source[startIdx] == c
      modifies this`currIdx, this`currLoc, this`tokens
      ensures ArithmeticAt(source, startIdx).Failure? ==> err == Some(ArithmeticAt(source, startIdx).error)
      ensures ArithmeticAt(source, startIdx).Success? ==>
        && err.None? && Valid()
        && currIdx == ArithmeticAt(source, startIdx).value.next
        && tokens == old(tokens) + TokensOf(source, startIdx, ArithmeticAt(source, startIdx).value)
    {
      err := None;
      match c
      case '+' => ScanEither('=', PlusEqual, Plus);
      case '-' => ScanEither('=', MinusEqual, Minus);
      case '*' => ScanEither('=', StarEqual, Star);
      case '/' =>
        var m := MatchChar('/');
        if m {
          // a line comment: skip up to, not including, the next newline
          SkipRun(CommentRun);
        } else {
          ScanEither('=', SlashEqual, Slash);
        }
      case '%' => ScanEither('=', ModEqual, Mod);
      case _ => err := ScanOperator(c);
    }

    /** The remaining operator arms of `scan_token`, after `c` was consumed, and the
        error for any character no arm accepts. */
    method ScanOperator(c: char) returns (err: Option<LexError>)
      requires Valid() && currIdx == startIdx + 1 && startIdx < |source| && source[startIdx] == c
      modifies this`currIdx, this`currLoc, this`tokens
      ensures OperatorAt(source, startIdx).Failure? ==> err == Some(OperatorAt(source, startIdx).error)
      ensures OperatorAt(source, startIdx).Success? ==>
        && err.None? && Valid()
        && currIdx == OperatorAt(source, startIdx).value.next
        && tokens == old(tokens) + TokensOf(source, startIdx, OperatorAt(source, startIdx).value)
    {
      err := None;
      match c
      case '=' => ScanEither('=', EqualEqual, Equal);
      case '!' => ScanEither('=', NotEqual, LogNot);
      case '<' =>
        var m := MatchChar('<');
        if m {
          ScanEither('=', LeftShiftEqual, LeftShift);
        } else {
          ScanEither('=', LessEqual, Less);
        }
      case '>' =>
        var m := MatchChar('>');
        if m {
          ScanEither('=', RightShiftEqual, RightShift);
        } else {
          ScanEither('=', GreaterEqual, Greater);
        }
      case '&' =>
        var m := MatchChar('&');
        if m {
          AddCurrent(LogAnd);
        } else {
          ScanEither('=', BitAndEqual, BitAnd);
        }
      case '|' =>
        var m := MatchChar('|');
        if m {
          AddCurrent(LogOr);
        } else {
          ScanEither('=', BitOrEqual, BitOr);
        }
      case '~' => AddCurrent(BitNot);
      case '^' => ScanEither('=', BitXorEqual, BitXor);
      case _ => err := Some(UnexpectedCharacter(startLoc));
    }

    /** Scan a string literal whose opening quote is at `startIdx`, decoding escapes. */
    method ScanString() returns (err: Option<LexError>)
      requires Valid() && currIdx == startIdx + 1 && startIdx < |source|
      modifies this`currIdx, this`currLoc, this`tokens
      ensures StringAt(source, startIdx).Failure? ==> err == Some(StringAt(source, startIdx).error)
      ensures StringAt(source, startIdx).Success? ==>
        && err.None? && Valid()
        && currIdx == StringAt(source, startIdx).value.next
        && tokens == old(tokens) + TokensOf(source, startIdx, StringAt(source, startIdx).value)
    {
      var str: string := [];
      while Peek() != '"' && !IsAtEnd()
        invariant Valid() && startIdx < currIdx && tokens == old(tokens)
        invariant StringBody(source, startIdx + 1, []) == StringBody(source, currIdx, str)
        decreases |source| - currIdx
      {
        var c := Next();
        if c == '\\' {
          var decoded := ScanEscape();
          if decoded.None? {
            return Some(InvalidEscapeSequence(currLoc));
          }
          str := str + [decoded.value];
        } else {
          str := str + [c];
        }
      }

      if IsAtEnd() {
        return Some(UnterminatedString(currLoc));
      }

      var _ := Next();
      AddCurrent(String(str));
      return None;
    }

    /** The escape chain of `scan_string`, after a backslash was consumed: consume the
        next character and return what it stands for when it is one of `0 n r t \ "`;
        otherwise consume nothing. */
    method ScanEscape() returns (decoded: Option<char>)
      requires Valid()
      modifies this`currIdx, this`currLoc
      ensures Valid()
      ensures decoded == if old(currIdx) < |source| then Unescape(source[old(currIdx)]) else None
      ensures currIdx == if decoded.Some? then old(currIdx) + 1 else old(currIdx)
    {
      var m := MatchChar('0');
      if m { return Some('\0'); }
      m := MatchChar('n');
      if m { return Some('\n'); }
      m := MatchChar('r');
      if m { return Some('\r'); }
      m := MatchChar('t');
      if m { return Some('\t'); }
      m := MatchChar('\\');
      if m { return Some('\\'); }
      m := MatchChar('"');
      if m { return Some('"'); }
      return None;
    }

    /** Scan a number whose first digit is at `startIdx`. */
    method ScanNumber() returns (err: Option<LexError>)
      requires Valid() && currIdx == startIdx + 1 && startIdx < |source| && IsDigit(source[startIdx])
      modifies this`currIdx, this`currLoc, this`tokens
      ensures NumberAt(source, startIdx).Failure? ==> err == Some(NumberAt(source, startIdx).error)
      ensures NumberAt(source, startIdx).Success? ==>
        && err.None? && Valid()
        && currIdx == NumberAt(source, startIdx).value.next
        && tokens == old(tokens) + TokensOf(source, startIdx, NumberAt(source, startIdx).value)
    {
      SkipRun(DigitRun);
      if !(Peek() == '.' && IsDigit(PeekNext())) {
        NumberInteger(source, startIdx, currIdx);
        err := AddInteger();
      } else {
        NumberFraction(source, startIdx, currIdx);
        AddFraction();
        err := None;
      }
    }

    /** The integer arm of `scan_number`: the digits from `startIdx` to the cursor as an
        `i64`, or the failure of its `parse::<i64>().unwrap()`. */
    method AddInteger() returns (err: Option<LexError>)
      requires Valid() && startIdx < currIdx && AllDigits(source[startIdx..currIdx])
      modifies this`tokens
      ensures var text := source[startIdx..currIdx];
        && (ParseI64(text).None? ==> err == Some(IntegerOverflow(text)))
        && (ParseI64(text).Some? ==> err.None? && tokens == old(tokens) + [Token(startLoc, currLoc, Integer(ParseI64(text).value))])
    {
      var text := source[startIdx..currIdx];
      match ParseI64(text)
      case Some(n) =>
        AddCurrent(Integer(n));
        return None;
      case None =>
        return Some(IntegerOverflow(text));
    }

    /** The fraction arm of `scan_number`: consume the `.` at the cursor and the digits
        after it, and add the lexeme from `startIdx` as a `Float`. */
    method AddFraction()
      requires Valid() && currIdx < |source|
      modifies this`currIdx, this`currLoc, this`tokens
      ensures Valid() && currIdx == RunEnd(source, old(currIdx) + 1, DigitRun)
      ensures tokens == old(tokens) + [Token(startLoc, currLoc, Float(source[startIdx..currIdx]))]
    {
      IncrementPosition();
      SkipRun(DigitRun);
      AddCurrent(Float(source[startIdx..currIdx]));
    }

    /** Scan an identifier or keyword whose first character is at `startIdx`. */
    method ScanIdentifier()
      requires Valid() && currIdx == startIdx + 1 && startIdx < |source|
      modifies this`currIdx, this`currLoc, this`tokens
      ensures Valid()
      ensures currIdx == IdentifierAt(source, startIdx).next
      ensures tokens == old(tokens) + TokensOf(source, startIdx, IdentifierAt(source, startIdx))
    {
      SkipRun(IdentifierRun);
      var word := source[startIdx..currIdx];
      if word in KeywordTable {
        AddCurrent(KeywordTable[word]);
      } else {
        AddCurrent(Identifier(word));
      }
    }

    /** Scan from the current cursor to the end of the input, as `Lexemes` says. */
    method ScanTokens() returns (err: Option<LexError>)
      requires Valid()
      modifies this`startIdx, this`startLoc, this`currIdx, this`currLoc, this`tokens
      ensures Lexemes(source, old(currIdx)).Failure? ==> err == Some(Lexemes(source, old(currIdx)).error)
      ensures Lexemes(source, old(currIdx)).Success? ==>
        && err.None? && Valid()
        && startIdx == currIdx == |source|
        && tokens == old(tokens) + ToTokens(source, Lexemes(source, old(currIdx)).value)
    {
      ghost var from := currIdx;
      ghost var produced: seq<Lexeme> := [];
      PrependNothing(Lexemes(source, from));
      while !IsAtEnd()
        invariant Valid() && from <= currIdx
        invariant EndsBy(produced, currIdx)
        invariant tokens == old(tokens) + ToTokens(source, produced)
        invariant Lexemes(source, from) == Prepend(produced, Lexemes(source, currIdx))
        decreases |source| - currIdx
      {
        startIdx := currIdx;
        startLoc := currLoc;
        ghost var before := tokens;
        err := ScanToken();
        if err.Some? {
          return;
        }
        ghost var scanned := ScanAt(source, startIdx).value;
        LexemesStep(source, produced, startIdx);
        ExtendTokens(source, old(tokens), before, tokens, produced, startIdx, scanned);
        produced := produced + LexemesOf(startIdx, scanned);
      }
      assert produced + [] == produced;
      startIdx := currIdx;
      startLoc := currLoc;
      err := None;
    }
  }

  /** `Lexer::new(source).tokens`: the tokens of the whole source, or its first error. */
  method Lex(source: string) returns (r: Result<seq<Token>, LexError>)
    ensures r == Tokenize(source)
  {
    var lexer := new Lexer(source);
    var err := lexer.ScanTokens();
    if err.Some? {
      assert Lexemes(source, 0).Failure?;
      r := Failure(err.value);
    } else {
      assert lexer.tokens == ToTokens(source, Lexemes(source, 0).value);
      r := Success(lexer.tokens);
    }
  }
}
