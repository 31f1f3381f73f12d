/** The token model shared by the lexer and the parser: source locations, the token
    values, their precedence and associativity, the operator / function / binding
    classification, and the fixed keyword table. */
module Tokens {
  import opened Wrappers

  /** A 1-based (line, column) position in the source text. */
  datatype Loc = Loc(line: nat, col: nat)

  datatype Assoc = Left | Right

  datatype TokenValue =
    // Literals
    | Identifier(name: string)
    | Integer(intValue: int)
    | Float(digits: string)       // the matched decimal text; the f64 value is not modelled
    | String(text: string)        // the decoded text, quotes removed
    // Keywords
    | Struct | Enum | Trait | Impl | Fn | Let | Mut | If | Else | While | For | In
    | Return | Yield | Break | True | False | Null
    // Punctuation
    | LeftParen | RightParen | LeftBrace | RightBrace | Comma | Dot | Colon | ColonColon | Semicolon
    // Arithmetic operators
    | Plus | Minus | Star | Slash | Mod
    // Boolean and bitwise operators
    | LogNot | BitNot | LogAnd | BitAnd | LogOr | BitOr | BitXor | LeftShift | RightShift
    // Assignment operators
    | Equal | PlusEqual | MinusEqual | StarEqual | SlashEqual | ModEqual
    | BitAndEqual | BitOrEqual | BitXorEqual | LeftShiftEqual | RightShiftEqual
    // Comparison operators
    | EqualEqual | NotEqual | Greater | GreaterEqual | Less | LessEqual
    | EOF

  /** A token with the location of its first character and the location just after its last. */
  datatype Token = Token(start: Loc, end: Loc, value: TokenValue)

  // ---------------------------------------------------------------------------
  // Operator families, stated independently of the tables below.

  /** The eleven assignment forms `= += -= *= /= %= &= |= ^= <<= >>=`. */
  predicate IsAssignment(v: TokenValue) {
    v.Equal? || v.PlusEqual? || v.MinusEqual? || v.StarEqual? || v.SlashEqual? || v.ModEqual?
    || v.BitAndEqual? || v.BitOrEqual? || v.BitXorEqual? || v.LeftShiftEqual? || v.RightShiftEqual?
  }

  /** The prefix operators `!` and `~`. */
  predicate IsUnary(v: TokenValue) {
    v.LogNot? || v.BitNot?
  }

  /** The binary operators: logical, bitwise, equality, relational, shift, additive, multiplicative. */
  predicate IsBinary(v: TokenValue) {
    v.LogOr? || v.LogAnd? || v.BitOr? || v.BitXor? || v.BitAnd?
    || v.EqualEqual? || v.NotEqual? || v.Less? || v.LessEqual? || v.Greater? || v.GreaterEqual?
    || v.LeftShift? || v.RightShift? || v.Plus? || v.Minus? || v.Star? || v.Slash? || v.Mod?
  }

  /** The eighteen keyword variants. */
  predicate IsKeyword(v: TokenValue) {
    v.Struct? || v.Enum? || v.Trait? || v.Impl? || v.Fn? || v.Let? || v.Mut? || v.If? || v.Else?
    || v.While? || v.For? || v.In? || v.Return? || v.Yield? || v.Break? || v.True? || v.False? || v.Null?
  }

  // ---------------------------------------------------------------------------
  // The tables of token.rs.

  /** Binding strength; higher binds tighter. */
  function Precedence(v: TokenValue): Option<nat>
  {
    match v
    case Comma => Some(0)
    case Equal | PlusEqual | MinusEqual | StarEqual | SlashEqual | ModEqual
      | RightShiftEqual | LeftShiftEqual | BitAndEqual | BitOrEqual | BitXorEqual => Some(1)
    case LogOr => Some(3)
    case LogAnd => Some(4)
    case BitOr => Some(5)
    case BitXor => Some(6)
    case BitAnd => Some(7)
    case EqualEqual | NotEqual => Some(8)
    case Less | LessEqual | Greater | GreaterEqual => Some(9)
    case LeftShift | RightShift => Some(10)
    case Plus | Minus => Some(11)
    case Star | Slash | Mod => Some(12)
    case LogNot | BitNot => Some(13)
    case _ => None
  }

  /** Associativity of the operators that have a precedence. */
  function Associativity(v: TokenValue): Option<Assoc>
  {
    match v
    case Equal | PlusEqual | MinusEqual | StarEqual | SlashEqual | ModEqual
      | RightShiftEqual | LeftShiftEqual | BitAndEqual | BitOrEqual | BitXorEqual
      | LogNot | BitNot => Some(Right)
    case Comma | LogOr | LogAnd | BitOr | BitXor | BitAnd | EqualEqual | NotEqual
      | Less | LessEqual | Greater | GreaterEqual | LeftShift | RightShift
      | Plus | Minus | Star | Slash | Mod => Some(Left)
    case _ => None
  }

  /** An identifier naming one of the known functions. */
  function IsFunc(v: TokenValue, knownFuncs: seq<string>): (b: bool)
    ensures b <==> v.Identifier? && v.name in knownFuncs
    ensures b ==> !IsOp(v) && Precedence(v).None?
  {
    match v
    case Identifier(name) => name in knownFuncs
    case _ => false
  }

  /** The tokens the parser moves through its operator stack: `(` and every operator
      (the comma, the other punctuation, literals and keywords are not). */
  function IsOp(v: TokenValue): bool
  {
    match v
    case LeftParen
      | Equal | PlusEqual | MinusEqual | StarEqual | SlashEqual | ModEqual
      | RightShiftEqual | LeftShiftEqual | BitAndEqual | BitOrEqual | BitXorEqual
      | LogNot | BitNot
      | LogOr | LogAnd | BitOr | BitXor | BitAnd | EqualEqual | NotEqual
      | Less | LessEqual | Greater | GreaterEqual | LeftShift | RightShift
      | Plus | Minus | Star | Slash | Mod => true
    case _ => false
  }

  /** An identifier naming one of the known variable bindings. */
  function IsBinding(v: TokenValue, knownBindings: seq<string>): (b: bool)
    ensures b <==> v.Identifier? && v.name in knownBindings
    ensures b ==> !IsOp(v) && Precedence(v).None?
  {
    match v
    case Identifier(name) => name in knownBindings
    case _ => false
  }

  /** Exactly the comma and the operator families have a precedence. */
  lemma PrecedenceDomain(v: TokenValue)
    ensures Precedence(v).Some? <==> v.Comma? || IsAssignment(v) || IsUnary(v) || IsBinary(v)
  {
    if Precedence(v).Some? {
      OnlyOperatorsRanked(v);
    } else {
      BinaryPrecedence(v);
      CommaPrecedence(v);
      AssignmentPrecedence(v);
      UnaryPrecedence(v);
    }
  }

  lemma OnlyOperatorsRanked(v: TokenValue)
    requires Precedence(v).Some?
    ensures v.Comma? || IsAssignment(v) || IsUnary(v) || IsBinary(v)
  {
  }

  /** The comma has precedence 0 and nothing else has. */
  lemma CommaPrecedence(v: TokenValue)
    ensures Precedence(v) == Some(0) <==> v.Comma?
  {
  }

  /** The assignment forms, and only they, have precedence 1. */
  lemma AssignmentPrecedence(v: TokenValue)
    ensures Precedence(v) == Some(1) <==> IsAssignment(v)
  {
  }

  /** The prefix operators, and only they, have precedence 13. */
  lemma UnaryPrecedence(v: TokenValue)
    ensures Precedence(v) == Some(13) <==> IsUnary(v)
  {
  }

  /** The binary operators have precedences between 3 and 12. */
  lemma BinaryPrecedence(v: TokenValue)
    ensures IsBinary(v) ==> Precedence(v).Some? && 3 <= Precedence(v).value <= 12
  {
  }

  /** Associativity is right exactly for the assignment forms and the prefix operators,
      left exactly for the comma and the binary operators, so a variant has one exactly
      when it has a precedence, and equal precedences have equal associativity. */
  lemma AssociativityByFamily(v: TokenValue)
    ensures Associativity(v) == Some(Right) <==> IsAssignment(v) || IsUnary(v)
    ensures Associativity(v) == Some(Left) <==> v.Comma? || IsBinary(v)
    ensures Associativity(v).Some? <==> Precedence(v).Some?
    ensures Associativity(v) == Some(Right) <==> Precedence(v) == Some(1) || Precedence(v) == Some(13)
  {
    PrecedenceDomain(v);
    AssignmentPrecedence(v);
    UnaryPrecedence(v);
  }

  /** `is_op` holds for `(` and every operator family, and fails for the comma,
      literals, keywords and the other punctuation. */
  lemma IsOpByFamily(v: TokenValue)
    ensures IsOp(v) <==> v.LeftParen? || IsAssignment(v) || IsUnary(v) || IsBinary(v)
  {
  }

  /** Every `is_op` variant except `(` has both a precedence and an associativity
      (so the parser's `unwrap` of the associativity cannot fail), and `(` has neither. */
  lemma OperatorsAreRanked(v: TokenValue)
    ensures IsOp(v) && !v.LeftParen? ==> Precedence(v).Some? && Associativity(v).Some?
    ensures IsOp(v) && !v.LeftParen? <==> Precedence(v).Some? && !v.Comma?
    ensures v.LeftParen? ==> IsOp(v) && Precedence(v).None? && Associativity(v).None?
  {
    IsOpByFamily(v);
    PrecedenceDomain(v);
    AssociativityByFamily(v);
  }

  // ---------------------------------------------------------------------------
  // The keyword table.

  const KeywordTable: map<string, TokenValue> := map[
    "struct" := Struct,
    "enum" := Enum,
    "trait" := Trait,
    "impl" := Impl,
    "fn" := Fn,
    "let" := Let,
    "mut" := Mut,
    "if" := If,
    "else" := Else,
    "while" := While,
    "for" := For,
    "in" := In,
    "return" := Return,
    "yield" := Yield,
    "break" := Break,
    "true" := True,
    "false" := False,
    "null" := Null
  ]

  /** The spelling of each keyword variant: the reverse reading of the table. */
  function KeywordText(v: TokenValue): string
    requires IsKeyword(v)
  {
    match v
    case Struct => "struct"
    case Enum => "enum"
    case Trait => "trait"
    case Impl => "impl"
    case Fn => "fn"
    case Let => "let"
    case Mut => "mut"
    case If => "if"
    case Else => "else"
    case While => "while"
    case For => "for"
    case In => "in"
    case Return => "return"
    case Yield => "yield"
    case Break => "break"
    case True => "true"
    case False => "false"
    case Null => "null"
  }

  /** Every keyword variant is reached from its spelling. */
  lemma KeywordTableComplete(v: TokenValue)
    requires IsKeyword(v)
    ensures KeywordText(v) in KeywordTable && KeywordTable[KeywordText(v)] == v
  {
    var w := KeywordText(v);
    assert w in KeywordTable.Keys;
  }

  /** Every word of the table maps to the keyword variant it spells. */
  lemma KeywordTableSound(w: string)
    requires w in KeywordTable
    ensures IsKeyword(KeywordTable[w]) && KeywordText(KeywordTable[w]) == w
  {
  }

  /** Distinct words of the table map to distinct keyword variants. */
  lemma KeywordTableInjective(w1: string, w2: string)
    requires w1 in KeywordTable && w2 in KeywordTable && w1 != w2
    ensures KeywordTable[w1] != KeywordTable[w2]
  {
    KeywordTableSound(w1);
    KeywordTableSound(w2);
  }
}
