/** What the shunting-yard parser of src/parser.rs computes, as pure functions over
    its state: the operator stack (top first, as `push_front`/`pop_front` use it) and the
    output queue.  `ShuntingYard` in parser.dfy is proved to compute `Parse`. */
module ParserSpec {
  import opened Wrappers
  import opened Tokens

  /** The ways `parse` stops early: the "Mismatched parentheses!" panic, the failing
      `assert!` that `(` is on top when `)` arrives, and `todo!()` for a token no arm
      accepts. */
  datatype ParseError =
    | MismatchedParentheses
    | ExpectedLeftParen
    | Unsupported(token: Token)

  /** The operator stack (index 0 is the front, the top) and the output queue. */
  datatype Yard = Yard(stack: seq<Token>, output: seq<Token>)

  /** The functions and bindings `parse` knows (src/parser.rs:28-29). */
  const DemoFunctions: seq<string> := ["max", "sin"]
  const DemoBindings: seq<string> := ["x", "y"]

  /** `>` on `Option<u8>`: `None` is below every `Some`. */
  predicate OptionGreater(a: Option<nat>, b: Option<nat>) {
    match (a, b)
    case (Some(x), Some(y)) => x > y
    case (Some(_), None) => true
    case (None, _) => false
  }

  /** The test of the operator arm's loop: the stack top `top` is popped before
      `incoming` is pushed. */
  predicate Outranks(top: TokenValue, incoming: TokenValue) {
    && IsOp(top) && !top.LeftParen?
    && (|| OptionGreater(Precedence(top), Precedence(incoming))
        || (Precedence(incoming) == Precedence(top) && Associativity(incoming) == Some(Left)))
  }

  /** The test of the operator arm's loop, for the incoming operator `incoming`. */
  function OutranksTest(incoming: TokenValue): TokenValue -> bool {
    top => Outranks(top, incoming)
  }

  /** The test of the comma and `)` arms' loops: an operator other than `(`, so popping
      stops at a `(`, a function or the bottom of the stack. */
  predicate IsStackOperator(top: TokenValue) {
    IsOp(top) && !top.LeftParen?
  }

  /** A popping loop of `parse`: tokens leave the front of the stack for the back of the
      output while `pops` accepts the top, so a prefix of the stack moves, in stack
      order, and the new top is one `pops` rejects.  `PoppedByTest` in parser_props.dfy
      shows that `pops` accepts every token moved. */
  function PopToOutput(y: Yard, pops: TokenValue -> bool): (r: Yard)
    ensures |y.output| <= |r.output| <= |y.output| + |y.stack|
    ensures r.stack == y.stack[|r.output| - |y.output|..]
    ensures r.output == y.output + y.stack[..|r.output| - |y.output|]
    ensures r.stack == [] || !pops(r.stack[0].value)
    decreases |y.stack|
  {
    if y.stack != [] && pops(y.stack[0].value) then
      var r := PopToOutput(Yard(y.stack[1..], y.output + [y.stack[0]]), pops);
      var m := |r.output| - |y.output|;
      SliceStep(y.stack, y.output, m);
      assert r.stack == y.stack[m..] && r.output == y.output + y.stack[..m];
      r
    else y
  }

  /** Moving the front of `s` to the back of `o`, `m` times over. */
  lemma SliceStep<X>(s: seq<X>, o: seq<X>, m: nat)
    requires 1 <= m <= |s|
    ensures s[1..][m - 1..] == s[m..]
    ensures o + [s[0]] + s[1..][..m - 1] == o + s[..m]
  {
    assert [s[0]] + s[1..][..m - 1] == s[..m];
  }

  /** The `)` arm after its popping loop: a `(` must be on top; it is dropped, and a
      known function under it moves to the output. */
  function CloseGroup(y: Yard, funcs: seq<string>): Result<Yard, ParseError> {
    if y.stack == [] then Failure(MismatchedParentheses)
    else if !y.stack[0].value.LeftParen? then Failure(ExpectedLeftParen)
    else
      var rest := y.stack[1..];
      if rest != [] && IsFunc(rest[0].value, funcs) then Success(Yard(rest[1..], y.output + [rest[0]]))
      else Success(Yard(rest, y.output))
  }

  /** One iteration of the main loop of `parse`, arm by arm in source order.  `(` is an
      operator (`IsOp(LeftParen)`), so it takes the operator arm and the arm written for
      it after the comma arm is never reached. */
  function Step(y: Yard, t: Token, funcs: seq<string>, binds: seq<string>): Result<Yard, ParseError> {
    if t.value.Integer? || t.value.Float? then Success(Yard(y.stack, y.output + [t]))
    else if IsBinding(t.value, binds) then Success(Yard(y.stack, y.output + [t]))
    else if IsFunc(t.value, funcs) then Success(Yard([t] + y.stack, y.output))
    else if IsOp(t.value) then
      var p := PopToOutput(y, OutranksTest(t.value));
      Success(Yard([t] + p.stack, p.output))
    else if t.value.Comma? then Success(PopToOutput(y, IsStackOperator))
    else if t.value.RightParen? then CloseGroup(PopToOutput(y, IsStackOperator), funcs)
    else Failure(Unsupported(t))
  }

  /** The main loop over the input queue. */
  function Run(input: seq<Token>, y: Yard, funcs: seq<string>, binds: seq<string>): Result<Yard, ParseError>
    decreases |input|
  {
    if input == [] then Success(y)
    else match Step(y, input[0], funcs, binds)
      case Failure(e) => Failure(e)
      case Success(y') => Run(input[1..], y', funcs, binds)
  }

  /** The final loop: the stack is emptied front first into the output; a `(` left on
      it is a mismatched parenthesis. */
  function Drain(y: Yard): Result<seq<Token>, ParseError>
    decreases |y.stack|
  {
    if y.stack == [] then Success(y.output)
    else if y.stack[0].value.LeftParen? then Failure(MismatchedParentheses)
    else Drain(Yard(y.stack[1..], y.output + [y.stack[0]]))
  }

  /** `parse` from the state `y`, to the final output queue or the first error. */
  function Finish(input: seq<Token>, y: Yard, funcs: seq<string>, binds: seq<string>): Result<seq<Token>, ParseError> {
    match Run(input, y, funcs, binds)
    case Failure(e) => Failure(e)
    case Success(y') => Drain(y')
  }

  /** The output queue `ShuntingYardParser::new(input)` leaves, or its error. */
  function Parse(input: seq<Token>, funcs: seq<string>, binds: seq<string>): Result<seq<Token>, ParseError> {
    Finish(input, Yard([], []), funcs, binds)
  }
}
