/** The shunting-yard parser of src/parser.rs: a queue of input tokens is consumed
    front to back, operators wait on a stack, and the output queue receives the tokens in
    postfix order.  Each method is proved to do what the functions of `ParserSpec` say. */
module Parsing {
  import opened Wrappers
  import opened Tokens
  import opened ParserSpec

  class ShuntingYardParser {
    var inputQueue: seq<Token>
    /** Index 0 is the front of the deque, the top of the stack. */
    var operatorStack: seq<Token>
    var outputQueue: seq<Token>
    /** The lists `parse` checks identifiers against. */
    const knownFunctions: seq<string>
    const knownBindings: seq<string>

    constructor(input: seq<Token>, funcs: seq<string>, binds: seq<string>)
      ensures inputQueue == input && operatorStack == [] && outputQueue == []
      ensures knownFunctions == funcs && knownBindings == binds
    {
      inputQueue := input;
      operatorStack := [];
      outputQueue := [];
      knownFunctions := funcs;
      knownBindings := binds;
    }

    /** A popping loop of `parse`: moves stack tops to the output while `pops` accepts
        them. */
    method PopWhile(pops: TokenValue -> bool)
      modifies this`operatorStack, this`outputQueue
      ensures Yard(operatorStack, outputQueue) == PopToOutput(old(Yard(operatorStack, outputQueue)), pops)
    {
      while operatorStack != [] && pops(operatorStack[0].value)
        invariant PopToOutput(old(Yard(operatorStack, outputQueue)), pops)
               == PopToOutput(Yard(operatorStack, outputQueue), pops)
        decreases |operatorStack|
      {
        var top := operatorStack[0];
        operatorStack := operatorStack[1..];
        outputQueue := outputQueue + [top];
      }
    }

    /** The `)` arm after its popping loop. */
    method CloseGroup() returns (err: Option<ParseError>)
      modifies this`operatorStack, this`outputQueue
      ensures var r := ParserSpec.CloseGroup(old(Yard(operatorStack, outputQueue)), knownFunctions);
        && (r.Failure? ==> err == Some(r.error))
        && (r.Success? ==> err.None? && Yard(operatorStack, outputQueue) == r.value)
    {
      if operatorStack == [] {
        return Some(MismatchedParentheses);
      }
      if !operatorStack[0].value.LeftParen? {
        return Some(ExpectedLeftParen);
      }
      operatorStack := operatorStack[1..];
      if operatorStack != [] && IsFunc(operatorStack[0].value, knownFunctions) {
        var f := operatorStack[0];
        operatorStack := operatorStack[1..];
        outputQueue := outputQueue + [f];
      }
      return None;
    }

    /** `parse`: consumes the input queue, then drains the operator stack. */
    method Parse() returns (err: Option<ParseError>)
      modifies this
      ensures var r := Finish(old(inputQueue), old(Yard(operatorStack, outputQueue)), knownFunctions, knownBindings);
        && (r.Failure? ==> err == Some(r.error))
        && (r.Success? ==> err.None? && inputQueue == [] && operatorStack == [] && outputQueue == r.value)
    {
      while inputQueue != []
        invariant Finish(old(inputQueue), old(Yard(operatorStack, outputQueue)), knownFunctions, knownBindings)
               == Finish(inputQueue, Yard(operatorStack, outputQueue), knownFunctions, knownBindings)
        decreases |inputQueue|
      {
        ghost var y := Yard(operatorStack, outputQueue);
        var t := inputQueue[0];
        inputQueue := inputQueue[1..];
        if t.value.Integer? || t.value.Float? {
          outputQueue := outputQueue + [t];
        } else if IsBinding(t.value, knownBindings) {
          outputQueue := outputQueue + [t];
        } else if IsFunc(t.value, knownFunctions) {
          operatorStack := [t] + operatorStack;
        } else if IsOp(t.value) {
          PopWhile(OutranksTest(t.value));
          operatorStack := [t] + operatorStack;
        } else if t.value.Comma? {
          PopWhile(IsStackOperator);
        } else if t.value.RightParen? {
          PopWhile(IsStackOperator);
          err := CloseGroup();
          if err.Some? {
            return;
          }
        } else {
          return Some(Unsupported(t));
        }
        assert Step(y, t, knownFunctions, knownBindings) == Success(Yard(operatorStack, outputQueue));
      }
      while operatorStack != []
        invariant inputQueue == []
        invariant Finish(old(inputQueue), old(Yard(operatorStack, outputQueue)), knownFunctions, knownBindings)
               == Drain(Yard(operatorStack, outputQueue))
        decreases |operatorStack|
      {
        var t := operatorStack[0];
        operatorStack := operatorStack[1..];
        if t.value.LeftParen? {
          return Some(MismatchedParentheses);
        }
        outputQueue := outputQueue + [t];
      }
      return None;
    }
  }

  /** `ShuntingYardParser::new(input)` followed by reading `output_queue`, with the
      known functions and bindings given as parameters. */
  method ShuntingYard(input: seq<Token>, funcs: seq<string>, binds: seq<string>)
    returns (r: Result<seq<Token>, ParseError>)
    ensures r == ParserSpec.Parse(input, funcs, binds)
  {
    var parser := new ShuntingYardParser(input, funcs, binds);
    var err := parser.Parse();
    if err.Some? {
      return Failure(err.value);
    }
    return Success(parser.outputQueue);
  }
}
