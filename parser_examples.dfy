/** The postfix output of a few token sequences, worked through one state of the operator
    stack and output queue at a time. */
module ParserExamples {
  import opened Wrappers
  import opened Tokens
  import opened ParserSpec

  /** A token on the first line, `len` characters long from column `col`. */
  function Tk(col: nat, len: nat, v: TokenValue): Token {
    Token(Loc(1, col), Loc(1, col + len), v)
  }

  /** One iteration of the main loop. */
  lemma FinishStep(input: seq<Token>, y: Yard, y': Yard, funcs: seq<string>, binds: seq<string>)
    requires input != [] && Step(y, input[0], funcs, binds) == Success(y')
    ensures Finish(input, y, funcs, binds) == Finish(input[1..], y', funcs, binds)
  {
  }

  /** A pop of the operator, comma or `)` arm, with the token still to be handled. */
  lemma FinishPop(input: seq<Token>, y: Yard, y': Yard, funcs: seq<string>, binds: seq<string>)
    requires input != [] && Step(y, input[0], funcs, binds) == Step(y', input[0], funcs, binds)
    ensures Finish(input, y, funcs, binds) == Finish(input, y', funcs, binds)
  {
  }

  /** With no `(` left, the draining loop appends the stack to the output, top first. */
  lemma {:induction false} DrainOperators(y: Yard)
    requires forall k :: 0 <= k < |y.stack| ==> !y.stack[k].value.LeftParen?
    ensures Drain(y) == Success(y.output + y.stack)
    decreases |y.stack|
  {
    if y.stack != [] {
      var y' := Yard(y.stack[1..], y.output + [y.stack[0]]);
      assert forall k :: 0 <= k < |y'.stack| ==> y'.stack[k] == y.stack[k + 1];
      DrainOperators(y');
      assert y.stack == [y.stack[0]] + y.stack[1..];
      assert y'.output + y'.stack == y.output + y.stack;
    } else {
      assert y.output + y.stack == y.output;
    }
  }

  lemma FinishDrains(y: Yard, funcs: seq<string>, binds: seq<string>)
    requires forall k :: 0 <= k < |y.stack| ==> !y.stack[k].value.LeftParen?
    ensures Finish([], y, funcs, binds) == Success(y.output + y.stack)
  {
    DrainOperators(y);
  }

  /** The arms of one step, with the state they leave. */
  lemma OperandArm(y: Yard, t: Token, y': Yard, funcs: seq<string>, binds: seq<string>)
    requires t.value.Integer? || IsBinding(t.value, binds)
    requires y' == Yard(y.stack, y.output + [t])
    ensures Step(y, t, funcs, binds) == Success(y')
  {
  }

  lemma FunctionArm(y: Yard, t: Token, y': Yard, funcs: seq<string>, binds: seq<string>)
    requires IsFunc(t.value, funcs) && !IsBinding(t.value, binds)
    requires y' == Yard([t] + y.stack, y.output)
    ensures Step(y, t, funcs, binds) == Success(y')
  {
  }

  lemma PushArm(y: Yard, t: Token, y': Yard, funcs: seq<string>, binds: seq<string>)
    requires IsOp(t.value) && (y.stack == [] || !Outranks(y.stack[0].value, t.value))
    requires y' == Yard([t] + y.stack, y.output)
    ensures Step(y, t, funcs, binds) == Success(y')
  {
    IsOpByFamily(t.value);
  }

  /** An operator that pops the top of the stack, then goes on. */
  lemma PopArm(y: Yard, t: Token, y': Yard, funcs: seq<string>, binds: seq<string>)
    requires IsOp(t.value) && y.stack != [] && Outranks(y.stack[0].value, t.value)
    requires y' == Yard(y.stack[1..], y.output + [y.stack[0]])
    ensures Step(y, t, funcs, binds) == Step(y', t, funcs, binds)
  {
    IsOpByFamily(t.value);
  }

  /** A comma or `)` that pops the operator on top of the stack, then goes on. */
  lemma FlushArm(y: Yard, t: Token, y': Yard, funcs: seq<string>, binds: seq<string>)
    requires t.value.Comma? || t.value.RightParen?
    requires y.stack != [] && IsStackOperator(y.stack[0].value)
    requires y' == Yard(y.stack[1..], y.output + [y.stack[0]])
    ensures Step(y, t, funcs, binds) == Step(y', t, funcs, binds)
  {
    IsOpByFamily(t.value);
  }

  /** A comma with no operator on top. */
  lemma CommaArm(y: Yard, t: Token, funcs: seq<string>, binds: seq<string>)
    requires t.value.Comma? && (y.stack == [] || !IsStackOperator(y.stack[0].value))
    ensures Step(y, t, funcs, binds) == Success(y)
  {
    IsOpByFamily(t.value);
  }

  /** A `)` with a `(` on top and a known function under it. */
  lemma CallArm(y: Yard, t: Token, y': Yard, funcs: seq<string>, binds: seq<string>)
    requires t.value.RightParen? && |y.stack| >= 2 && y.stack[0].value.LeftParen? && IsFunc(y.stack[1].value, funcs)
    requires y' == Yard(y.stack[2..], y.output + [y.stack[1]])
    ensures Step(y, t, funcs, binds) == Success(y')
  {
    IsOpByFamily(t.value);
    IsOpByFamily(y.stack[0].value);
  }

  /** A `)` with a `(` on top and no known function under it. */
  lemma GroupArm(y: Yard, t: Token, y': Yard, funcs: seq<string>, binds: seq<string>)
    requires t.value.RightParen? && y.stack != [] && y.stack[0].value.LeftParen?
    requires y.stack[1..] == [] || !IsFunc(y.stack[1].value, funcs)
    requires y' == Yard(y.stack[1..], y.output)
    ensures Step(y, t, funcs, binds) == Success(y')
  {
    IsOpByFamily(t.value);
    IsOpByFamily(y.stack[0].value);
  }

  // ---------------------------------------------------------------------------
  // How the operators of the examples rank.

  lemma EqualDoesNotOutrankEqual()
    ensures IsOp(Equal) && IsOp(Equal) && !Outranks(Equal, Equal)
  {
  }

  lemma MinusOutranksMinus()
    ensures IsOp(Minus) && IsOp(Minus) && Outranks(Minus, Minus)
  {
  }

  lemma PlusDoesNotOutrankStar()
    ensures IsOp(Plus) && IsOp(Star) && !Outranks(Plus, Star)
  {
  }

  lemma StarOutranksLeftParen()
    ensures IsOp(Star) && IsOp(LeftParen) && Outranks(Star, LeftParen)
  {
  }

  lemma StarOutranksPlus()
    ensures IsOp(Star) && IsOp(Plus) && Outranks(Star, Plus)
  {
  }

  // ---------------------------------------------------------------------------
  // `3 + 4 * 2`: the `*` is pushed on the `+`, which does not outrank it.

  const N3 := Tk(1, 1, Integer(3))
  const Add := Tk(3, 1, Plus)
  const N4 := Tk(5, 1, Integer(4))
  const Mul := Tk(7, 1, Star)
  const N2 := Tk(9, 1, Integer(2))

  lemma Precedence5()
    ensures Finish([], Yard([Mul, Add], [N3, N4, N2]), DemoFunctions, DemoBindings) == Success([N3, N4, N2, Mul, Add])
  {
    var y := Yard([Mul, Add], [N3, N4, N2]);
    assert y.stack[0].value == Star && y.stack[1].value == Plus;
    FinishDrains(y, DemoFunctions, DemoBindings);
    assert y.output + y.stack == [N3, N4, N2, Mul, Add];
  }

  lemma Precedence4()
    ensures Finish([N2], Yard([Mul, Add], [N3, N4]), DemoFunctions, DemoBindings) == Success([N3, N4, N2, Mul, Add])
  {
    Precedence5();
    var F, B := DemoFunctions, DemoBindings;
    OperandArm(Yard([Mul, Add], [N3, N4]), N2, Yard([Mul, Add], [N3, N4, N2]), F, B);
    FinishStep([N2], Yard([Mul, Add], [N3, N4]), Yard([Mul, Add], [N3, N4, N2]), F, B);
  }

  /** The `+` on top does not outrank `*`, so `*` is pushed on it. */
  lemma Precedence3()
    ensures Finish([Mul, N2], Yard([Add], [N3, N4]), DemoFunctions, DemoBindings) == Success([N3, N4, N2, Mul, Add])
  {
    Precedence4();
    var F, B := DemoFunctions, DemoBindings;
    PlusDoesNotOutrankStar();
    PushArm(Yard([Add], [N3, N4]), Mul, Yard([Mul, Add], [N3, N4]), F, B);
    FinishStep([Mul, N2], Yard([Add], [N3, N4]), Yard([Mul, Add], [N3, N4]), F, B);
  }

  lemma Precedence2()
    ensures Finish([N4, Mul, N2], Yard([Add], [N3]), DemoFunctions, DemoBindings) == Success([N3, N4, N2, Mul, Add])
  {
    Precedence3();
    var F, B := DemoFunctions, DemoBindings;
    OperandArm(Yard([Add], [N3]), N4, Yard([Add], [N3, N4]), F, B);
    FinishStep([N4, Mul, N2], Yard([Add], [N3]), Yard([Add], [N3, N4]), F, B);
  }

  lemma Precedence1()
    ensures Finish([Add, N4, Mul, N2], Yard([], [N3]), DemoFunctions, DemoBindings) == Success([N3, N4, N2, Mul, Add])
  {
    Precedence2();
    var F, B := DemoFunctions, DemoBindings;
    PushArm(Yard([], [N3]), Add, Yard([Add], [N3]), F, B);
    FinishStep([Add, N4, Mul, N2], Yard([], [N3]), Yard([Add], [N3]), F, B);
  }

  lemma Precedence0()
    ensures Finish([N3, Add, N4, Mul, N2], Yard([], []), DemoFunctions, DemoBindings) == Success([N3, N4, N2, Mul, Add])
  {
    Precedence1();
    var F, B := DemoFunctions, DemoBindings;
    OperandArm(Yard([], []), N3, Yard([], [N3]), F, B);
    FinishStep([N3, Add, N4, Mul, N2], Yard([], []), Yard([], [N3]), F, B);
  }

  /** `3 + 4 * 2` becomes `3 4 2 * +`. */
  lemma PrecedenceExample()
    ensures Parse([N3, Add, N4, Mul, N2], DemoFunctions, DemoBindings) == Success([N3, N4, N2, Mul, Add])
  {
    Precedence0();
  }

  // ---------------------------------------------------------------------------
  // `3 - 4 - 2`: `-` is left-associative, so the first `-` is popped by the second.

  const L3 := Tk(1, 1, Integer(3))
  const Sub1 := Tk(3, 1, Minus)
  const L4 := Tk(5, 1, Integer(4))
  const Sub2 := Tk(7, 1, Minus)
  const L2 := Tk(9, 1, Integer(2))

  lemma LeftAssoc6()
    ensures Finish([], Yard([Sub2], [L3, L4, Sub1, L2]), DemoFunctions, DemoBindings) == Success([L3, L4, Sub1, L2, Sub2])
  {
    var y := Yard([Sub2], [L3, L4, Sub1, L2]);
    assert y.stack[0].value == Minus;
    FinishDrains(y, DemoFunctions, DemoBindings);
    assert y.output + y.stack == [L3, L4, Sub1, L2, Sub2];
  }

  lemma LeftAssoc5()
    ensures Finish([L2], Yard([Sub2], [L3, L4, Sub1]), DemoFunctions, DemoBindings) == Success([L3, L4, Sub1, L2, Sub2])
  {
    LeftAssoc6();
    var F, B := DemoFunctions, DemoBindings;
    OperandArm(Yard([Sub2], [L3, L4, Sub1]), L2, Yard([Sub2], [L3, L4, Sub1, L2]), F, B);
    FinishStep([L2], Yard([Sub2], [L3, L4, Sub1]), Yard([Sub2], [L3, L4, Sub1, L2]), F, B);
  }

  lemma LeftAssoc4()
    ensures Finish([Sub2, L2], Yard([], [L3, L4, Sub1]), DemoFunctions, DemoBindings) == Success([L3, L4, Sub1, L2, Sub2])
  {
    LeftAssoc5();
    var F, B := DemoFunctions, DemoBindings;
    PushArm(Yard([], [L3, L4, Sub1]), Sub2, Yard([Sub2], [L3, L4, Sub1]), F, B);
    FinishStep([Sub2, L2], Yard([], [L3, L4, Sub1]), Yard([Sub2], [L3, L4, Sub1]), F, B);
  }

  /** The first `-` ties with the incoming one, which is left-associative, so it is popped. */
  lemma LeftAssoc3()
    ensures Finish([Sub2, L2], Yard([Sub1], [L3, L4]), DemoFunctions, DemoBindings) == Success([L3, L4, Sub1, L2, Sub2])
  {
    LeftAssoc4();
    var F, B := DemoFunctions, DemoBindings;
    MinusOutranksMinus();
    PopArm(Yard([Sub1], [L3, L4]), Sub2, Yard([], [L3, L4, Sub1]), F, B);
    FinishPop([Sub2, L2], Yard([Sub1], [L3, L4]), Yard([], [L3, L4, Sub1]), F, B);
  }

  lemma LeftAssoc2()
    ensures Finish([L4, Sub2, L2], Yard([Sub1], [L3]), DemoFunctions, DemoBindings) == Success([L3, L4, Sub1, L2, Sub2])
  {
    LeftAssoc3();
    var F, B := DemoFunctions, DemoBindings;
    OperandArm(Yard([Sub1], [L3]), L4, Yard([Sub1], [L3, L4]), F, B);
    FinishStep([L4, Sub2, L2], Yard([Sub1], [L3]), Yard([Sub1], [L3, L4]), F, B);
  }

  lemma LeftAssoc1()
    ensures Finish([Sub1, L4, Sub2, L2], Yard([], [L3]), DemoFunctions, DemoBindings) == Success([L3, L4, Sub1, L2, Sub2])
  {
    LeftAssoc2();
    var F, B := DemoFunctions, DemoBindings;
    PushArm(Yard([], [L3]), Sub1, Yard([Sub1], [L3]), F, B);
    FinishStep([Sub1, L4, Sub2, L2], Yard([], [L3]), Yard([Sub1], [L3]), F, B);
  }

  lemma LeftAssoc0()
    ensures Finish([L3, Sub1, L4, Sub2, L2], Yard([], []), DemoFunctions, DemoBindings) == Success([L3, L4, Sub1, L2, Sub2])
  {
    LeftAssoc1();
    var F, B := DemoFunctions, DemoBindings;
    OperandArm(Yard([], []), L3, Yard([], [L3]), F, B);
    FinishStep([L3, Sub1, L4, Sub2, L2], Yard([], []), Yard([], [L3]), F, B);
  }

  /** `3 - 4 - 2` becomes `3 4 - 2 -`. */
  lemma LeftAssociativeExample()
    ensures Parse([L3, Sub1, L4, Sub2, L2], DemoFunctions, DemoBindings) == Success([L3, L4, Sub1, L2, Sub2])
  {
    LeftAssoc0();
  }

  // ---------------------------------------------------------------------------
  // `x = y = 3`: `=` is right-associative, so the first `=` stays under the second.

  const RX := Tk(1, 1, Identifier("x"))
  const Eq1 := Tk(3, 1, Equal)
  const RY := Tk(5, 1, Identifier("y"))
  const Eq2 := Tk(7, 1, Equal)
  const R3 := Tk(9, 1, Integer(3))

  lemma RightAssoc5()
    ensures Finish([], Yard([Eq2, Eq1], [RX, RY, R3]), DemoFunctions, DemoBindings) == Success([RX, RY, R3, Eq2, Eq1])
  {
    var y := Yard([Eq2, Eq1], [RX, RY, R3]);
    assert y.stack[0].value == Equal && y.stack[1].value == Equal;
    FinishDrains(y, DemoFunctions, DemoBindings);
    assert y.output + y.stack == [RX, RY, R3, Eq2, Eq1];
  }

  lemma RightAssoc4()
    ensures Finish([R3], Yard([Eq2, Eq1], [RX, RY]), DemoFunctions, DemoBindings) == Success([RX, RY, R3, Eq2, Eq1])
  {
    RightAssoc5();
    var F, B := DemoFunctions, DemoBindings;
    OperandArm(Yard([Eq2, Eq1], [RX, RY]), R3, Yard([Eq2, Eq1], [RX, RY, R3]), F, B);
    FinishStep([R3], Yard([Eq2, Eq1], [RX, RY]), Yard([Eq2, Eq1], [RX, RY, R3]), F, B);
  }

  /** The first `=` ties with the incoming one, which is right-associative, so it stays. */
  lemma RightAssoc3()
    ensures Finish([Eq2, R3], Yard([Eq1], [RX, RY]), DemoFunctions, DemoBindings) == Success([RX, RY, R3, Eq2, Eq1])
  {
    RightAssoc4();
    var F, B := DemoFunctions, DemoBindings;
    EqualDoesNotOutrankEqual();
    PushArm(Yard([Eq1], [RX, RY]), Eq2, Yard([Eq2, Eq1], [RX, RY]), F, B);
    FinishStep([Eq2, R3], Yard([Eq1], [RX, RY]), Yard([Eq2, Eq1], [RX, RY]), F, B);
  }

  lemma RightAssoc2()
    ensures Finish([RY, Eq2, R3], Yard([Eq1], [RX]), DemoFunctions, DemoBindings) == Success([RX, RY, R3, Eq2, Eq1])
  {
    RightAssoc3();
    var F, B := DemoFunctions, DemoBindings;
    OperandArm(Yard([Eq1], [RX]), RY, Yard([Eq1], [RX, RY]), F, B);
    FinishStep([RY, Eq2, R3], Yard([Eq1], [RX]), Yard([Eq1], [RX, RY]), F, B);
  }

  lemma RightAssoc1()
    ensures Finish([Eq1, RY, Eq2, R3], Yard([], [RX]), DemoFunctions, DemoBindings) == Success([RX, RY, R3, Eq2, Eq1])
  {
    RightAssoc2();
    var F, B := DemoFunctions, DemoBindings;
    PushArm(Yard([], [RX]), Eq1, Yard([Eq1], [RX]), F, B);
    FinishStep([Eq1, RY, Eq2, R3], Yard([], [RX]), Yard([Eq1], [RX]), F, B);
  }

  lemma RightAssoc0()
    ensures Finish([RX, Eq1, RY, Eq2, R3], Yard([], []), DemoFunctions, DemoBindings) == Success([RX, RY, R3, Eq2, Eq1])
  {
    RightAssoc1();
    var F, B := DemoFunctions, DemoBindings;
    OperandArm(Yard([], []), RX, Yard([], [RX]), F, B);
    FinishStep([RX, Eq1, RY, Eq2, R3], Yard([], []), Yard([], [RX]), F, B);
  }

  /** `x = y = 3` becomes `x y 3 = =`. */
  lemma RightAssociativeExample()
    ensures Parse([RX, Eq1, RY, Eq2, R3], DemoFunctions, DemoBindings) == Success([RX, RY, R3, Eq2, Eq1])
  {
    RightAssoc0();
  }

  // ---------------------------------------------------------------------------
  // `(3 + 4) * 2`: the parentheses make `+` come out before `*`.

  const GOpen := Tk(1, 1, LeftParen)
  const G3 := Tk(2, 1, Integer(3))
  const GAdd := Tk(4, 1, Plus)
  const G4 := Tk(6, 1, Integer(4))
  const GClose := Tk(7, 1, RightParen)
  const GMul := Tk(9, 1, Star)
  const G2 := Tk(11, 1, Integer(2))

  lemma Group8()
    ensures Finish([], Yard([GMul], [G3, G4, GAdd, G2]), DemoFunctions, DemoBindings) == Success([G3, G4, GAdd, G2, GMul])
  {
    var y := Yard([GMul], [G3, G4, GAdd, G2]);
    assert y.stack[0].value == Star;
    FinishDrains(y, DemoFunctions, DemoBindings);
    assert y.output + y.stack == [G3, G4, GAdd, G2, GMul];
  }

  lemma Group7()
    ensures Finish([G2], Yard([GMul], [G3, G4, GAdd]), DemoFunctions, DemoBindings) == Success([G3, G4, GAdd, G2, GMul])
  {
    Group8();
    var F, B := DemoFunctions, DemoBindings;
    OperandArm(Yard([GMul], [G3, G4, GAdd]), G2, Yard([GMul], [G3, G4, GAdd, G2]), F, B);
    FinishStep([G2], Yard([GMul], [G3, G4, GAdd]), Yard([GMul], [G3, G4, GAdd, G2]), F, B);
  }

  lemma Group6()
    ensures Finish([GMul, G2], Yard([], [G3, G4, GAdd]), DemoFunctions, DemoBindings) == Success([G3, G4, GAdd, G2, GMul])
  {
    Group7();
    var F, B := DemoFunctions, DemoBindings;
    PushArm(Yard([], [G3, G4, GAdd]), GMul, Yard([GMul], [G3, G4, GAdd]), F, B);
    FinishStep([GMul, G2], Yard([], [G3, G4, GAdd]), Yard([GMul], [G3, G4, GAdd]), F, B);
  }

  /** ... and drops the `(`. */
  lemma Group5()
    ensures Finish([GClose, GMul, G2], Yard([GOpen], [G3, G4, GAdd]), DemoFunctions, DemoBindings) == Success([G3, G4, GAdd, G2, GMul])
  {
    Group6();
    var F, B := DemoFunctions, DemoBindings;
    GroupArm(Yard([GOpen], [G3, G4, GAdd]), GClose, Yard([], [G3, G4, GAdd]), F, B);
    FinishStep([GClose, GMul, G2], Yard([GOpen], [G3, G4, GAdd]), Yard([], [G3, G4, GAdd]), F, B);
  }

  /** The `)` pops the `+` ... */
  lemma Group4()
    ensures Finish([GClose, GMul, G2], Yard([GAdd, GOpen], [G3, G4]), DemoFunctions, DemoBindings) == Success([G3, G4, GAdd, G2, GMul])
  {
    Group5();
    var F, B := DemoFunctions, DemoBindings;
    FlushArm(Yard([GAdd, GOpen], [G3, G4]), GClose, Yard([GOpen], [G3, G4, GAdd]), F, B);
    FinishPop([GClose, GMul, G2], Yard([GAdd, GOpen], [G3, G4]), Yard([GOpen], [G3, G4, GAdd]), F, B);
  }

  lemma Group3()
    ensures Finish([G4, GClose, GMul, G2], Yard([GAdd, GOpen], [G3]), DemoFunctions, DemoBindings) == Success([G3, G4, GAdd, G2, GMul])
  {
    Group4();
    var F, B := DemoFunctions, DemoBindings;
    OperandArm(Yard([GAdd, GOpen], [G3]), G4, Yard([GAdd, GOpen], [G3, G4]), F, B);
    FinishStep([G4, GClose, GMul, G2], Yard([GAdd, GOpen], [G3]), Yard([GAdd, GOpen], [G3, G4]), F, B);
  }

  lemma Group2()
    ensures Finish([GAdd, G4, GClose, GMul, G2], Yard([GOpen], [G3]), DemoFunctions, DemoBindings) == Success([G3, G4, GAdd, G2, GMul])
  {
    Group3();
    var F, B := DemoFunctions, DemoBindings;
    assert !Outranks(LeftParen, Plus);
    PushArm(Yard([GOpen], [G3]), GAdd, Yard([GAdd, GOpen], [G3]), F, B);
    FinishStep([GAdd, G4, GClose, GMul, G2], Yard([GOpen], [G3]), Yard([GAdd, GOpen], [G3]), F, B);
  }

  lemma Group1()
    ensures Finish([G3, GAdd, G4, GClose, GMul, G2], Yard([GOpen], []), DemoFunctions, DemoBindings) == Success([G3, G4, GAdd, G2, GMul])
  {
    Group2();
    var F, B := DemoFunctions, DemoBindings;
    OperandArm(Yard([GOpen], []), G3, Yard([GOpen], [G3]), F, B);
    FinishStep([G3, GAdd, G4, GClose, GMul, G2], Yard([GOpen], []), Yard([GOpen], [G3]), F, B);
  }

  lemma Group0()
    ensures Finish([GOpen, G3, GAdd, G4, GClose, GMul, G2], Yard([], []), DemoFunctions, DemoBindings) == Success([G3, G4, GAdd, G2, GMul])
  {
    Group1();
    var F, B := DemoFunctions, DemoBindings;
    PushArm(Yard([], []), GOpen, Yard([GOpen], []), F, B);
    FinishStep([GOpen, G3, GAdd, G4, GClose, GMul, G2], Yard([], []), Yard([GOpen], []), F, B);
  }

  /** `(3 + 4) * 2` becomes `3 4 + 2 *`. */
  lemma GroupExample()
    ensures Parse([GOpen, G3, GAdd, G4, GClose, GMul, G2], DemoFunctions, DemoBindings) == Success([G3, G4, GAdd, G2, GMul])
  {
    Group0();
  }

  // ---------------------------------------------------------------------------
  // `x = max(10, 1309, x * 2 + y)`: a call with three arguments.

  const DX := Tk(1, 1, Identifier("x"))
  const DAssign := Tk(3, 1, Equal)
  const DMax := Tk(5, 3, Identifier("max"))
  const DOpen := Tk(8, 1, LeftParen)
  const D10 := Tk(9, 2, Integer(10))
  const DComma1 := Tk(11, 1, Comma)
  const D1309 := Tk(13, 4, Integer(1309))
  const DComma2 := Tk(17, 1, Comma)
  const DX2 := Tk(19, 1, Identifier("x"))
  const DMul := Tk(21, 1, Star)
  const D2 := Tk(23, 1, Integer(2))
  const DAdd := Tk(25, 1, Plus)
  const DY := Tk(27, 1, Identifier("y"))
  const DClose := Tk(28, 1, RightParen)

  lemma Demo16()
    ensures Finish([], Yard([DAssign], [DX, D10, D1309, DX2, D2, DMul, DY, DAdd, DMax]), DemoFunctions, DemoBindings) == Success([DX, D10, D1309, DX2, D2, DMul, DY, DAdd, DMax, DAssign])
  {
    var y := Yard([DAssign], [DX, D10, D1309, DX2, D2, DMul, DY, DAdd, DMax]);
    assert y.stack[0].value == Equal;
    FinishDrains(y, DemoFunctions, DemoBindings);
    assert y.output + y.stack == [DX, D10, D1309, DX2, D2, DMul, DY, DAdd, DMax, DAssign];
  }

  /** ... then drops the `(` and outputs the function under it. */
  lemma Demo15()
    ensures Finish([DClose], Yard([DOpen, DMax, DAssign], [DX, D10, D1309, DX2, D2, DMul, DY, DAdd]), DemoFunctions, DemoBindings) == Success([DX, D10, D1309, DX2, D2, DMul, DY, DAdd, DMax, DAssign])
  {
    Demo16();
    var F, B := DemoFunctions, DemoBindings;
    CallArm(Yard([DOpen, DMax, DAssign], [DX, D10, D1309, DX2, D2, DMul, DY, DAdd]), DClose, Yard([DAssign], [DX, D10, D1309, DX2, D2, DMul, DY, DAdd, DMax]), F, B);
    FinishStep([DClose], Yard([DOpen, DMax, DAssign], [DX, D10, D1309, DX2, D2, DMul, DY, DAdd]), Yard([DAssign], [DX, D10, D1309, DX2, D2, DMul, DY, DAdd, DMax]), F, B);
  }

  /** The `)` pops the `+` ... */
  lemma Demo14()
    ensures Finish([DClose], Yard([DAdd, DOpen, DMax, DAssign], [DX, D10, D1309, DX2, D2, DMul, DY]), DemoFunctions, DemoBindings) == Success([DX, D10, D1309, DX2, D2, DMul, DY, DAdd, DMax, DAssign])
  {
    Demo15();
    var F, B := DemoFunctions, DemoBindings;
    FlushArm(Yard([DAdd, DOpen, DMax, DAssign], [DX, D10, D1309, DX2, D2, DMul, DY]), DClose, Yard([DOpen, DMax, DAssign], [DX, D10, D1309, DX2, D2, DMul, DY, DAdd]), F, B);
    FinishPop([DClose], Yard([DAdd, DOpen, DMax, DAssign], [DX, D10, D1309, DX2, D2, DMul, DY]), Yard([DOpen, DMax, DAssign], [DX, D10, D1309, DX2, D2, DMul, DY, DAdd]), F, B);
  }

  lemma Demo13()
    ensures Finish([DY, DClose], Yard([DAdd, DOpen, DMax, DAssign], [DX, D10, D1309, DX2, D2, DMul]), DemoFunctions, DemoBindings) == Success([DX, D10, D1309, DX2, D2, DMul, DY, DAdd, DMax, DAssign])
  {
    Demo14();
    var F, B := DemoFunctions, DemoBindings;
    OperandArm(Yard([DAdd, DOpen, DMax, DAssign], [DX, D10, D1309, DX2, D2, DMul]), DY, Yard([DAdd, DOpen, DMax, DAssign], [DX, D10, D1309, DX2, D2, DMul, DY]), F, B);
    FinishStep([DY, DClose], Yard([DAdd, DOpen, DMax, DAssign], [DX, D10, D1309, DX2, D2, DMul]), Yard([DAdd, DOpen, DMax, DAssign], [DX, D10, D1309, DX2, D2, DMul, DY]), F, B);
  }

  lemma Demo12()
    ensures Finish([DAdd, DY, DClose], Yard([DOpen, DMax, DAssign], [DX, D10, D1309, DX2, D2, DMul]), DemoFunctions, DemoBindings) == Success([DX, D10, D1309, DX2, D2, DMul, DY, DAdd, DMax, DAssign])
  {
    Demo13();
    var F, B := DemoFunctions, DemoBindings;
    assert !Outranks(LeftParen, Plus);
    PushArm(Yard([DOpen, DMax, DAssign], [DX, D10, D1309, DX2, D2, DMul]), DAdd, Yard([DAdd, DOpen, DMax, DAssign], [DX, D10, D1309, DX2, D2, DMul]), F, B);
    FinishStep([DAdd, DY, DClose], Yard([DOpen, DMax, DAssign], [DX, D10, D1309, DX2, D2, DMul]), Yard([DAdd, DOpen, DMax, DAssign], [DX, D10, D1309, DX2, D2, DMul]), F, B);
  }

  /** The `*` outranks the incoming `+` and is popped. */
  lemma Demo11()
    ensures Finish([DAdd, DY, DClose], Yard([DMul, DOpen, DMax, DAssign], [DX, D10, D1309, DX2, D2]), DemoFunctions, DemoBindings) == Success([DX, D10, D1309, DX2, D2, DMul, DY, DAdd, DMax, DAssign])
  {
    Demo12();
    var F, B := DemoFunctions, DemoBindings;
    StarOutranksPlus();
    PopArm(Yard([DMul, DOpen, DMax, DAssign], [DX, D10, D1309, DX2, D2]), DAdd, Yard([DOpen, DMax, DAssign], [DX, D10, D1309, DX2, D2, DMul]), F, B);
    FinishPop([DAdd, DY, DClose], Yard([DMul, DOpen, DMax, DAssign], [DX, D10, D1309, DX2, D2]), Yard([DOpen, DMax, DAssign], [DX, D10, D1309, DX2, D2, DMul]), F, B);
  }

  lemma Demo10()
    ensures Finish([D2, DAdd, DY, DClose], Yard([DMul, DOpen, DMax, DAssign], [DX, D10, D1309, DX2]), DemoFunctions, DemoBindings) == Success([DX, D10, D1309, DX2, D2, DMul, DY, DAdd, DMax, DAssign])
  {
    Demo11();
    var F, B := DemoFunctions, DemoBindings;
    OperandArm(Yard([DMul, DOpen, DMax, DAssign], [DX, D10, D1309, DX2]), D2, Yard([DMul, DOpen, DMax, DAssign], [DX, D10, D1309, DX2, D2]), F, B);
    FinishStep([D2, DAdd, DY, DClose], Yard([DMul, DOpen, DMax, DAssign], [DX, D10, D1309, DX2]), Yard([DMul, DOpen, DMax, DAssign], [DX, D10, D1309, DX2, D2]), F, B);
  }

  lemma Demo9()
    ensures Finish([DMul, D2, DAdd, DY, DClose], Yard([DOpen, DMax, DAssign], [DX, D10, D1309, DX2]), DemoFunctions, DemoBindings) == Success([DX, D10, D1309, DX2, D2, DMul, DY, DAdd, DMax, DAssign])
  {
    Demo10();
    var F, B := DemoFunctions, DemoBindings;
    assert !Outranks(LeftParen, Star);
    PushArm(Yard([DOpen, DMax, DAssign], [DX, D10, D1309, DX2]), DMul, Yard([DMul, DOpen, DMax, DAssign], [DX, D10, D1309, DX2]), F, B);
    FinishStep([DMul, D2, DAdd, DY, DClose], Yard([DOpen, DMax, DAssign], [DX, D10, D1309, DX2]), Yard([DMul, DOpen, DMax, DAssign], [DX, D10, D1309, DX2]), F, B);
  }

  lemma Demo8()
    ensures Finish([DX2, DMul, D2, DAdd, DY, DClose], Yard([DOpen, DMax, DAssign], [DX, D10, D1309]), DemoFunctions, DemoBindings) == Success([DX, D10, D1309, DX2, D2, DMul, DY, DAdd, DMax, DAssign])
  {
    Demo9();
    var F, B := DemoFunctions, DemoBindings;
    OperandArm(Yard([DOpen, DMax, DAssign], [DX, D10, D1309]), DX2, Yard([DOpen, DMax, DAssign], [DX, D10, D1309, DX2]), F, B);
    FinishStep([DX2, DMul, D2, DAdd, DY, DClose], Yard([DOpen, DMax, DAssign], [DX, D10, D1309]), Yard([DOpen, DMax, DAssign], [DX, D10, D1309, DX2]), F, B);
  }

  lemma Demo7()
    ensures Finish([DComma2, DX2, DMul, D2, DAdd, DY, DClose], Yard([DOpen, DMax, DAssign], [DX, D10, D1309]), DemoFunctions, DemoBindings) == Success([DX, D10, D1309, DX2, D2, DMul, DY, DAdd, DMax, DAssign])
  {
    Demo8();
    var F, B := DemoFunctions, DemoBindings;
    CommaArm(Yard([DOpen, DMax, DAssign], [DX, D10, D1309]), DComma2, F, B);
    FinishStep([DComma2, DX2, DMul, D2, DAdd, DY, DClose], Yard([DOpen, DMax, DAssign], [DX, D10, D1309]), Yard([DOpen, DMax, DAssign], [DX, D10, D1309]), F, B);
  }

  lemma Demo6()
    ensures Finish([D1309, DComma2, DX2, DMul, D2, DAdd, DY, DClose], Yard([DOpen, DMax, DAssign], [DX, D10]), DemoFunctions, DemoBindings) == Success([DX, D10, D1309, DX2, D2, DMul, DY, DAdd, DMax, DAssign])
  {
    Demo7();
    var F, B := DemoFunctions, DemoBindings;
    OperandArm(Yard([DOpen, DMax, DAssign], [DX, D10]), D1309, Yard([DOpen, DMax, DAssign], [DX, D10, D1309]), F, B);
    FinishStep([D1309, DComma2, DX2, DMul, D2, DAdd, DY, DClose], Yard([DOpen, DMax, DAssign], [DX, D10]), Yard([DOpen, DMax, DAssign], [DX, D10, D1309]), F, B);
  }

  /** A comma with `(` on top pops nothing. */
  lemma Demo5()
    ensures Finish([DComma1, D1309, DComma2, DX2, DMul, D2, DAdd, DY, DClose], Yard([DOpen, DMax, DAssign], [DX, D10]), DemoFunctions, DemoBindings) == Success([DX, D10, D1309, DX2, D2, DMul, DY, DAdd, DMax, DAssign])
  {
    Demo6();
    var F, B := DemoFunctions, DemoBindings;
    CommaArm(Yard([DOpen, DMax, DAssign], [DX, D10]), DComma1, F, B);
    FinishStep([DComma1, D1309, DComma2, DX2, DMul, D2, DAdd, DY, DClose], Yard([DOpen, DMax, DAssign], [DX, D10]), Yard([DOpen, DMax, DAssign], [DX, D10]), F, B);
  }

  lemma Demo4()
    ensures Finish([D10, DComma1, D1309, DComma2, DX2, DMul, D2, DAdd, DY, DClose], Yard([DOpen, DMax, DAssign], [DX]), DemoFunctions, DemoBindings) == Success([DX, D10, D1309, DX2, D2, DMul, DY, DAdd, DMax, DAssign])
  {
    Demo5();
    var F, B := DemoFunctions, DemoBindings;
    OperandArm(Yard([DOpen, DMax, DAssign], [DX]), D10, Yard([DOpen, DMax, DAssign], [DX, D10]), F, B);
    FinishStep([D10, DComma1, D1309, DComma2, DX2, DMul, D2, DAdd, DY, DClose], Yard([DOpen, DMax, DAssign], [DX]), Yard([DOpen, DMax, DAssign], [DX, D10]), F, B);
  }

  /** The `(` is pushed on the function, which is not an operator. */
  lemma Demo3()
    ensures Finish([DOpen, D10, DComma1, D1309, DComma2, DX2, DMul, D2, DAdd, DY, DClose], Yard([DMax, DAssign], [DX]), DemoFunctions, DemoBindings) == Success([DX, D10, D1309, DX2, D2, DMul, DY, DAdd, DMax, DAssign])
  {
    Demo4();
    var F, B := DemoFunctions, DemoBindings;
    assert !Outranks(Identifier("max"), LeftParen);
    PushArm(Yard([DMax, DAssign], [DX]), DOpen, Yard([DOpen, DMax, DAssign], [DX]), F, B);
    FinishStep([DOpen, D10, DComma1, D1309, DComma2, DX2, DMul, D2, DAdd, DY, DClose], Yard([DMax, DAssign], [DX]), Yard([DOpen, DMax, DAssign], [DX]), F, B);
  }

  /** A known function is pushed. */
  lemma Demo2()
    ensures Finish([DMax, DOpen, D10, DComma1, D1309, DComma2, DX2, DMul, D2, DAdd, DY, DClose], Yard([DAssign], [DX]), DemoFunctions, DemoBindings) == Success([DX, D10, D1309, DX2, D2, DMul, DY, DAdd, DMax, DAssign])
  {
    Demo3();
    var F, B := DemoFunctions, DemoBindings;
    FunctionArm(Yard([DAssign], [DX]), DMax, Yard([DMax, DAssign], [DX]), F, B);
    FinishStep([DMax, DOpen, D10, DComma1, D1309, DComma2, DX2, DMul, D2, DAdd, DY, DClose], Yard([DAssign], [DX]), Yard([DMax, DAssign], [DX]), F, B);
  }

  lemma Demo1()
    ensures Finish([DAssign, DMax, DOpen, D10, DComma1, D1309, DComma2, DX2, DMul, D2, DAdd, DY, DClose], Yard([], [DX]), DemoFunctions, DemoBindings) == Success([DX, D10, D1309, DX2, D2, DMul, DY, DAdd, DMax, DAssign])
  {
    Demo2();
    var F, B := DemoFunctions, DemoBindings;
    PushArm(Yard([], [DX]), DAssign, Yard([DAssign], [DX]), F, B);
    FinishStep([DAssign, DMax, DOpen, D10, DComma1, D1309, DComma2, DX2, DMul, D2, DAdd, DY, DClose], Yard([], [DX]), Yard([DAssign], [DX]), F, B);
  }

  lemma Demo0()
    ensures Finish([DX, DAssign, DMax, DOpen, D10, DComma1, D1309, DComma2, DX2, DMul, D2, DAdd, DY, DClose], Yard([], []), DemoFunctions, DemoBindings) == Success([DX, D10, D1309, DX2, D2, DMul, DY, DAdd, DMax, DAssign])
  {
    Demo1();
    var F, B := DemoFunctions, DemoBindings;
    OperandArm(Yard([], []), DX, Yard([], [DX]), F, B);
    FinishStep([DX, DAssign, DMax, DOpen, D10, DComma1, D1309, DComma2, DX2, DMul, D2, DAdd, DY, DClose], Yard([], []), Yard([], [DX]), F, B);
  }

  /** `x = max(10, 1309, x * 2 + y)` becomes `x 10 1309 x 2 * y + max =`. */
  lemma DemoExample()
    ensures Parse([DX, DAssign, DMax, DOpen, D10, DComma1, D1309, DComma2, DX2, DMul, D2, DAdd, DY, DClose], DemoFunctions, DemoBindings) == Success([DX, D10, D1309, DX2, D2, DMul, DY, DAdd, DMax, DAssign])
  {
    Demo0();
  }

  // ---------------------------------------------------------------------------
  // `3 * (4 + 5)`: the `(` takes the operator arm and pops the `*` before it is pushed.

  const F3 := Tk(1, 1, Integer(3))
  const FMul := Tk(3, 1, Star)
  const FOpen := Tk(5, 1, LeftParen)
  const F4 := Tk(6, 1, Integer(4))
  const FAdd := Tk(8, 1, Plus)
  const F5 := Tk(10, 1, Integer(5))
  const FClose := Tk(11, 1, RightParen)

  lemma Flush9()
    ensures Finish([], Yard([], [F3, FMul, F4, F5, FAdd]), DemoFunctions, DemoBindings) == Success([F3, FMul, F4, F5, FAdd])
  {
    var y := Yard([], [F3, FMul, F4, F5, FAdd]);
    FinishDrains(y, DemoFunctions, DemoBindings);
    assert y.output + y.stack == [F3, FMul, F4, F5, FAdd];
  }

  lemma Flush8()
    ensures Finish([FClose], Yard([FOpen], [F3, FMul, F4, F5, FAdd]), DemoFunctions, DemoBindings) == Success([F3, FMul, F4, F5, FAdd])
  {
    Flush9();
    var F, B := DemoFunctions, DemoBindings;
    GroupArm(Yard([FOpen], [F3, FMul, F4, F5, FAdd]), FClose, Yard([], [F3, FMul, F4, F5, FAdd]), F, B);
    FinishStep([FClose], Yard([FOpen], [F3, FMul, F4, F5, FAdd]), Yard([], [F3, FMul, F4, F5, FAdd]), F, B);
  }

  lemma Flush7()
    ensures Finish([FClose], Yard([FAdd, FOpen], [F3, FMul, F4, F5]), DemoFunctions, DemoBindings) == Success([F3, FMul, F4, F5, FAdd])
  {
    Flush8();
    var F, B := DemoFunctions, DemoBindings;
    FlushArm(Yard([FAdd, FOpen], [F3, FMul, F4, F5]), FClose, Yard([FOpen], [F3, FMul, F4, F5, FAdd]), F, B);
    FinishPop([FClose], Yard([FAdd, FOpen], [F3, FMul, F4, F5]), Yard([FOpen], [F3, FMul, F4, F5, FAdd]), F, B);
  }

  lemma Flush6()
    ensures Finish([F5, FClose], Yard([FAdd, FOpen], [F3, FMul, F4]), DemoFunctions, DemoBindings) == Success([F3, FMul, F4, F5, FAdd])
  {
    Flush7();
    var F, B := DemoFunctions, DemoBindings;
    OperandArm(Yard([FAdd, FOpen], [F3, FMul, F4]), F5, Yard([FAdd, FOpen], [F3, FMul, F4, F5]), F, B);
    FinishStep([F5, FClose], Yard([FAdd, FOpen], [F3, FMul, F4]), Yard([FAdd, FOpen], [F3, FMul, F4, F5]), F, B);
  }

  lemma Flush5()
    ensures Finish([FAdd, F5, FClose], Yard([FOpen], [F3, FMul, F4]), DemoFunctions, DemoBindings) == Success([F3, FMul, F4, F5, FAdd])
  {
    Flush6();
    var F, B := DemoFunctions, DemoBindings;
    assert !Outranks(LeftParen, Plus);
    PushArm(Yard([FOpen], [F3, FMul, F4]), FAdd, Yard([FAdd, FOpen], [F3, FMul, F4]), F, B);
    FinishStep([FAdd, F5, FClose], Yard([FOpen], [F3, FMul, F4]), Yard([FAdd, FOpen], [F3, FMul, F4]), F, B);
  }

  lemma Flush4()
    ensures Finish([F4, FAdd, F5, FClose], Yard([FOpen], [F3, FMul]), DemoFunctions, DemoBindings) == Success([F3, FMul, F4, F5, FAdd])
  {
    Flush5();
    var F, B := DemoFunctions, DemoBindings;
    OperandArm(Yard([FOpen], [F3, FMul]), F4, Yard([FOpen], [F3, FMul, F4]), F, B);
    FinishStep([F4, FAdd, F5, FClose], Yard([FOpen], [F3, FMul]), Yard([FOpen], [F3, FMul, F4]), F, B);
  }

  /** The `(` is pushed on the emptied stack. */
  lemma Flush3()
    ensures Finish([FOpen, F4, FAdd, F5, FClose], Yard([], [F3, FMul]), DemoFunctions, DemoBindings) == Success([F3, FMul, F4, F5, FAdd])
  {
    Flush4();
    var F, B := DemoFunctions, DemoBindings;
    PushArm(Yard([], [F3, FMul]), FOpen, Yard([FOpen], [F3, FMul]), F, B);
    FinishStep([FOpen, F4, FAdd, F5, FClose], Yard([], [F3, FMul]), Yard([FOpen], [F3, FMul]), F, B);
  }

  /** The `*` has a precedence and the `(` has none, so the `*` outranks the incoming `(` and is popped. */
  lemma Flush2()
    ensures Finish([FOpen, F4, FAdd, F5, FClose], Yard([FMul], [F3]), DemoFunctions, DemoBindings) == Success([F3, FMul, F4, F5, FAdd])
  {
    Flush3();
    var F, B := DemoFunctions, DemoBindings;
    StarOutranksLeftParen();
    PopArm(Yard([FMul], [F3]), FOpen, Yard([], [F3, FMul]), F, B);
    FinishPop([FOpen, F4, FAdd, F5, FClose], Yard([FMul], [F3]), Yard([], [F3, FMul]), F, B);
  }

  lemma Flush1()
    ensures Finish([FMul, FOpen, F4, FAdd, F5, FClose], Yard([], [F3]), DemoFunctions, DemoBindings) == Success([F3, FMul, F4, F5, FAdd])
  {
    Flush2();
    var F, B := DemoFunctions, DemoBindings;
    PushArm(Yard([], [F3]), FMul, Yard([FMul], [F3]), F, B);
    FinishStep([FMul, FOpen, F4, FAdd, F5, FClose], Yard([], [F3]), Yard([FMul], [F3]), F, B);
  }

  lemma Flush0()
    ensures Finish([F3, FMul, FOpen, F4, FAdd, F5, FClose], Yard([], []), DemoFunctions, DemoBindings) == Success([F3, FMul, F4, F5, FAdd])
  {
    Flush1();
    var F, B := DemoFunctions, DemoBindings;
    OperandArm(Yard([], []), F3, Yard([], [F3]), F, B);
    FinishStep([F3, FMul, FOpen, F4, FAdd, F5, FClose], Yard([], []), Yard([], [F3]), F, B);
  }

  /** `3 * (4 + 5)` becomes `3 * 4 5 +`: the `*` reaches the output before its right operand. */
  lemma OpenFlushExample()
    ensures Parse([F3, FMul, FOpen, F4, FAdd, F5, FClose], DemoFunctions, DemoBindings) == Success([F3, FMul, F4, F5, FAdd])
  {
    Flush0();
  }

  // ---------------------------------------------------------------------------
  // Inputs `parse` rejects.

  lemma FinishFails(input: seq<Token>, y: Yard, e: ParseError, funcs: seq<string>, binds: seq<string>)
    requires input != [] && Step(y, input[0], funcs, binds) == Failure(e)
    ensures Finish(input, y, funcs, binds) == Failure(e)
  {
  }

  /** A `)` with nothing open is a mismatched parenthesis. */
  lemma UnopenedExample()
    ensures Parse([Tk(1, 1, RightParen)], DemoFunctions, DemoBindings) == Failure(MismatchedParentheses)
  {
    var t := Tk(1, 1, RightParen);
    IsOpByFamily(t.value);
    FinishFails([t], Yard([], []), MismatchedParentheses, DemoFunctions, DemoBindings);
  }

  /** A `(` still open at the end is a mismatched parenthesis. */
  lemma UnclosedExample()
    ensures Parse([Tk(1, 1, LeftParen), Tk(2, 1, Integer(3))], DemoFunctions, DemoBindings) == Failure(MismatchedParentheses)
  {
    var open, three := Tk(1, 1, LeftParen), Tk(2, 1, Integer(3));
    var F, B := DemoFunctions, DemoBindings;
    PushArm(Yard([], []), open, Yard([open], []), F, B);
    FinishStep([open, three], Yard([], []), Yard([open], []), F, B);
    OperandArm(Yard([open], []), three, Yard([open], [three]), F, B);
    FinishStep([three], Yard([open], []), Yard([open], [three]), F, B);
  }

  /** A `)` right after a function name finds the function, not a `(`, on top. */
  lemma CallWithoutParenExample()
    ensures Parse([Tk(1, 3, Identifier("max")), Tk(4, 1, RightParen)], DemoFunctions, DemoBindings) == Failure(ExpectedLeftParen)
  {
    var f, close := Tk(1, 3, Identifier("max")), Tk(4, 1, RightParen);
    var F, B := DemoFunctions, DemoBindings;
    FunctionArm(Yard([], []), f, Yard([f], []), F, B);
    FinishStep([f, close], Yard([], []), Yard([f], []), F, B);
    IsOpByFamily(close.value);
    IsOpByFamily(f.value);
    FinishFails([close], Yard([f], []), ExpectedLeftParen, F, B);
  }

  /** A string literal is accepted by no arm. */
  lemma StringExample()
    ensures Parse([Tk(1, 3, String("s"))], DemoFunctions, DemoBindings) == Failure(Unsupported(Tk(1, 3, String("s"))))
  {
    var t := Tk(1, 3, String("s"));
    IsOpByFamily(t.value);
    FinishFails([t], Yard([], []), Unsupported(t), DemoFunctions, DemoBindings);
  }

  /** Neither a known function nor a known binding: accepted by no arm. */
  lemma UnknownNameExample()
    ensures Parse([Tk(1, 1, Identifier("z"))], DemoFunctions, DemoBindings) == Failure(Unsupported(Tk(1, 1, Identifier("z"))))
  {
    var t := Tk(1, 1, Identifier("z"));
    IsOpByFamily(t.value);
    FinishFails([t], Yard([], []), Unsupported(t), DemoFunctions, DemoBindings);
  }
}
