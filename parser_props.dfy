/** Properties of the shunting-yard parser: what the operator stack may hold and how it
    is ordered, that the output only grows, that every operand and operator of the input
    reaches the output exactly once and the operands in input order, that a successful
    parse had balanced parentheses, and the outputs of a few inputs. */
module ParserProperties {
  import opened Wrappers
  import opened Tokens
  import opened ParserSpec

  // ---------------------------------------------------------------------------
  // Sequences: every element, adjacent pairs, selection.

  predicate All<X>(s: seq<X>, p: X -> bool) {
    forall k :: 0 <= k < |s| ==> p(s[k])
  }

  lemma AllAppend<X>(a: seq<X>, b: seq<X>, p: X -> bool)
    ensures All(a + b, p) <==> All(a, p) && All(b, p)
  {
    if All(a, p) && All(b, p) {
      forall k | 0 <= k < |a + b| ensures p((a + b)[k]) {
        if k >= |a| {
          assert (a + b)[k] == b[k - |a|];
        }
      }
    }
    if All(a + b, p) {
      forall k | 0 <= k < |a| ensures p(a[k]) {
        assert (a + b)[k] == a[k];
      }
      forall k | 0 <= k < |b| ensures p(b[k]) {
        assert (a + b)[|a| + k] == b[k];
      }
    }
  }

  lemma AllSlices<X>(s: seq<X>, m: nat, p: X -> bool)
    requires All(s, p) && m <= |s|
    ensures All(s[..m], p) && All(s[m..], p)
  {
    forall k | 0 <= k < |s| - m ensures p(s[m..][k]) {
      assert s[m..][k] == s[m + k];
    }
  }

  /** Each element and the next are related by `ok`. */
  predicate Chained<X>(s: seq<X>, ok: (X, X) -> bool) {
    forall k :: 0 <= k < |s| - 1 ==> ok(s[k], s[k + 1])
  }

  lemma ChainedSuffix<X>(s: seq<X>, m: nat, ok: (X, X) -> bool)
    requires Chained(s, ok) && m <= |s|
    ensures Chained(s[m..], ok)
  {
    forall k | 0 <= k < |s| - m - 1 ensures ok(s[m..][k], s[m..][k + 1]) {
      assert s[m..][k] == s[m + k] && s[m..][k + 1] == s[m + k + 1];
    }
  }

  lemma ChainedPush<X>(x: X, s: seq<X>, ok: (X, X) -> bool)
    requires Chained(s, ok) && (s != [] ==> ok(x, s[0]))
    ensures Chained([x] + s, ok)
  {
    forall k | 0 <= k < |s| ensures ok(([x] + s)[k], ([x] + s)[k + 1]) {
      if k > 0 {
        assert ([x] + s)[k] == s[k - 1] && ([x] + s)[k + 1] == s[k];
      }
    }
  }

  /** The elements of `s` that `keep` accepts, in order. */
  function Select<X>(s: seq<X>, keep: X -> bool): seq<X> {
    if s == [] then []
    else (if keep(s[0]) then [s[0]] else []) + Select(s[1..], keep)
  }

  lemma {:induction false} SelectAppend<X>(a: seq<X>, b: seq<X>, keep: X -> bool)
    ensures Select(a + b, keep) == Select(a, keep) + Select(b, keep)
    decreases |a|
  {
    if a == [] {
      assert a + b == b;
    } else {
      var head := if keep(a[0]) then [a[0]] else [];
      assert (a + b)[0] == a[0] && (a + b)[1..] == a[1..] + b;
      assert Select(a + b, keep) == head + Select(a[1..] + b, keep);
      SelectAppend(a[1..], b, keep);
      assert head + (Select(a[1..], keep) + Select(b, keep))
          == (head + Select(a[1..], keep)) + Select(b, keep);
    }
  }

  lemma {:induction false} SelectAll<X>(s: seq<X>, keep: X -> bool)
    requires All(s, keep)
    ensures Select(s, keep) == s
    decreases |s|
  {
    if s != [] {
      AllSlices(s, 1, keep);
      SelectAll(s[1..], keep);
    }
  }

  lemma SelectOne<X>(x: X, keep: X -> bool)
    ensures Select([x], keep) == if keep(x) then [x] else []
  {
    assert [x][1..] == [];
  }

  lemma SelectThree<X>(a: seq<X>, m: seq<X>, b: seq<X>, keep: X -> bool)
    ensures Select(a + m + b, keep) == Select(a, keep) + Select(m, keep) + Select(b, keep)
  {
    SelectAppend(a + m, b, keep);
    SelectAppend(a, m, keep);
  }

  lemma {:induction false} SelectNone<X>(s: seq<X>, keep: X -> bool, p: X -> bool)
    requires All(s, p) && forall x :: p(x) ==> !keep(x)
    ensures Select(s, keep) == []
    decreases |s|
  {
    if s != [] {
      AllSlices(s, 1, p);
      SelectNone(s[1..], keep, p);
    }
  }

  /** Splitting off the first element. */
  lemma Uncons<X>(s: seq<X>)
    requires s != []
    ensures s == [s[0]] + s[1..]
  {
  }

  lemma Rejoin<X>(o: seq<X>, s: seq<X>, m: nat)
    requires m <= |s|
    ensures (o + s[..m]) + s[m..] == o + s
  {
    assert s[..m] + s[m..] == s;
  }

  // ---------------------------------------------------------------------------
  // Token classes.

  /** Tokens that may reach the output: all but parentheses and commas. */
  predicate Kept(t: Token) {
    !(t.value.LeftParen? || t.value.RightParen? || t.value.Comma?)
  }

  predicate IsOpen(t: Token) {
    t.value.LeftParen?
  }

  predicate IsClose(t: Token) {
    t.value.RightParen?
  }

  /** The tokens the first two arms send straight to the output. */
  predicate IsOperand(v: TokenValue, binds: seq<string>) {
    v.Integer? || v.Float? || IsBinding(v, binds)
  }

  function OperandIn(binds: seq<string>): Token -> bool {
    (t: Token) => IsOperand(t.value, binds)
  }

  /** What `parse` ever pushes: `(`, operators, and known functions that are not also
      bindings (the binding arm comes first). */
  predicate Stackable(v: TokenValue, funcs: seq<string>, binds: seq<string>) {
    IsOp(v) || (IsFunc(v, funcs) && !IsBinding(v, binds))
  }

  function StackableIn(funcs: seq<string>, binds: seq<string>): Token -> bool {
    (t: Token) => Stackable(t.value, funcs, binds)
  }

  /** `upper` may sit directly on `lower`: unless `upper` is an operator other than `(`,
      `lower` does not outrank it, or it would have been popped when `upper` arrived. */
  predicate Settled(upper: Token, lower: Token) {
    IsStackOperator(upper.value) ==> !Outranks(lower.value, upper.value)
  }

  /** The shape of the operator stack between steps. */
  predicate StackOk(stack: seq<Token>, funcs: seq<string>, binds: seq<string>) {
    All(stack, StackableIn(funcs, binds)) && Chained(stack, Settled)
  }

  lemma StackOkSuffix(stack: seq<Token>, m: nat, funcs: seq<string>, binds: seq<string>)
    requires StackOk(stack, funcs, binds) && m <= |stack|
    ensures StackOk(stack[m..], funcs, binds)
  {
    AllSlices(stack, m, StackableIn(funcs, binds));
    ChainedSuffix(stack, m, Settled);
  }

  lemma StackOkPush(t: Token, stack: seq<Token>, funcs: seq<string>, binds: seq<string>)
    requires StackOk(stack, funcs, binds) && Stackable(t.value, funcs, binds)
    requires stack != [] ==> Settled(t, stack[0])
    ensures StackOk([t] + stack, funcs, binds)
  {
    AllAppend([t], stack, StackableIn(funcs, binds));
    ChainedPush(t, stack, Settled);
  }

  /** Nothing on a well-formed stack is an operand. */
  lemma NoOperandsStacked(stack: seq<Token>, funcs: seq<string>, binds: seq<string>)
    requires All(stack, StackableIn(funcs, binds))
    ensures Select(stack, OperandIn(binds)) == []
  {
    SelectNone(stack, OperandIn(binds), StackableIn(funcs, binds));
  }

  // ---------------------------------------------------------------------------
  // The popping loops.

  /** A popping loop moves only tokens its test accepts. */
  lemma {:induction false} PoppedByTest(y: Yard, pops: TokenValue -> bool)
    ensures var m := |PopToOutput(y, pops).output| - |y.output|;
      forall k :: 0 <= k < m ==> pops(y.stack[k].value)
    decreases |y.stack|
  {
    if y.stack != [] && pops(y.stack[0].value) {
      PoppedByTest(Yard(y.stack[1..], y.output + [y.stack[0]]), pops);
    }
  }

  /** Both popping tests accept only operators other than `(`. */
  lemma TestsPopOperators(incoming: TokenValue)
    ensures forall v :: OutranksTest(incoming)(v) ==> IsStackOperator(v)
  {
  }

  /** What a popping loop moves to the output are operators other than `(`, so they are
      kept, and the output followed by the stack does not change. */
  lemma Popped(y: Yard, pops: TokenValue -> bool) returns (m: nat)
    requires forall v :: pops(v) ==> IsStackOperator(v)
    ensures var r := PopToOutput(y, pops);
      && m == |r.output| - |y.output| && m <= |y.stack|
      && r.output == y.output + y.stack[..m] && r.stack == y.stack[m..]
      && All(y.stack[..m], Kept)
      && Select(y.stack[..m], IsOpen) == []
  {
    var r := PopToOutput(y, pops);
    m := |r.output| - |y.output|;
    PoppedByTest(y, pops);
    forall k | 0 <= k < m ensures Kept(y.stack[..m][k]) {
      assert IsStackOperator(y.stack[k].value);
      IsOpByFamily(y.stack[k].value);
    }
    SelectNone(y.stack[..m], IsOpen, Kept);
  }

  // ---------------------------------------------------------------------------
  // One step, arm by arm.

  /** The pending tokens: the output followed by the stack, in the order a final drain
      would leave them. */
  function Pending(y: Yard): seq<Token> {
    y.output + y.stack
  }

  /** What one step does: the pending tokens `a + removed + b` become `a + inserted + b`,
      where `inserted` is the step's token unless it is a comma or `)`, and `removed` is
      the `(` a `)` closes; the output grows by `appended`, which holds no parenthesis
      or comma. */
  datatype Effect = Effect(a: seq<Token>, removed: seq<Token>, inserted: seq<Token>, b: seq<Token>, appended: seq<Token>)

  predicate Describes(e: Effect, y: Yard, r: Yard, t: Token) {
    && Pending(y) == e.a + e.removed + e.b
    && Pending(r) == e.a + e.inserted + e.b
    && r.output == y.output + e.appended
    && All(e.appended, Kept)
    && e.inserted == (if t.value.Comma? || t.value.RightParen? then [] else [t])
    && (if t.value.RightParen? then |e.removed| == 1 && e.removed[0].value.LeftParen? else e.removed == [])
  }

  lemma OperandEffect(y: Yard, t: Token) returns (e: Effect)
    requires Kept(t) && !t.value.RightParen?
    ensures Describes(e, y, Yard(y.stack, y.output + [t]), t) && e.b == y.stack
  {
    e := Effect(y.output, [], [t], y.stack, [t]);
  }

  lemma FunctionEffect(y: Yard, t: Token) returns (e: Effect)
    requires Kept(t) && !t.value.RightParen?
    ensures Describes(e, y, Yard([t] + y.stack, y.output), t)
  {
    e := Effect(y.output, [], [t], y.stack, []);
  }

  /** The sequence algebra of the operator and comma arms: the popped prefix `s[..m]`
      joins the output and `ins` is pushed on what is left. */
  lemma PushShape<X>(o: seq<X>, s: seq<X>, m: nat, ins: seq<X>)
    requires m <= |s|
    ensures o + s == (o + s[..m]) + [] + s[m..]
    ensures (o + s[..m]) + (ins + s[m..]) == (o + s[..m]) + ins + s[m..]
    ensures (o + s[..m]) + s[m..] == (o + s[..m]) + [] + s[m..]
  {
    assert s == s[..m] + s[m..];
  }

  lemma OperatorEffect(y: Yard, t: Token) returns (e: Effect)
    requires IsOp(t.value)
    ensures var p := PopToOutput(y, OutranksTest(t.value));
      Describes(e, y, Yard([t] + p.stack, p.output), t)
  {
    TestsPopOperators(t.value);
    var m := Popped(y, OutranksTest(t.value));
    PushShape(y.output, y.stack, m, [t]);
    IsOpByFamily(t.value);
    e := Effect(y.output + y.stack[..m], [], [t], y.stack[m..], y.stack[..m]);
  }

  lemma CommaEffect(y: Yard, t: Token) returns (e: Effect)
    requires t.value.Comma?
    ensures Describes(e, y, PopToOutput(y, IsStackOperator), t)
  {
    var m := Popped(y, IsStackOperator);
    PushShape(y.output, y.stack, m, []);
    var r := PopToOutput(y, IsStackOperator);
    e := Effect(y.output + y.stack[..m], [], [], y.stack[m..], y.stack[..m]);
    assert Pending(r) == e.a + e.inserted + e.b;
  }

  /** `CloseGroup` drops the `(` on top and may move the function under it to the
      output. */
  lemma CloseGroupEffect(p: Yard, funcs: seq<string>) returns (extra: seq<Token>)
    requires CloseGroup(p, funcs).Success?
    ensures p.stack != [] && p.stack[0].value.LeftParen?
    ensures Pending(p) == p.output + [p.stack[0]] + p.stack[1..]
    ensures Pending(CloseGroup(p, funcs).value) == p.output + p.stack[1..]
    ensures CloseGroup(p, funcs).value.output == p.output + extra && All(extra, Kept)
  {
    Uncons(p.stack);
    var rest := p.stack[1..];
    if rest != [] && IsFunc(rest[0].value, funcs) {
      Uncons(rest);
      extra := [rest[0]];
    } else {
      extra := [];
    }
  }

  /** The sequence algebra of the `)` arm: the popped prefix `s[..m]` joins the output,
      the `(` at `s[m]` is dropped, and `extra` follows the popped prefix. */
  lemma CloseShape<X>(o: seq<X>, s: seq<X>, m: nat, extra: seq<X>, ro: seq<X>, rs: seq<X>)
    requires m < |s|
    requires ro + rs == o + s[..m] + s[m + 1..] && ro == o + s[..m] + extra
    ensures o + s == (o + s[..m]) + [s[m]] + s[m + 1..]
    ensures ro + rs == (o + s[..m]) + [] + s[m + 1..]
    ensures ro == o + (s[..m] + extra)
  {
    assert s == s[..m] + [s[m]] + s[m + 1..];
  }

  lemma CloseEffect(y: Yard, t: Token, funcs: seq<string>) returns (e: Effect)
    requires t.value.RightParen?
    requires CloseGroup(PopToOutput(y, IsStackOperator), funcs).Success?
    ensures Describes(e, y, CloseGroup(PopToOutput(y, IsStackOperator), funcs).value, t)
  {
    var m := Popped(y, IsStackOperator);
    var p := PopToOutput(y, IsStackOperator);
    var r := CloseGroup(p, funcs).value;
    var extra := CloseGroupEffect(p, funcs);
    assert p.stack[1..] == y.stack[m + 1..];
    CloseShape(y.output, y.stack, m, extra, r.output, r.stack);
    AllAppend(y.stack[..m], extra, Kept);
    e := Effect(p.output, [y.stack[m]], [], y.stack[m + 1..], y.stack[..m] + extra);
  }

  /** Every successful step has an effect of the shape `Describes` gives; an operand is
      inserted at the end of the output, before the whole stack. */
  lemma StepEffect(y: Yard, t: Token, funcs: seq<string>, binds: seq<string>) returns (e: Effect)
    requires Step(y, t, funcs, binds).Success?
    ensures Describes(e, y, Step(y, t, funcs, binds).value, t)
    ensures IsOperand(t.value, binds) ==> e.b == y.stack
  {
    if IsOperand(t.value, binds) {
      e := OperandEffect(y, t);
    } else if IsFunc(t.value, funcs) {
      e := FunctionEffect(y, t);
    } else if IsOp(t.value) {
      e := OperatorEffect(y, t);
    } else if t.value.Comma? {
      e := CommaEffect(y, t);
    } else {
      e := CloseEffect(y, t, funcs);
    }
  }

  // ---------------------------------------------------------------------------
  // What one step keeps.

  lemma OperatorKeepsStack(y: Yard, t: Token, funcs: seq<string>, binds: seq<string>)
    requires StackOk(y.stack, funcs, binds) && IsOp(t.value)
    ensures StackOk([t] + PopToOutput(y, OutranksTest(t.value)).stack, funcs, binds)
  {
    var p := PopToOutput(y, OutranksTest(t.value));
    StackOkSuffix(y.stack, |p.output| - |y.output|, funcs, binds);
    if p.stack != [] {
      assert !OutranksTest(t.value)(p.stack[0].value);
    }
    StackOkPush(t, p.stack, funcs, binds);
  }

  lemma CloseKeepsStack(y: Yard, funcs: seq<string>, binds: seq<string>)
    requires StackOk(y.stack, funcs, binds)
    requires CloseGroup(PopToOutput(y, IsStackOperator), funcs).Success?
    ensures StackOk(CloseGroup(PopToOutput(y, IsStackOperator), funcs).value.stack, funcs, binds)
  {
    var p := PopToOutput(y, IsStackOperator);
    StackOkSuffix(y.stack, |p.output| - |y.output|, funcs, binds);
    StackOkSuffix(p.stack, 1, funcs, binds);
    if p.stack[1..] != [] {
      StackOkSuffix(p.stack[1..], 1, funcs, binds);
    }
  }

  /** The operator stack only ever holds `(`, operators and known functions, and each
      operator on it is not outranked by the token beneath it. */
  lemma StepKeepsStack(y: Yard, t: Token, funcs: seq<string>, binds: seq<string>)
    requires StackOk(y.stack, funcs, binds) && Step(y, t, funcs, binds).Success?
    ensures StackOk(Step(y, t, funcs, binds).value.stack, funcs, binds)
  {
    if IsOperand(t.value, binds) {
    } else if IsFunc(t.value, funcs) {
      StackOkPush(t, y.stack, funcs, binds);
    } else if IsOp(t.value) {
      OperatorKeepsStack(y, t, funcs, binds);
    } else if t.value.Comma? {
      var p := PopToOutput(y, IsStackOperator);
      StackOkSuffix(y.stack, |p.output| - |y.output|, funcs, binds);
    } else {
      CloseKeepsStack(y, funcs, binds);
    }
  }

  /** A parenthesis or comma is never kept, and what a step inserts is kept exactly when
      its token is. */
  lemma InsertedKept(e: Effect, t: Token, keep: Token -> bool)
    requires e.inserted == (if t.value.Comma? || t.value.RightParen? then [] else [t])
    requires t.value.Comma? || t.value.RightParen? ==> !keep(t)
    ensures Select(e.inserted, keep) == Select([t], keep)
  {
    SelectOne(t, keep);
  }

  lemma RemovedOpen(e: Effect, t: Token)
    requires if t.value.RightParen? then |e.removed| == 1 && e.removed[0].value.LeftParen? else e.removed == []
    ensures Select(e.removed, Kept) == []
    ensures |Select(e.removed, IsOpen)| == |Select([t], IsClose)|
  {
    SelectOne(t, IsClose);
    if t.value.RightParen? {
      assert e.removed == [e.removed[0]];
      SelectOne(e.removed[0], Kept);
      SelectOne(e.removed[0], IsOpen);
    }
  }

  /** Replacing `removed` by `inserted` between `a` and `b`, where nothing removed is
      selected and what is inserted is selected as `[x]` would be. */
  lemma ReplaceSelect<X>(a: seq<X>, removed: seq<X>, inserted: seq<X>, b: seq<X>, x: X, keep: X -> bool)
    requires Select(removed, keep) == [] && Select(inserted, keep) == Select([x], keep)
    ensures Select(a + removed + b, keep) == Select(a, keep) + Select(b, keep)
    ensures Select(a + inserted + b, keep) == Select(a, keep) + Select([x], keep) + Select(b, keep)
  {
    SelectThree(a, removed, b, keep);
    SelectThree(a, inserted, b, keep);
  }

  /** ... so the selected elements gain those of `[x]`. */
  lemma ReplaceCount<X>(a: seq<X>, removed: seq<X>, inserted: seq<X>, b: seq<X>, x: X, keep: X -> bool)
    requires Select(removed, keep) == [] && Select(inserted, keep) == Select([x], keep)
    ensures multiset(Select(a + inserted + b, keep)) == multiset(Select(a + removed + b, keep)) + multiset(Select([x], keep))
  {
    ReplaceSelect(a, removed, inserted, b, x, keep);
  }

  /** ... and when nothing in `b` is selected, at the end. */
  lemma ReplaceOrder<X>(a: seq<X>, removed: seq<X>, inserted: seq<X>, b: seq<X>, x: X, keep: X -> bool)
    requires Select(removed, keep) == [] && Select(inserted, keep) == Select([x], keep)
    requires Select([x], keep) == [] || Select(b, keep) == []
    ensures Select(a + inserted + b, keep) == Select(a + removed + b, keep) + Select([x], keep)
  {
    ReplaceSelect(a, removed, inserted, b, x, keep);
    Swap(Select(a, keep), Select([x], keep), Select(b, keep));
  }

  lemma Swap<X>(a: seq<X>, x: seq<X>, b: seq<X>)
    requires x == [] || b == []
    ensures a + x + b == a + b + x
  {
    if x == [] {
      assert a + x == a;
    } else {
      assert x + b == x;
    }
  }

  /** A step keeps the tokens that may reach the output: those pending after it are
      those pending before it and the step's token, if it is kept. */
  lemma StepConserves(y: Yard, t: Token, funcs: seq<string>, binds: seq<string>)
    requires Step(y, t, funcs, binds).Success?
    ensures var r := Step(y, t, funcs, binds).value;
      multiset(Select(Pending(r), Kept)) == multiset(Select(Pending(y), Kept)) + multiset(Select([t], Kept))
  {
    var e := StepEffect(y, t, funcs, binds);
    InsertedKept(e, t, Kept);
    RemovedOpen(e, t);
    ReplaceCount(e.a, e.removed, e.inserted, e.b, t, Kept);
  }

  /** A step adds one open parenthesis for `(` and removes one for `)`. */
  lemma StepBalance(y: Yard, t: Token, funcs: seq<string>, binds: seq<string>)
    requires Step(y, t, funcs, binds).Success?
    ensures var r := Step(y, t, funcs, binds).value;
      |Select(Pending(r), IsOpen)| + |Select([t], IsClose)| == |Select(Pending(y), IsOpen)| + |Select([t], IsOpen)|
  {
    var e := StepEffect(y, t, funcs, binds);
    SelectThree(e.a, e.removed, e.b, IsOpen);
    SelectThree(e.a, e.inserted, e.b, IsOpen);
    InsertedKept(e, t, IsOpen);
    RemovedOpen(e, t);
  }

  /** An operand goes to the end of the output, behind every operand already there; as the
      stack holds no operand, the operands pending are in input order. */
  lemma StepKeepsOperandOrder(y: Yard, t: Token, funcs: seq<string>, binds: seq<string>)
    requires StackOk(y.stack, funcs, binds) && Step(y, t, funcs, binds).Success?
    ensures var r := Step(y, t, funcs, binds).value;
      Select(Pending(r), OperandIn(binds)) == Select(Pending(y), OperandIn(binds)) + Select([t], OperandIn(binds))
  {
    var e := StepEffect(y, t, funcs, binds);
    var operand := OperandIn(binds);
    InsertedKept(e, t, operand);
    RemovedOpen(e, t);
    SelectNone(e.removed, operand, IsOpen);
    SelectOne(t, operand);
    if IsOperand(t.value, binds) {
      NoOperandsStacked(y.stack, funcs, binds);
    }
    ReplaceOrder(e.a, e.removed, e.inserted, e.b, t, operand);
  }

  // ---------------------------------------------------------------------------
  // Which tokens a step accepts.

  /** The tokens some arm of `parse` accepts. */
  predicate Supported(v: TokenValue, funcs: seq<string>, binds: seq<string>) {
    IsOperand(v, binds) || IsFunc(v, funcs) || IsOp(v) || v.Comma? || v.RightParen?
  }

  function SupportedIn(funcs: seq<string>, binds: seq<string>): Token -> bool {
    (t: Token) => Supported(t.value, funcs, binds)
  }

  /** A step stops with `Unsupported` exactly on a token no arm accepts; otherwise it
      fails only on `)`. */
  lemma StepRejects(y: Yard, t: Token, funcs: seq<string>, binds: seq<string>)
    ensures Step(y, t, funcs, binds) == Failure(Unsupported(t)) <==> !Supported(t.value, funcs, binds)
    ensures Step(y, t, funcs, binds).Failure? ==> !Supported(t.value, funcs, binds) || t.value.RightParen?
  {
  }

  // ---------------------------------------------------------------------------
  // The main loop.

  lemma {:induction false} RunKeepsStack(input: seq<Token>, y: Yard, funcs: seq<string>, binds: seq<string>)
    requires StackOk(y.stack, funcs, binds) && Run(input, y, funcs, binds).Success?
    ensures StackOk(Run(input, y, funcs, binds).value.stack, funcs, binds)
    decreases |input|
  {
    if input != [] {
      StepKeepsStack(y, input[0], funcs, binds);
      RunKeepsStack(input[1..], Step(y, input[0], funcs, binds).value, funcs, binds);
    }
  }

  lemma AppendChain<X>(o: seq<X>, appended: seq<X>, r: seq<X>, p: X -> bool)
    requires All(appended, p) && o + appended <= r && All(r[|o + appended|..], p)
    ensures o <= r && All(r[|o|..], p)
  {
    assert r[|o|..] == appended + r[|o + appended|..];
    AllAppend(appended, r[|o + appended|..], p);
  }

  /** The output queue is only appended to, and never receives a parenthesis or a
      comma. */
  lemma {:induction false} RunAppends(input: seq<Token>, y: Yard, funcs: seq<string>, binds: seq<string>)
    requires Run(input, y, funcs, binds).Success?
    ensures var r := Run(input, y, funcs, binds).value;
      y.output <= r.output && All(r.output[|y.output|..], Kept)
    decreases |input|
  {
    if input != [] {
      var e := StepEffect(y, input[0], funcs, binds);
      var y' := Step(y, input[0], funcs, binds).value;
      RunAppends(input[1..], y', funcs, binds);
      AppendChain(y.output, e.appended, Run(input, y, funcs, binds).value.output, Kept);
    } else {
      assert y.output[|y.output|..] == [];
    }
  }

  lemma SelectCons<X>(s: seq<X>, keep: X -> bool)
    requires s != []
    ensures Select(s, keep) == Select([s[0]], keep) + Select(s[1..], keep)
  {
    Uncons(s);
    SelectAppend([s[0]], s[1..], keep);
  }

  /** The kept tokens pending at the end are those pending at the start and those of the
      input. */
  lemma {:induction false} RunConserves(input: seq<Token>, y: Yard, funcs: seq<string>, binds: seq<string>)
    requires Run(input, y, funcs, binds).Success?
    ensures var r := Run(input, y, funcs, binds).value;
      multiset(Select(Pending(r), Kept)) == multiset(Select(Pending(y), Kept)) + multiset(Select(input, Kept))
    decreases |input|
  {
    if input != [] {
      StepConserves(y, input[0], funcs, binds);
      RunConserves(input[1..], Step(y, input[0], funcs, binds).value, funcs, binds);
      SelectCons(input, Kept);
    }
  }

  lemma Regroup<X>(r: seq<X>, m: seq<X>, a: seq<X>, b: seq<X>, c: seq<X>)
    requires r == m + c && m == a + b
    ensures r == a + (b + c)
  {
  }

  /** The operands pending at the end are those pending at the start followed by those of
      the input, in input order. */
  lemma {:induction false} RunKeepsOperandOrder(input: seq<Token>, y: Yard, funcs: seq<string>, binds: seq<string>)
    requires StackOk(y.stack, funcs, binds) && Run(input, y, funcs, binds).Success?
    ensures var r := Run(input, y, funcs, binds).value;
      Select(Pending(r), OperandIn(binds)) == Select(Pending(y), OperandIn(binds)) + Select(input, OperandIn(binds))
    decreases |input|
  {
    if input != [] {
      var y' := Step(y, input[0], funcs, binds).value;
      StepKeepsOperandOrder(y, input[0], funcs, binds);
      StepKeepsStack(y, input[0], funcs, binds);
      RunKeepsOperandOrder(input[1..], y', funcs, binds);
      SelectCons(input, OperandIn(binds));
      Regroup(Select(Pending(Run(input, y, funcs, binds).value), OperandIn(binds)), Select(Pending(y'), OperandIn(binds)),
        Select(Pending(y), OperandIn(binds)), Select([input[0]], OperandIn(binds)), Select(input[1..], OperandIn(binds)));
    }
  }

  /** Open parentheses pending at the end, plus the `)`s of the input, balance those
      pending at the start plus the `(`s of the input. */
  lemma {:induction false} RunBalance(input: seq<Token>, y: Yard, funcs: seq<string>, binds: seq<string>)
    requires Run(input, y, funcs, binds).Success?
    ensures var r := Run(input, y, funcs, binds).value;
      |Select(Pending(r), IsOpen)| + |Select(input, IsClose)| == |Select(Pending(y), IsOpen)| + |Select(input, IsOpen)|
    decreases |input|
  {
    if input != [] {
      StepBalance(y, input[0], funcs, binds);
      RunBalance(input[1..], Step(y, input[0], funcs, binds).value, funcs, binds);
      SelectCons(input, IsOpen);
      SelectCons(input, IsClose);
    }
  }

  /** A loop that gets through the whole input got through each prefix of it. */
  lemma {:induction false} RunPrefix(input: seq<Token>, y: Yard, funcs: seq<string>, binds: seq<string>, k: nat)
    requires Run(input, y, funcs, binds).Success? && k <= |input|
    ensures Run(input[..k], y, funcs, binds).Success?
    decreases |input|
  {
    if k > 0 {
      assert input[..k][0] == input[0] && input[..k][1..] == input[1..][..k - 1];
      RunPrefix(input[1..], Step(y, input[0], funcs, binds).value, funcs, binds, k - 1);
    }
  }

  /** Every token of an input the loop gets through is one some arm accepts. */
  lemma {:induction false} RunSupported(input: seq<Token>, y: Yard, funcs: seq<string>, binds: seq<string>)
    requires Run(input, y, funcs, binds).Success?
    ensures All(input, SupportedIn(funcs, binds))
    decreases |input|
  {
    if input != [] {
      StepRejects(y, input[0], funcs, binds);
      RunSupported(input[1..], Step(y, input[0], funcs, binds).value, funcs, binds);
      Uncons(input);
      AllAppend([input[0]], input[1..], SupportedIn(funcs, binds));
    }
  }

  // ---------------------------------------------------------------------------
  // The draining loop and the whole parse.

  /** The draining loop succeeds exactly when no `(` is left on the stack, and then
      outputs the output followed by the stack, top first. */
  lemma {:induction false} DrainEmitsPending(y: Yard)
    ensures Drain(y).Success? <==> Select(y.stack, IsOpen) == []
    ensures Drain(y).Success? ==> Drain(y).value == Pending(y)
    decreases |y.stack|
  {
    if y.stack != [] {
      SelectCons(y.stack, IsOpen);
      SelectOne(y.stack[0], IsOpen);
      if !y.stack[0].value.LeftParen? {
        var y' := Yard(y.stack[1..], y.output + [y.stack[0]]);
        DrainEmitsPending(y');
        Uncons(y.stack);
        assert Pending(y') == Pending(y);
      }
    }
  }

  /** A well-formed stack without `(` holds nothing that is not kept. */
  lemma StackKept(stack: seq<Token>, funcs: seq<string>, binds: seq<string>)
    requires All(stack, StackableIn(funcs, binds)) && Select(stack, IsOpen) == []
    ensures All(stack, Kept)
  {
    forall k | 0 <= k < |stack| ensures Kept(stack[k]) {
      IsOpByFamily(stack[k].value);
      if stack[k].value.LeftParen? {
        SelectSome(stack, k, IsOpen);
      }
    }
  }

  lemma {:induction false} SelectSome<X>(s: seq<X>, k: nat, keep: X -> bool)
    requires k < |s| && keep(s[k])
    ensures Select(s, keep) != []
    decreases k
  {
    SelectCons(s, keep);
    SelectOne(s[0], keep);
    if k > 0 {
      SelectSome(s[1..], k - 1, keep);
    }
  }

  /** What a successful parse ends with: the main loop's final state, whose pending tokens
      are all kept and are the output. */
  lemma Finished(input: seq<Token>, funcs: seq<string>, binds: seq<string>) returns (r: Yard)
    requires Parse(input, funcs, binds).Success?
    ensures Run(input, Yard([], []), funcs, binds) == Success(r)
    ensures Parse(input, funcs, binds).value == Pending(r)
    ensures All(Pending(r), Kept) && StackOk(r.stack, funcs, binds)
  {
    var y0 := Yard([], []);
    r := Run(input, y0, funcs, binds).value;
    DrainEmitsPending(r);
    RunKeepsStack(input, y0, funcs, binds);
    RunAppends(input, y0, funcs, binds);
    assert r.output[0..] == r.output;
    StackKept(r.stack, funcs, binds);
    AllAppend(r.output, r.stack, Kept);
  }

  /** On success the output holds each input token that is not a parenthesis or a comma,
      each exactly once, and nothing else. */
  lemma ParseConserves(input: seq<Token>, funcs: seq<string>, binds: seq<string>)
    requires Parse(input, funcs, binds).Success?
    ensures All(Parse(input, funcs, binds).value, Kept)
    ensures multiset(Parse(input, funcs, binds).value) == multiset(Select(input, Kept))
  {
    var r := Finished(input, funcs, binds);
    RunConserves(input, Yard([], []), funcs, binds);
    SelectAll(Pending(r), Kept);
  }

  /** On success the operands come out in input order. */
  lemma ParseKeepsOperandOrder(input: seq<Token>, funcs: seq<string>, binds: seq<string>)
    requires Parse(input, funcs, binds).Success?
    ensures Select(Parse(input, funcs, binds).value, OperandIn(binds)) == Select(input, OperandIn(binds))
  {
    var r := Finished(input, funcs, binds);
    RunKeepsOperandOrder(input, Yard([], []), funcs, binds);
  }

  /** On success the input's parentheses were balanced: as many `(` as `)`, and no prefix
      with more `)` than `(`. */
  lemma ParseBalanced(input: seq<Token>, funcs: seq<string>, binds: seq<string>)
    requires Parse(input, funcs, binds).Success?
    ensures |Select(input, IsOpen)| == |Select(input, IsClose)|
    ensures forall k :: 0 <= k <= |input| ==> |Select(input[..k], IsClose)| <= |Select(input[..k], IsOpen)|
  {
    var y0 := Yard([], []);
    var r := Finished(input, funcs, binds);
    SelectNone(Pending(r), IsOpen, Kept);
    RunBalance(input, y0, funcs, binds);
    forall k | 0 <= k <= |input| ensures |Select(input[..k], IsClose)| <= |Select(input[..k], IsOpen)| {
      RunPrefix(input, y0, funcs, binds, k);
      RunBalance(input[..k], y0, funcs, binds);
    }
  }

  /** On success every input token was one some arm accepts. */
  lemma ParseSupported(input: seq<Token>, funcs: seq<string>, binds: seq<string>)
    requires Parse(input, funcs, binds).Success?
    ensures All(input, SupportedIn(funcs, binds))
  {
    RunSupported(input, Yard([], []), funcs, binds);
  }

  // ---------------------------------------------------------------------------
  // The operator, comma and `(` arms.

  /** A popping loop moves the longest prefix of the stack its test accepts. */
  lemma PopsLongestPrefix(y: Yard, pops: TokenValue -> bool) returns (m: nat)
    ensures var r := PopToOutput(y, pops);
      && m == |r.output| - |y.output| && m <= |y.stack|
      && r.stack == y.stack[m..] && r.output == y.output + y.stack[..m]
      && (forall k :: 0 <= k < m ==> pops(y.stack[k].value))
      && (m < |y.stack| ==> !pops(y.stack[m].value))
  {
    m := |PopToOutput(y, pops).output| - |y.output|;
    PoppedByTest(y, pops);
  }

  lemma OperatorArm(y: Yard, t: Token, funcs: seq<string>, binds: seq<string>)
    requires IsOp(t.value)
    ensures var p := PopToOutput(y, OutranksTest(t.value));
      Step(y, t, funcs, binds) == Success(Yard([t] + p.stack, p.output))
  {
    IsOpByFamily(t.value);
  }

  /** An operator pops, in stack order, exactly the operators at the top of the stack
      that outrank it, up to the first one that does not, and is then pushed. */
  lemma OperatorStep(y: Yard, t: Token, funcs: seq<string>, binds: seq<string>)
    requires IsOp(t.value)
    ensures Step(y, t, funcs, binds).Success?
    ensures var r := Step(y, t, funcs, binds).value;
      var m := |r.output| - |y.output|;
      && 0 <= m <= |y.stack|
      && r.stack == [t] + y.stack[m..] && r.output == y.output + y.stack[..m]
      && (forall k :: 0 <= k < m ==> Outranks(y.stack[k].value, t.value))
      && (m < |y.stack| ==> !Outranks(y.stack[m].value, t.value))
  {
    OperatorArm(y, t, funcs, binds);
    var m := PopsLongestPrefix(y, OutranksTest(t.value));
  }

  lemma CommaArm(y: Yard, t: Token, funcs: seq<string>, binds: seq<string>)
    requires t.value.Comma?
    ensures Step(y, t, funcs, binds) == Success(PopToOutput(y, IsStackOperator))
  {
    IsOpByFamily(t.value);
  }

  /** A comma pops the operators above the nearest `(`, function or bottom of the stack,
      and is itself neither pushed nor output. */
  lemma CommaStep(y: Yard, t: Token, funcs: seq<string>, binds: seq<string>)
    requires t.value.Comma?
    ensures Step(y, t, funcs, binds).Success?
    ensures var r := Step(y, t, funcs, binds).value;
      var m := |r.output| - |y.output|;
      && 0 <= m <= |y.stack|
      && r.stack == y.stack[m..] && r.output == y.output + y.stack[..m]
      && (forall k :: 0 <= k < m ==> IsStackOperator(y.stack[k].value))
      && (m < |y.stack| ==> y.stack[m].value.LeftParen? || !IsOp(y.stack[m].value))
  {
    CommaArm(y, t, funcs, binds);
    var m := PopsLongestPrefix(y, IsStackOperator);
  }

  /** Every operator outranks `(`, which has no precedence: `Some(p) > None`. */
  lemma OpenOutranked(v: TokenValue)
    ensures Outranks(v, LeftParen) <==> IsStackOperator(v)
  {
    OperatorsAreRanked(v);
  }

  lemma {:induction false} PopSameTest(y: Yard, f: TokenValue -> bool, g: TokenValue -> bool)
    requires forall v :: f(v) == g(v)
    ensures PopToOutput(y, f) == PopToOutput(y, g)
    decreases |y.stack|
  {
    if y.stack != [] && f(y.stack[0].value) {
      PopSameTest(Yard(y.stack[1..], y.output + [y.stack[0]]), f, g);
    }
  }

  /** `(` takes the operator arm, and so pops every operator above the nearest `(`,
      function or bottom of the stack, as a comma does, before it is pushed. */
  lemma OpenStep(y: Yard, t: Token, funcs: seq<string>, binds: seq<string>)
    requires t.value.LeftParen?
    ensures var p := PopToOutput(y, IsStackOperator);
      Step(y, t, funcs, binds) == Success(Yard([t] + p.stack, p.output))
  {
    OperatorArm(y, t, funcs, binds);
    forall v ensures OutranksTest(t.value)(v) == IsStackOperator(v) {
      OpenOutranked(v);
    }
    PopSameTest(y, OutranksTest(t.value), IsStackOperator);
  }
}
