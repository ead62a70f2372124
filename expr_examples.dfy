/** The precedence and associativity examples of the parser's own tests, worked through the
    loop of the expression parser for any token list of the kinds the lexer makes of them. */
module ExprExamples {
  import opened Wrappers
  import opened Tokens
  import opened Errors
  import opened Ast
  import opened ExprParser

  function Shifted(t: Token): StackItem { StackItem(TokenEntry(t), 1) }
  function Reduced(e: Expr, n: nat): StackItem { StackItem(NodeEntry(e), n) }

  /** `1 + 2 + 3`, or any three operands joined by two operators of the same kind. */
  predicate ThreeTermSum(toks: seq<Token>) {
    && |toks| == 5
    && toks[0].kind == Number && toks[1].kind == Plus && toks[2].kind == Number
    && toks[3].kind == Plus && toks[4].kind == Number
  }

  /** `1 + 2 * 3`. */
  predicate SumThenProduct(toks: seq<Token>) {
    && |toks| == 5
    && toks[0].kind == Number && toks[1].kind == Plus && toks[2].kind == Number
    && toks[3].kind == Star && toks[4].kind == Number
  }

  /** `a = b = 10`. */
  predicate ChainedAssignment(toks: seq<Token>) {
    && |toks| == 5
    && toks[0].kind == Identifier && toks[1].kind == Equals && toks[2].kind == Identifier
    && toks[3].kind == Equals && toks[4].kind == Number
  }

  /** A binary operator followed by another of the same precedence does not wait, unless
      both are assignments: such operators associate to the left. */
  lemma LeftAssociative(op: Token, next: Token)
    requires BinaryPrecedence(op.kind).Some? && BinaryPrecedence(next.kind) == BinaryPrecedence(op.kind)
    requires op.kind !in AssignmentOperators
    ensures !BinOpWaits(op, Some(next))
  {
  }

  /** An assignment followed by another waits for it: assignments associate to the right. */
  lemma RightAssociative(op: Token, next: Token)
    requires op.kind == Equals && next.kind == Equals
    ensures BinaryPrecedence(op.kind).Some? && BinOpWaits(op, Some(next))
  {
  }

  /** An additive operator followed by a multiplicative one waits for it. */
  lemma MultiplicationBindsTighter(op: Token, next: Token)
    requires op.kind in {Plus, Minus} && next.kind in {Star, Slash}
    ensures BinaryPrecedence(op.kind).Some? && BinOpWaits(op, Some(next))
  {
  }

  /** A number token on top of the stack is reduced to its node before anything else. */
  lemma NumberStep(toks: seq<Token>, pre: seq<StackItem>, t: Token, i: nat)
    requires t.kind == Number
    ensures Run(toks, pre + [Shifted(t)], i, []) == Run(toks, pre + [Reduced(NumberNode(t.content), 1)], i, [])
  {
    var s := pre + [Shifted(t)];
    var n := NumberNode(t.content);
    assert FirstRule(s, Next(toks, i)) == Some(Reduction(n, 1, None));
    assert s[|s| - 1..] == [Shifted(t)] && s[..|s| - 1] == pre;
    assert Lengths([Shifted(t)]) == 1 by { assert [Shifted(t)][..0] == []; }
    assert [] + DiagnosticList(Reduction(n, 1, None)) == [];
    RunReduces(toks, s, i, []);
  }

  /** So is an identifier token. */
  lemma IdentifierStep(toks: seq<Token>, pre: seq<StackItem>, t: Token, i: nat)
    requires t.kind == Identifier
    ensures Run(toks, pre + [Shifted(t)], i, []) == Run(toks, pre + [Reduced(IdentifierNode(t), 1)], i, [])
  {
    var s := pre + [Shifted(t)];
    var n := IdentifierNode(t);
    assert FirstRule(s, Next(toks, i)) == Some(Reduction(n, 1, None));
    assert s[|s| - 1..] == [Shifted(t)] && s[..|s| - 1] == pre;
    assert Lengths([Shifted(t)]) == 1 by { assert [Shifted(t)][..0] == []; }
    assert [] + DiagnosticList(Reduction(n, 1, None)) == [];
    RunReduces(toks, s, i, []);
  }

  /** Node, binary operator, node on top of the stack are reduced when the next token does
      not make the operation wait. */
  lemma BinOpStep(toks: seq<Token>, pre: seq<StackItem>, l: Expr, nl: nat, op: Token, r: Expr, nr: nat, i: nat)
    requires BinaryPrecedence(op.kind).Some? && !BinOpWaits(op, Next(toks, i))
    ensures Run(toks, pre + [Reduced(l, nl)] + [Shifted(op)] + [Reduced(r, nr)], i, []) ==
            Run(toks, pre + [Reduced(BinaryOperatorNode(l, op, r), nl + 1 + nr)], i, [])
  {
    var s := pre + [Reduced(l, nl)] + [Shifted(op)] + [Reduced(r, nr)];
    var n := BinaryOperatorNode(l, op, r);
    var top := [Reduced(l, nl), Shifted(op), Reduced(r, nr)];
    assert s == pre + top;
    assert s[|s| - 1] == Reduced(r, nr) && s[|s| - 2] == Shifted(op) && s[|s| - 3] == Reduced(l, nl);
    assert NumberRule(s).None? && StringRule(s).None? && IdentifierRule(s).None?;
    assert BinOpRule(s, Next(toks, i)) == Some(Reduction(n, 3, None));
    assert FirstRule(s, Next(toks, i)) == Some(Reduction(n, 3, None));
    assert s[|s| - 3..] == top && s[..|s| - 3] == pre;
    assert Lengths(top) == nl + 1 + nr by {
      var two := [Reduced(l, nl), Shifted(op)];
      assert top[..2] == two && two[..1] == [Reduced(l, nl)] && [Reduced(l, nl)][..0] == [];
      assert Lengths([Reduced(l, nl)]) == nl;
      assert Lengths(two) == nl + 1;
    }
    assert ReduceStack(s, n, 3) == pre + [Reduced(n, nl + 1 + nr)];
    assert [] + DiagnosticList(Reduction(n, 3, None)) == [];
    RunReduces(toks, s, i, []);
  }

  /** A lone node matches no rule, whatever comes next. */
  lemma NoRuleOnNode(x: Expr, n: nat, next: Option<Token>)
    ensures FirstRule([] + [Reduced(x, n)], next).None?
  {
    var s := [] + [Reduced(x, n)];
    assert |s| == 1 && s[0] == Reduced(x, n);
  }

  /** A token kind that no rule reduces while it is on top of the stack: it is neither an
      operand, nor a postfix operator, nor a closing bracket. */
  predicate Inert(k: TokenKind) {
    k !in {Number, StringLit, CharString, Identifier, Incr, Decr, CloseSqBrack, CloseParen}
  }

  /** Nor does such a token on top of the stack, a binary operator for instance. */
  lemma NoRuleOnInert(pre: seq<StackItem>, t: Token, next: Option<Token>)
    requires Inert(t.kind)
    ensures FirstRule(pre + [Shifted(t)], next).None?
  {
    var s := pre + [Shifted(t)];
    assert s[|s| - 1] == Shifted(t);
    assert NumberRule(s).None? && StringRule(s).None? && IdentifierRule(s).None?;
  }

  /** Nor does a ready binary operation that waits for the next token, when its operator is
      not also a prefix operator. */
  lemma NoRuleWhileWaiting(pre: seq<StackItem>, l: Expr, nl: nat, op: Token, r: Expr, nr: nat, next: Option<Token>)
    requires BinaryPrecedence(op.kind).Some? && op.kind !in PrefixOperators && BinOpWaits(op, next)
    ensures FirstRule(pre + [Reduced(l, nl)] + [Shifted(op)] + [Reduced(r, nr)], next).None?
  {
    var s := pre + [Reduced(l, nl)] + [Shifted(op)] + [Reduced(r, nr)];
    assert s[|s| - 1] == Reduced(r, nr) && s[|s| - 2] == Shifted(op) && s[|s| - 3] == Reduced(l, nl);
    assert NumberRule(s).None? && StringRule(s).None? && IdentifierRule(s).None?;
    assert BinOpRule(s, next).None? && PrefixRule(s, next).None?;
  }

  /** So the token after a lone node is shifted ... */
  lemma ShiftOntoNode(toks: seq<Token>, x: Expr, n: nat, i: nat)
    requires i < |toks| && Shiftable(toks[i].kind)
    ensures Run(toks, [] + [Reduced(x, n)], i, []) == Run(toks, [] + [Reduced(x, n)] + [Shifted(toks[i])], i + 1, [])
  {
    NoRuleOnNode(x, n, Next(toks, i));
    RunShifts(toks, [] + [Reduced(x, n)], i, []);
  }

  /** ... and the loop stops at a lone node once the input is used up. */
  lemma StopAtNode(toks: seq<Token>, x: Expr, n: nat)
    ensures Run(toks, [] + [Reduced(x, n)], |toks|, []) == RunEnd([] + [Reduced(x, n)], [], false)
  {
    NoRuleOnNode(x, n, Next(toks, |toks|));
    RunStops(toks, [] + [Reduced(x, n)], |toks|, []);
  }

  /** The token after an inert one, a binary operator for instance, is shifted. */
  lemma ShiftOntoInert(toks: seq<Token>, pre: seq<StackItem>, t: Token, i: nat)
    requires Inert(t.kind)
    requires i < |toks| && Shiftable(toks[i].kind)
    ensures Run(toks, pre + [Shifted(t)], i, []) == Run(toks, pre + [Shifted(t)] + [Shifted(toks[i])], i + 1, [])
  {
    NoRuleOnInert(pre, t, Next(toks, i));
    RunShifts(toks, pre + [Shifted(t)], i, []);
  }

  /** The token a ready binary operation waits for is shifted. */
  lemma ShiftWhileWaiting(toks: seq<Token>, pre: seq<StackItem>, l: Expr, nl: nat, op: Token, r: Expr, nr: nat, i: nat)
    requires BinaryPrecedence(op.kind).Some? && op.kind !in PrefixOperators && BinOpWaits(op, Next(toks, i))
    requires i < |toks| && Shiftable(toks[i].kind)
    ensures Run(toks, pre + [Reduced(l, nl)] + [Shifted(op)] + [Reduced(r, nr)], i, []) ==
            Run(toks, pre + [Reduced(l, nl)] + [Shifted(op)] + [Reduced(r, nr)] + [Shifted(toks[i])], i + 1, [])
  {
    NoRuleWhileWaiting(pre, l, nl, op, r, nr, Next(toks, i));
    RunShifts(toks, pre + [Reduced(l, nl)] + [Shifted(op)] + [Reduced(r, nr)], i, []);
  }

  /** Nothing matches on the empty stack: the first token is shifted ... */
  lemma ShiftFirst(toks: seq<Token>)
    requires |toks| > 0 && Shiftable(toks[0].kind)
    ensures Run(toks, [], 0, []) == Run(toks, [] + [Shifted(toks[0])], 1, [])
  {
    assert FirstRule([], Next(toks, 0)).None?;
    RunShifts(toks, [], 0, []);
  }

  /** ... and, if it is a number, reduced to its node ... */
  lemma LeadingNumber(toks: seq<Token>)
    requires |toks| > 0 && toks[0].kind == Number
    ensures Run(toks, [], 0, []) == Run(toks, [] + [Reduced(NumberNode(toks[0].content), 1)], 1, [])
  {
    NumberStep(toks, [], toks[0], 1);
    ShiftFirst(toks);
  }

  /** ... and so is a name. */
  lemma LeadingName(toks: seq<Token>)
    requires |toks| > 0 && toks[0].kind == Identifier
    ensures Run(toks, [], 0, []) == Run(toks, [] + [Reduced(IdentifierNode(toks[0]), 1)], 1, [])
  {
    IdentifierStep(toks, [], toks[0], 1);
    ShiftFirst(toks);
  }

  /** The sum of two numbers at the start of the input is shifted and its operands reduced
      to nodes, with the `+` between them left on the stack. */
  lemma LeadingSum(toks: seq<Token>)
    requires |toks| >= 3 && toks[0].kind == Number && toks[1].kind == Plus && toks[2].kind == Number
    ensures var n0 := NumberNode(toks[0].content);
            Run(toks, [], 0, []) ==
            Run(toks, [] + [Reduced(n0, 1)] + [Shifted(toks[1])] + [Reduced(NumberNode(toks[2].content), 1)], 3, [])
  {
    var n0 := NumberNode(toks[0].content);
    LeadingNumber(toks);
    ShiftOntoNode(toks, n0, 1, 1);
    ShiftOntoInert(toks, [] + [Reduced(n0, 1)], toks[1], 2);
    NumberStep(toks, [] + [Reduced(n0, 1)] + [Shifted(toks[1])], toks[2], 3);
  }

  /** ... the second `+` does not bind tighter than the first, so `1 + 2` is reduced before
      it is shifted ... */
  lemma ThreeTermSumSecondPair(toks: seq<Token>)
    requires ThreeTermSum(toks)
    ensures var n0, n2 := NumberNode(toks[0].content), NumberNode(toks[2].content);
            var b1 := BinaryOperatorNode(n0, toks[1], n2);
            Run(toks, [] + [Reduced(n0, 1)] + [Shifted(toks[1])] + [Reduced(n2, 1)], 3, []) ==
            Run(toks, [] + [Reduced(b1, 3)] + [Shifted(toks[3])] + [Reduced(NumberNode(toks[4].content), 1)], 5, [])
  {
    var n0, n2 := NumberNode(toks[0].content), NumberNode(toks[2].content);
    var b1 := BinaryOperatorNode(n0, toks[1], n2);
    assert Next(toks, 3) == Some(toks[3]);
    LeftAssociative(toks[1], toks[3]);
    BinOpStep(toks, [], n0, 1, toks[1], n2, 1, 3);
    ShiftOntoNode(toks, b1, 3, 3);
    ShiftOntoInert(toks, [] + [Reduced(b1, 3)], toks[3], 4);
    NumberStep(toks, [] + [Reduced(b1, 3)] + [Shifted(toks[3])], toks[4], 5);
  }

  /** `1 + 2 + 3` parses as `(1 + 2) + 3`: operators of equal precedence associate to the
      left, and the result covers all five tokens. */
  lemma ThreeTermSumTree(toks: seq<Token>)
    requires ThreeTermSum(toks)
    ensures ParseExpression(toks, 0) ==
            Ok((BinaryOperatorNode(BinaryOperatorNode(NumberNode(toks[0].content), toks[1], NumberNode(toks[2].content)),
                                   toks[3], NumberNode(toks[4].content)), 5))
  {
    var n0, n2, n4 := NumberNode(toks[0].content), NumberNode(toks[2].content), NumberNode(toks[4].content);
    var b1 := BinaryOperatorNode(n0, toks[1], n2);
    assert Next(toks, 5).None?;
    LeadingSum(toks);
    ThreeTermSumSecondPair(toks);
    BinOpStep(toks, [], b1, 3, toks[3], n4, 1, 5);
    StopAtNode(toks, BinaryOperatorNode(b1, toks[3], n4), 5);
  }

  /** `1 + 2 * 3` up to the product: `*` binds tighter than `+`, so the sum waits while
      the product is shifted. */
  lemma SumThenProductWaits(toks: seq<Token>)
    requires SumThenProduct(toks)
    ensures var n0, n2 := NumberNode(toks[0].content), NumberNode(toks[2].content);
            var pre := [] + [Reduced(n0, 1)] + [Shifted(toks[1])];
            Run(toks, pre + [Reduced(n2, 1)], 3, []) ==
            Run(toks, pre + [Reduced(n2, 1)] + [Shifted(toks[3])] + [Reduced(NumberNode(toks[4].content), 1)], 5, [])
  {
    var n0, n2 := NumberNode(toks[0].content), NumberNode(toks[2].content);
    var pre := [] + [Reduced(n0, 1)] + [Shifted(toks[1])];
    assert Next(toks, 3) == Some(toks[3]);
    MultiplicationBindsTighter(toks[1], toks[3]);
    ShiftWhileWaiting(toks, [], n0, 1, toks[1], n2, 1, 3);
    ShiftOntoInert(toks, pre + [Reduced(n2, 1)], toks[3], 4);
    NumberStep(toks, pre + [Reduced(n2, 1)] + [Shifted(toks[3])], toks[4], 5);
  }

  /** `1 + 2 * 3` parses as `1 + (2 * 3)`. */
  lemma SumThenProductTree(toks: seq<Token>)
    requires SumThenProduct(toks)
    ensures ParseExpression(toks, 0) ==
            Ok((BinaryOperatorNode(NumberNode(toks[0].content), toks[1],
                                   BinaryOperatorNode(NumberNode(toks[2].content), toks[3], NumberNode(toks[4].content))), 5))
  {
    var n0, n2, n4 := NumberNode(toks[0].content), NumberNode(toks[2].content), NumberNode(toks[4].content);
    var pre := [] + [Reduced(n0, 1)] + [Shifted(toks[1])];
    var m := BinaryOperatorNode(n2, toks[3], n4);
    var sum := BinaryOperatorNode(n0, toks[1], m);
    assert Next(toks, 5).None?;
    LeadingSum(toks);
    SumThenProductWaits(toks);
    BinOpStep(toks, pre, n2, 1, toks[3], n4, 1, 5);
    BinOpStep(toks, [], n0, 1, toks[1], m, 3, 5);
    StopAtNode(toks, sum, 5);
  }

  /** `a = b` at the start of the input is shifted and its operands reduced to nodes. */
  lemma LeadingAssignment(toks: seq<Token>)
    requires |toks| >= 3 && toks[0].kind == Identifier && toks[1].kind == Equals && toks[2].kind == Identifier
    ensures var a := IdentifierNode(toks[0]);
            Run(toks, [], 0, []) ==
            Run(toks, [] + [Reduced(a, 1)] + [Shifted(toks[1])] + [Reduced(IdentifierNode(toks[2]), 1)], 3, [])
  {
    var a := IdentifierNode(toks[0]);
    LeadingName(toks);
    ShiftOntoNode(toks, a, 1, 1);
    ShiftOntoInert(toks, [] + [Reduced(a, 1)], toks[1], 2);
    IdentifierStep(toks, [] + [Reduced(a, 1)] + [Shifted(toks[1])], toks[2], 3);
  }

  /** ... then `a = b` waits for the second assignment. */
  lemma ChainedAssignmentWaits(toks: seq<Token>)
    requires ChainedAssignment(toks)
    ensures var a, b := IdentifierNode(toks[0]), IdentifierNode(toks[2]);
            Run(toks, [], 0, []) ==
            Run(toks, [] + [Reduced(a, 1)] + [Shifted(toks[1])] + [Reduced(b, 1)] + [Shifted(toks[3])], 4, [])
  {
    var a, b := IdentifierNode(toks[0]), IdentifierNode(toks[2]);
    assert Next(toks, 3) == Some(toks[3]);
    RightAssociative(toks[1], toks[3]);
    ShiftWhileWaiting(toks, [], a, 1, toks[1], b, 1, 3);
    LeadingAssignment(toks);
  }

  /** `a = b = 10` parses as `a = (b = 10)`: assignments associate to the right. */
  lemma ChainedAssignmentTree(toks: seq<Token>)
    requires ChainedAssignment(toks)
    ensures ParseExpression(toks, 0) ==
            Ok((BinaryOperatorNode(IdentifierNode(toks[0]), toks[1],
                                   BinaryOperatorNode(IdentifierNode(toks[2]), toks[3], NumberNode(toks[4].content))), 5))
  {
    var a, b, n4 := IdentifierNode(toks[0]), IdentifierNode(toks[2]), NumberNode(toks[4].content);
    var pre := [] + [Reduced(a, 1)] + [Shifted(toks[1])];
    var inner := BinaryOperatorNode(b, toks[3], n4);
    var outer := BinaryOperatorNode(a, toks[1], inner);
    assert Next(toks, 5).None?;
    ChainedAssignmentWaits(toks);
    ShiftOntoInert(toks, pre + [Reduced(b, 1)], toks[3], 4);
    NumberStep(toks, pre + [Reduced(b, 1)] + [Shifted(toks[3])], toks[4], 5);
    BinOpStep(toks, pre, b, 1, toks[3], n4, 1, 5);
    BinOpStep(toks, [], a, 1, toks[1], inner, 3, 5);
    StopAtNode(toks, outer, 5);
  }
}
