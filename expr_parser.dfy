/** The shift-reduce expression parser of myparser.py (`ExpressionParser`): a stack of
    tokens and finished expression nodes, each with the number of input tokens it stands
    for, grown by shifting the next token and shrunk by the reduction rules tried in a
    fixed order. */
module ExprParser {
  import opened Wrappers
  import opened Tokens
  import opened Errors
  import opened Ast

  /** The precedence table of the binary operators; None for every other kind. */
  function BinaryPrecedence(k: TokenKind): (p: Option<nat>)
    ensures p.Some? <==> k in {Plus, Minus, Star, Slash, TwoEquals, NotEqual, Equals, Amp, BoolAnd, BoolOr}
    ensures p.Some? && k in {Star, Slash} ==> p.value == 12
    ensures p.Some? && k == Equals ==> p.value == 1
  {
    match k
    case Plus => Some(11)
    case Minus => Some(11)
    case Star => Some(12)
    case Slash => Some(12)
    case TwoEquals => Some(8)
    case NotEqual => Some(8)
    case Equals => Some(1)
    case Amp => Some(7)
    case BoolAnd => Some(4)
    case BoolOr => Some(3)
    case _ => None
  }

  const PrefixOperators: set<TokenKind> := {Amp, Star, Incr, Decr, BoolNot}
  const PostfixOperators: set<TokenKind> := {Incr, Decr}
  /** Kinds that start a postfix operator: a call, a subscript, `++` or `--`. */
  const PostfixBegin: set<TokenKind> := {OpenParen, OpenSqBrack, Incr, Decr}
  /** The right-associative operators. */
  const AssignmentOperators: set<TokenKind> := {Equals}
  /** The other kinds that may appear inside an expression. */
  const ValidTokens: set<TokenKind> :=
    {Number, Identifier, StringLit, CharString, OpenParen, CloseParen, OpenSqBrack, CloseSqBrack, Comma}

  /** The node a prefix operator token builds around its operand. */
  function PrefixNode(op: Token, e: Expr): (n: Expr)
    requires op.kind in PrefixOperators
  {
    match op.kind
    case Amp => AddrOfNode(e, op)
    case Star => DerefNode(e, op)
    case Incr => IncrDecrNode(e, true, true, op)
    case Decr => IncrDecrNode(e, false, true, op)
    case _ => BoolNotNode(e, op)
  }

  /** The node a postfix operator token builds around its operand. */
  function PostfixNode(op: Token, e: Expr): (n: Expr)
    requires op.kind in PostfixOperators
  {
    IncrDecrNode(e, op.kind == Incr, false, op)
  }

  /** What the stack holds: a token not yet reduced, or an expression node. */
  datatype StackEntry = TokenEntry(tok: Token) | NodeEntry(node: Expr)

  /** `StackItem`: an entry and the number of input tokens it was made from. */
  datatype StackItem = StackItem(item: StackEntry, length: nat)

  /** `match_kind(-d, kind)`: the d-th entry from the top exists and is a token of that kind. */
  predicate MatchKind(s: seq<StackItem>, d: nat, kind: TokenKind) {
    1 <= d <= |s| && s[|s| - d].item.TokenEntry? && s[|s| - d].item.tok.kind == kind
  }

  /** `match_kind_in(-d, kinds)`. */
  predicate MatchKindIn(s: seq<StackItem>, d: nat, kinds: set<TokenKind>) {
    1 <= d <= |s| && s[|s| - d].item.TokenEntry? && s[|s| - d].item.tok.kind in kinds
  }

  /** `match_node(-d)`. */
  predicate MatchNode(s: seq<StackItem>, d: nat) {
    1 <= d <= |s| && s[|s| - d].item.NodeEntry?
  }

  function TopToken(s: seq<StackItem>, d: nat): Token
    requires 1 <= d <= |s| && s[|s| - d].item.TokenEntry?
  {
    s[|s| - d].item.tok
  }

  function TopNode(s: seq<StackItem>, d: nat): Expr
    requires MatchNode(s, d)
  {
    s[|s| - d].item.node
  }

  /** The total number of input tokens the items stand for. */
  function Lengths(items: seq<StackItem>): nat {
    if items == [] then 0 else Lengths(items[..|items| - 1]) + items[|items| - 1].length
  }

  lemma {:induction false} LengthsAppend(a: seq<StackItem>, b: seq<StackItem>)
    ensures Lengths(a + b) == Lengths(a) + Lengths(b)
    decreases |b|
  {
    if b == [] {
      assert a + b == a;
    } else {
      assert (a + b)[..|a + b| - 1] == a + b[..|b| - 1];
      LengthsAppend(a, b[..|b| - 1]);
    }
  }

  /** `reduce(node, num)`: the top `num` items (all of them, if there are fewer) give way to
      one item holding `node`, whose length is the sum of theirs. Everything below is kept,
      and the total length is unchanged. */
  function ReduceStack(s: seq<StackItem>, node: Expr, num: nat): (r: seq<StackItem>)
    ensures var k := if num <= |s| then num else |s|;
            |r| == |s| - k + 1 && r[..|s| - k] == s[..|s| - k]
            && r[|r| - 1] == StackItem(NodeEntry(node), Lengths(s[|s| - k..]))
    ensures Lengths(r) == Lengths(s)
  {
    var k := if num <= |s| then num else |s|;
    var r := s[..|s| - k] + [StackItem(NodeEntry(node), Lengths(s[|s| - k..]))];
    LengthsAppend(s[..|s| - k], s[|s| - k..]);
    assert s[..|s| - k] + s[|s| - k..] == s;
    LengthsAppend(s[..|s| - k], [StackItem(NodeEntry(node), Lengths(s[|s| - k..]))]);
    assert Lengths([StackItem(NodeEntry(node), Lengths(s[|s| - k..]))]) == Lengths(s[|s| - k..]) by {
      assert [StackItem(NodeEntry(node), Lengths(s[|s| - k..]))][..0] == [];
    }
    r
  }

  /** A reduction a rule asks for: the node, how many items it replaces, and the error it
      reports, if any. */
  datatype Reduction = Reduction(node: Expr, num: nat, diagnostic: Option<CompilerError>)

  const EmptyCharConstant := "empty character constant"
  const MultipleCharConstant := "multiple characters in character constant"

  /** `try_match_number`. */
  function NumberRule(s: seq<StackItem>): (r: Option<Reduction>)
    ensures r.Some? <==> MatchKind(s, 1, Number)
    ensures r.Some? ==> r.value == Reduction(NumberNode(TopToken(s, 1).content), 1, None)
  {
    if MatchKind(s, 1, Number) then Some(Reduction(NumberNode(TopToken(s, 1).content), 1, None))
    else None
  }

  /** `try_match_string`: a string token becomes a string node; a character constant
      becomes the number node of its one character, or, when it holds none or several,
      a number node of None and an error. */
  function StringRule(s: seq<StackItem>): (r: Option<Reduction>)
    ensures r.Some? <==> MatchKind(s, 1, StringLit) || MatchKind(s, 1, CharString)
    ensures r.Some? ==> r.value.num == 1
    ensures r.Some? && MatchKind(s, 1, CharString) ==>
              (r.value.diagnostic.None? <==> |TopToken(s, 1).content| == 1)
    ensures r.Some? && r.value.diagnostic.Some? ==> r.value.node == NumberNode("None")
  {
    if MatchKind(s, 1, StringLit) then Some(Reduction(StringNode(TopToken(s, 1).content), 1, None))
    else if MatchKind(s, 1, CharString) then
      var chars := TopToken(s, 1).content;
      if |chars| == 0 then
        Some(Reduction(NumberNode("None"), 1, Some(CompilerError(EmptyCharConstant, None, None))))
      else if |chars| > 1 then
        Some(Reduction(NumberNode("None"), 1, Some(CompilerError(MultipleCharConstant, None, None))))
      else
        Some(Reduction(NumberNode([chars[0]]), 1, None))
    else None
  }

  /** `try_match_identifier`. */
  function IdentifierRule(s: seq<StackItem>): (r: Option<Reduction>)
    ensures r.Some? <==> MatchKind(s, 1, Identifier)
    ensures r.Some? ==> r.value == Reduction(IdentifierNode(TopToken(s, 1)), 1, None)
  {
    if MatchKind(s, 1, Identifier) then Some(Reduction(IdentifierNode(TopToken(s, 1)), 1, None))
    else None
  }

  /** The three conditions under which a ready binary operation waits for the next token
      instead: the next token is a binary operator of strictly higher precedence, it
      starts a postfix operator, or it and the pending operator are both assignments. */
  predicate BinOpWaits(op: Token, next: Option<Token>)
    requires BinaryPrecedence(op.kind).Some?
  {
    && next.Some?
    && (|| (BinaryPrecedence(next.value.kind).Some?
            && BinaryPrecedence(next.value.kind).value > BinaryPrecedence(op.kind).value)
        || next.value.kind in PostfixBegin
        || (op.kind in AssignmentOperators && next.value.kind in AssignmentOperators))
  }

  /** `try_match_bin_op`: node, binary operator, node on top of the stack are reduced
      unless the next token makes the operation wait. */
  function BinOpRule(s: seq<StackItem>, next: Option<Token>): (r: Option<Reduction>)
    ensures r.Some? <==>
              MatchNode(s, 1) && MatchNode(s, 3) && 1 < |s| && s[|s| - 2].item.TokenEntry?
              && BinaryPrecedence(TopToken(s, 2).kind).Some? && !BinOpWaits(TopToken(s, 2), next)
    ensures r.Some? ==> r.value == Reduction(BinaryOperatorNode(TopNode(s, 3), TopToken(s, 2), TopNode(s, 1)), 3, None)
  {
    if !(MatchNode(s, 1) && MatchKindIn(s, 2, {Plus, Minus, Star, Slash, TwoEquals, NotEqual, Equals, Amp, BoolAnd, BoolOr})
         && MatchNode(s, 3)) then None
    else if BinOpWaits(TopToken(s, 2), next) then None
    else Some(Reduction(BinaryOperatorNode(TopNode(s, 3), TopToken(s, 2), TopNode(s, 1)), 3, None))
  }

  /** `try_match_unary_prefix`: prefix operator and node are reduced unless the next token
      starts a postfix operator, which binds first. */
  function PrefixRule(s: seq<StackItem>, next: Option<Token>): (r: Option<Reduction>)
    ensures r.Some? <==> MatchNode(s, 1) && MatchKindIn(s, 2, PrefixOperators)
                         && (next.None? || next.value.kind !in PostfixBegin)
    ensures r.Some? ==> r.value == Reduction(PrefixNode(TopToken(s, 2), TopNode(s, 1)), 2, None)
  {
    if !(MatchNode(s, 1) && MatchKindIn(s, 2, PrefixOperators)) then None
    else if next.None? || next.value.kind !in PostfixBegin then
      Some(Reduction(PrefixNode(TopToken(s, 2), TopNode(s, 1)), 2, None))
    else None
  }

  /** `try_match_unary_postfix`. */
  function PostfixRule(s: seq<StackItem>): (r: Option<Reduction>)
    ensures r.Some? <==> MatchNode(s, 2) && MatchKindIn(s, 1, PostfixOperators)
    ensures r.Some? ==> r.value == Reduction(PostfixNode(TopToken(s, 1), TopNode(s, 2)), 2, None)
  {
    if MatchNode(s, 2) && MatchKindIn(s, 1, PostfixOperators) then
      Some(Reduction(PostfixNode(TopToken(s, 1), TopNode(s, 2)), 2, None))
    else None
  }

  /** `try_match_array_subsc`: node `[` node `]`. */
  function SubscriptRule(s: seq<StackItem>): (r: Option<Reduction>)
    ensures r.Some? <==> MatchKind(s, 1, CloseSqBrack) && MatchNode(s, 2) && MatchKind(s, 3, OpenSqBrack) && MatchNode(s, 4)
    ensures r.Some? ==> r.value == Reduction(ArraySubscriptNode(TopNode(s, 4), TopNode(s, 2), TopToken(s, 3)), 4, None)
  {
    if MatchKind(s, 1, CloseSqBrack) && MatchNode(s, 2) && MatchKind(s, 3, OpenSqBrack) && MatchNode(s, 4) then
      Some(Reduction(ArraySubscriptNode(TopNode(s, 4), TopNode(s, 2), TopToken(s, 3)), 4, None))
    else None
  }

  /** `try_match_paren_expr`: `(` node `)`. */
  function ParenRule(s: seq<StackItem>): (r: Option<Reduction>)
    ensures r.Some? <==> MatchKind(s, 3, OpenParen) && MatchNode(s, 2) && MatchKind(s, 1, CloseParen)
    ensures r.Some? ==> r.value == Reduction(ParenExprNode(TopNode(s, 2)), 3, None)
  {
    if MatchKind(s, 3, OpenParen) && MatchNode(s, 2) && MatchKind(s, 1, CloseParen) then
      Some(Reduction(ParenExprNode(TopNode(s, 2)), 3, None))
    else None
  }

  /** The first rule that matches, in the order `parse` tries them. Every reduction
      replaces items that are on the stack, among them at least one token, at depth one or
      two. */
  function FirstRule(s: seq<StackItem>, next: Option<Token>): (r: Option<Reduction>)
    ensures r.Some? ==> 1 <= r.value.num <= |s|
    ensures r.Some? ==> s[|s| - 1].item.TokenEntry? || (r.value.num >= 2 && s[|s| - 2].item.TokenEntry?)
  {
    if NumberRule(s).Some? then NumberRule(s)
    else if StringRule(s).Some? then StringRule(s)
    else if IdentifierRule(s).Some? then IdentifierRule(s)
    else if BinOpRule(s, next).Some? then BinOpRule(s, next)
    else if PrefixRule(s, next).Some? then PrefixRule(s, next)
    else if PostfixRule(s).Some? then PostfixRule(s)
    else if SubscriptRule(s).Some? then SubscriptRule(s)
    else ParenRule(s)
  }

  function DiagnosticList(red: Reduction): seq<CompilerError> {
    if red.diagnostic.Some? then [red.diagnostic.value] else []
  }

  /** How many items of the stack are tokens. */
  function TokenCount(s: seq<StackItem>): nat {
    if s == [] then 0
    else TokenCount(s[..|s| - 1]) + (if s[|s| - 1].item.TokenEntry? then 1 else 0)
  }

  lemma {:induction false} TokenCountPrefix(s: seq<StackItem>, j: nat)
    requires j <= |s|
    ensures TokenCount(s[..j]) <= TokenCount(s)
    decreases |s| - j
  {
    if j < |s| {
      TokenCountPrefix(s, j + 1);
      assert s[..j + 1][..j] == s[..j];
    } else {
      assert s[..j] == s;
    }
  }

  /** A reduction the rules ask for removes at least one token from the stack: the measure
      by which the parse loop ends. */
  lemma ReductionRemovesToken(s: seq<StackItem>, next: Option<Token>)
    requires FirstRule(s, next).Some?
    ensures var red := FirstRule(s, next).value;
            TokenCount(ReduceStack(s, red.node, red.num)) < TokenCount(s)
  {
    var red := FirstRule(s, next).value;
    var r := ReduceStack(s, red.node, red.num);
    var j := |s| - red.num;
    assert r[..|r| - 1] == s[..j];
    if s[|s| - 1].item.TokenEntry? {
      TokenCountPrefix(s[..|s| - 1], j);
      assert s[..|s| - 1][..j] == s[..j];
    } else {
      TokenCountPrefix(s[..|s| - 2], j);
      assert s[..|s| - 2][..j] == s[..j];
      assert s[..|s| - 1][..|s| - 2] == s[..|s| - 2];
    }
  }

  /** The first token of the unread input, if any. */
  function Next(tokens: seq<Token>, i: nat): Option<Token> {
    if i < |tokens| then Some(tokens[i]) else None
  }

  /** A token the loop may shift: one that can appear in an expression. */
  predicate Shiftable(k: TokenKind) {
    k in ValidTokens || BinaryPrecedence(k).Some? || k in PrefixOperators
  }

  /** How the loop of `parse` ends: the stack, the errors reported so far, and whether it
      stopped by reading past the end of the token list. */
  datatype RunEnd = RunEnd(stack: seq<StackItem>, diagnostics: seq<CompilerError>, crashed: bool)

  /** The loop of `parse` from stack `s` at input position `i`: reduce by the first rule
      that matches; otherwise stop at the end of the input or at a token that cannot be part
      of an expression, or shift the next token. */
  function Run(tokens: seq<Token>, s: seq<StackItem>, i: nat, diags: seq<CompilerError>): (e: RunEnd)
    decreases if i <= |tokens| then |tokens| - i else 0, TokenCount(s)
  {
    match FirstRule(s, Next(tokens, i))
    case Some(red) =>
      ReductionRemovesToken(s, Next(tokens, i));
      Run(tokens, ReduceStack(s, red.node, red.num), i, diags + DiagnosticList(red))
    case None =>
      if i == |tokens| then RunEnd(s, diags, false)
      else if i > |tokens| then RunEnd(s, diags, true)
      else if !Shiftable(tokens[i].kind) then RunEnd(s, diags, false)
      else Run(tokens, s + [StackItem(TokenEntry(tokens[i]), 1)], i + 1, diags)
  }

  /** One turn of the loop: a reduction when a rule matches ... */
  lemma RunReduces(tokens: seq<Token>, s: seq<StackItem>, i: nat, diags: seq<CompilerError>)
    requires FirstRule(s, Next(tokens, i)).Some?
    ensures var red := FirstRule(s, Next(tokens, i)).value;
            Run(tokens, s, i, diags) == Run(tokens, ReduceStack(s, red.node, red.num), i, diags + DiagnosticList(red))
  {
  }

  /** ... otherwise a shift of a token that may be part of an expression ... */
  lemma RunShifts(tokens: seq<Token>, s: seq<StackItem>, i: nat, diags: seq<CompilerError>)
    requires FirstRule(s, Next(tokens, i)).None? && i < |tokens| && Shiftable(tokens[i].kind)
    ensures Run(tokens, s, i, diags) == Run(tokens, s + [StackItem(TokenEntry(tokens[i]), 1)], i + 1, diags)
  {
  }

  /** ... or the end of the loop. */
  lemma RunStops(tokens: seq<Token>, s: seq<StackItem>, i: nat, diags: seq<CompilerError>)
    requires FirstRule(s, Next(tokens, i)).None?
    ensures i >= |tokens| || !Shiftable(tokens[i].kind) ==> Run(tokens, s, i, diags) == RunEnd(s, diags, i > |tokens|)
  {
  }

  const ExpectedExpression := "expected expression"
  /** What Python reports when `tokens[i]` is read past the end. */
  const IndexOutOfRange := "list index out of range"

  /** The result `parse` returns once its loop has ended: the bottom item of the stack and
      the position after the tokens it covers, or "expected expression". */
  function Outcome(e: RunEnd, index: nat): Result<(Expr, nat), ParseFailure> {
    if e.crashed then Err(ParseCrash(IndexOutOfRange))
    else if |e.stack| > 0 && e.stack[0].item.NodeEntry? then Ok((e.stack[0].item.node, index + e.stack[0].length))
    else Err(Syntax(ParserError(ExpectedExpression, index, Got)))
  }

  /** `ExpressionParser(tokens).parse(index)`, as the statement parser calls it. */
  function ParseExpression(tokens: seq<Token>, index: nat): Result<(Expr, nat), ParseFailure> {
    Outcome(Run(tokens, [], index, []), index)
  }

  /** Every item stands for at least one token. */
  predicate PositiveLengths(s: seq<StackItem>) {
    forall k :: 0 <= k < |s| ==> s[k].length >= 1
  }

  lemma {:induction false} LengthsAtLeastFirst(s: seq<StackItem>)
    requires |s| > 0 && PositiveLengths(s)
    ensures s[0].length <= Lengths(s)
    decreases |s|
  {
    if |s| > 1 {
      LengthsAtLeastFirst(s[..|s| - 1]);
    } else {
      assert s[..0] == [];
    }
  }

  /** A reduction keeps every item standing for at least one token. */
  lemma ReduceKeepsPositive(s: seq<StackItem>, node: Expr, num: nat)
    requires PositiveLengths(s) && 1 <= num <= |s|
    ensures PositiveLengths(ReduceStack(s, node, num))
  {
    var r := ReduceStack(s, node, num);
    LengthsAtLeastLast(s[|s| - num..]);
    forall m | 0 <= m < |r| ensures r[m].length >= 1 {
      if m < |r| - 1 {
        assert r[m] == r[..|s| - num][m] == s[m];
      }
    }
  }

  lemma ShiftKeepsPositive(s: seq<StackItem>, t: Token)
    requires PositiveLengths(s)
    ensures PositiveLengths(s + [StackItem(TokenEntry(t), 1)])
    ensures Lengths(s + [StackItem(TokenEntry(t), 1)]) == Lengths(s) + 1
  {
    LengthsAppend(s, [StackItem(TokenEntry(t), 1)]);
    assert [StackItem(TokenEntry(t), 1)][..0] == [];
  }

  /** Starting from a stack that covers exactly `tokens[index..i]`, the loop ends without
      reading past the end, and the stack it ends with covers `tokens[index..j]` for some
      `j` no further than the end, every item standing for at least one token. */
  lemma {:induction false} RunCoversInput(tokens: seq<Token>, s: seq<StackItem>, i: nat, diags: seq<CompilerError>, index: nat)
    requires index <= i <= |tokens| && Lengths(s) == i - index && PositiveLengths(s)
    ensures !Run(tokens, s, i, diags).crashed
    ensures Lengths(Run(tokens, s, i, diags).stack) <= |tokens| - index
    ensures PositiveLengths(Run(tokens, s, i, diags).stack)
    decreases |tokens| - i, TokenCount(s)
  {
    var next := Next(tokens, i);
    if FirstRule(s, next).Some? {
      var red := FirstRule(s, next).value;
      RunReduces(tokens, s, i, diags);
      ReductionRemovesToken(s, next);
      ReduceKeepsPositive(s, red.node, red.num);
      RunCoversInput(tokens, ReduceStack(s, red.node, red.num), i, diags + DiagnosticList(red), index);
    } else if i < |tokens| && Shiftable(tokens[i].kind) {
      RunShifts(tokens, s, i, diags);
      ShiftKeepsPositive(s, tokens[i]);
      RunCoversInput(tokens, s + [StackItem(TokenEntry(tokens[i]), 1)], i + 1, diags, index);
    } else {
      RunStops(tokens, s, i, diags);
    }
  }

  lemma LengthsAtLeastLast(s: seq<StackItem>)
    requires |s| > 0 && PositiveLengths(s)
    ensures Lengths(s) >= 1
  {
  }

  /** `parse` never reads past the end when it starts inside the token list, and what it
      returns is a node covering at least one token and a position no further than the end;
      its only error is "expected expression" at the start position. Started past the end,
      it crashes. */
  lemma ParseExpressionBounds(tokens: seq<Token>, index: nat)
    ensures var r := ParseExpression(tokens, index);
            && (r.Ok? ==> index < r.value.1 <= |tokens|)
            && (r.Err? && r.error.Syntax? ==> r.error.err == ParserError(ExpectedExpression, index, Got))
            && (r.Err? && r.error.ParseCrash? <==> index > |tokens|)
  {
    if index <= |tokens| {
      assert Lengths([]) == 0;
      RunCoversInput(tokens, [], index, [], index);
      var e := Run(tokens, [], index, []);
      if |e.stack| > 0 {
        LengthsAtLeastFirst(e.stack);
      }
    } else {
      assert FirstRule([], Next(tokens, index)).None?;
    }
  }

  /** `ExpressionParser`: the token list, the stack, and the errors reported through the
      error collector while parsing (kept here instead of in a global list). */
  class ExpressionParser {
    const tokens: seq<Token>
    var s: seq<StackItem>
    var diagnostics: seq<CompilerError>

    constructor(tokens: seq<Token>)
      ensures this.tokens == tokens && s == [] && diagnostics == []
    {
      this.tokens := tokens;
      s := [];
      diagnostics := [];
    }

    /** `reduce(node, num)`. */
    method Reduce(node: Expr, num: nat)
      modifies this
      ensures s == ReduceStack(old(s), node, num) && diagnostics == old(diagnostics)
    {
      var k := if num <= |s| then num else |s|;
      var length := Lengths(s[|s| - k..]);
      s := s[..|s| - k];
      s := s + [StackItem(NodeEntry(node), length)];
    }

    /** Applies the reduction a rule asked for, reporting its error first. */
    method Apply(red: Reduction)
      modifies this
      ensures s == ReduceStack(old(s), red.node, red.num)
      ensures diagnostics == old(diagnostics) + DiagnosticList(red)
    {
      if red.diagnostic.Some? {
        diagnostics := diagnostics + [red.diagnostic.value];
      }
      Reduce(red.node, red.num);
    }

    method TryMatchNumber() returns (matched: bool)
      modifies this
      ensures matched == NumberRule(old(s)).Some?
      ensures matched ==> s == ReduceStack(old(s), NumberRule(old(s)).value.node, 1) && diagnostics == old(diagnostics)
      ensures !matched ==> s == old(s) && diagnostics == old(diagnostics)
    {
      if MatchKind(s, 1, Number) {
        Reduce(NumberNode(TopToken(s, 1).content), 1);
        return true;
      }
      return false;
    }

    method TryMatchString() returns (matched: bool)
      modifies this
      ensures matched == StringRule(old(s)).Some?
      ensures matched ==> s == ReduceStack(old(s), StringRule(old(s)).value.node, 1)
                          && diagnostics == old(diagnostics) + DiagnosticList(StringRule(old(s)).value)
      ensures !matched ==> s == old(s) && diagnostics == old(diagnostics)
    {
      if MatchKind(s, 1, StringLit) {
        Reduce(StringNode(TopToken(s, 1).content), 1);
        return true;
      } else if MatchKind(s, 1, CharString) {
        ReduceCharString();
        return true;
      }
      return false;
    }

    /** The character-constant half of `try_match_string`: one character is its own
        constant, and an empty or longer one is reported and stands for no value. */
    method ReduceCharString()
      requires MatchKind(s, 1, CharString)
      modifies this
      ensures s == ReduceStack(old(s), StringRule(old(s)).value.node, 1)
      ensures diagnostics == old(diagnostics) + DiagnosticList(StringRule(old(s)).value)
    {
      ghost var red := StringRule(s).value;
      var chars := TopToken(s, 1).content;
      if |chars| == 0 {
        assert red.node == NumberNode("None") && DiagnosticList(red) == [CompilerError(EmptyCharConstant, None, None)];
        diagnostics := diagnostics + [CompilerError(EmptyCharConstant, None, None)];
        Reduce(NumberNode("None"), 1);
      } else if |chars| > 1 {
        assert red.node == NumberNode("None") && DiagnosticList(red) == [CompilerError(MultipleCharConstant, None, None)];
        diagnostics := diagnostics + [CompilerError(MultipleCharConstant, None, None)];
        Reduce(NumberNode("None"), 1);
      } else {
        assert red.node == NumberNode([chars[0]]) && DiagnosticList(red) == [];
        Reduce(NumberNode([chars[0]]), 1);
      }
    }

    method TryMatchIdentifier() returns (matched: bool)
      modifies this
      ensures matched == IdentifierRule(old(s)).Some?
      ensures matched ==> s == ReduceStack(old(s), IdentifierRule(old(s)).value.node, 1) && diagnostics == old(diagnostics)
      ensures !matched ==> s == old(s) && diagnostics == old(diagnostics)
    {
      if MatchKind(s, 1, Identifier) {
        Reduce(IdentifierNode(TopToken(s, 1)), 1);
        return true;
      }
      return false;
    }

    /** `try_match_bin_op(buffer)`; only the first token of the buffer is looked at, so it
        is passed alone. */
    method TryMatchBinOp(next: Option<Token>) returns (matched: bool)
      modifies this
      ensures matched == BinOpRule(old(s), next).Some?
      ensures matched ==> s == ReduceStack(old(s), BinOpRule(old(s), next).value.node, 3) && diagnostics == old(diagnostics)
      ensures !matched ==> s == old(s) && diagnostics == old(diagnostics)
    {
      if !(MatchNode(s, 1) && MatchKindIn(s, 2, {Plus, Minus, Star, Slash, TwoEquals, NotEqual, Equals, Amp, BoolAnd, BoolOr})
           && MatchNode(s, 3)) {
        return false;
      }
      var op := TopToken(s, 2);
      var higherPrecBin, higherPrecPost, anotherAssignment := false, false, false;
      if next.Some? {
        higherPrecBin := BinaryPrecedence(next.value.kind).Some?
                         && BinaryPrecedence(next.value.kind).value > BinaryPrecedence(op.kind).value;
        higherPrecPost := next.value.kind in PostfixBegin;
        anotherAssignment := op.kind in AssignmentOperators && next.value.kind in AssignmentOperators;
      }
      if !(higherPrecBin || higherPrecPost || anotherAssignment) {
        Reduce(BinaryOperatorNode(TopNode(s, 3), op, TopNode(s, 1)), 3);
        return true;
      }
      return false;
    }

    method TryMatchUnaryPrefix(next: Option<Token>) returns (matched: bool)
      modifies this
      ensures matched == PrefixRule(old(s), next).Some?
      ensures matched ==> s == ReduceStack(old(s), PrefixRule(old(s), next).value.node, 2) && diagnostics == old(diagnostics)
      ensures !matched ==> s == old(s) && diagnostics == old(diagnostics)
    {
      if !(MatchNode(s, 1) && MatchKindIn(s, 2, PrefixOperators)) {
        return false;
      }
      if next.None? || next.value.kind !in PostfixBegin {
        Reduce(PrefixNode(TopToken(s, 2), TopNode(s, 1)), 2);
        return true;
      }
      return false;
    }

    method TryMatchUnaryPostfix() returns (matched: bool)
      modifies this
      ensures matched == PostfixRule(old(s)).Some?
      ensures matched ==> s == ReduceStack(old(s), PostfixRule(old(s)).value.node, 2) && diagnostics == old(diagnostics)
      ensures !matched ==> s == old(s) && diagnostics == old(diagnostics)
    {
      if !(MatchNode(s, 2) && MatchKindIn(s, 1, PostfixOperators)) {
        return false;
      }
      Reduce(PostfixNode(TopToken(s, 1), TopNode(s, 2)), 2);
      return true;
    }

    method TryMatchArraySubscript() returns (matched: bool)
      modifies this
      ensures matched == SubscriptRule(old(s)).Some?
      ensures matched ==> s == ReduceStack(old(s), SubscriptRule(old(s)).value.node, 4) && diagnostics == old(diagnostics)
      ensures !matched ==> s == old(s) && diagnostics == old(diagnostics)
    {
      if MatchKind(s, 1, CloseSqBrack) && MatchNode(s, 2) && MatchKind(s, 3, OpenSqBrack) && MatchNode(s, 4) {
        Reduce(ArraySubscriptNode(TopNode(s, 4), TopNode(s, 2), TopToken(s, 3)), 4);
        return true;
      }
      return false;
    }

    method TryMatchParenExpr() returns (matched: bool)
      modifies this
      ensures matched == ParenRule(old(s)).Some?
      ensures matched ==> s == ReduceStack(old(s), ParenRule(old(s)).value.node, 3) && diagnostics == old(diagnostics)
      ensures !matched ==> s == old(s) && diagnostics == old(diagnostics)
    {
      if MatchKind(s, 3, OpenParen) && MatchNode(s, 2) && MatchKind(s, 1, CloseParen) {
        Reduce(ParenExprNode(TopNode(s, 2)), 3);
        return true;
      }
      return false;
    }

    /** Tries the rules in order, as the condition of the loop in `parse` does; at most one
        of them reduces. */
    method TryMatchAny(next: Option<Token>) returns (matched: bool)
      modifies this
      ensures matched == FirstRule(old(s), next).Some?
      ensures matched ==> s == ReduceStack(old(s), FirstRule(old(s), next).value.node, FirstRule(old(s), next).value.num)
                          && diagnostics == old(diagnostics) + DiagnosticList(FirstRule(old(s), next).value)
      ensures !matched ==> s == old(s) && diagnostics == old(diagnostics)
    {
      matched := TryMatchNumber();
      if matched { return; }
      matched := TryMatchString();
      if matched { return; }
      matched := TryMatchIdentifier();
      if matched { return; }
      matched := TryMatchBinOp(next);
      if matched { return; }
      matched := TryMatchUnaryPrefix(next);
      if matched { return; }
      matched := TryMatchUnaryPostfix();
      if matched { return; }
      matched := TryMatchArraySubscript();
      if matched { return; }
      matched := TryMatchParenExpr();
    }

    /** One turn of the loop of `parse` at input position `i`: a reduction by the first
        rule that matches, or else the end of the loop, a read past the end of the token
        list, or a shift. The loop from the new state ends as it would have from the old. */
    method Step(i: nat) returns (stop: bool, crashed: bool, i': nat)
      modifies this
      ensures Run(tokens, s, i', diagnostics) == Run(tokens, old(s), i, old(diagnostics))
      ensures stop ==> Run(tokens, old(s), i, old(diagnostics)) == RunEnd(s, diagnostics, crashed)
      ensures !stop ==> (i' == i && TokenCount(s) < TokenCount(old(s))) || (i' == i + 1 && i' <= |tokens|)
    {
      var next := if i < |tokens| then Some(tokens[i]) else None;
      assert next == Next(tokens, i);
      var matched := TryMatchAny(next);
      i', stop, crashed := i, false, false;
      if matched {
        ReductionRemovesToken(old(s), next);
        RunReduces(tokens, old(s), i, old(diagnostics));
        return;
      }
      RunStops(tokens, s, i, diagnostics);
      if i == |tokens| {
        stop := true;
      } else if i > |tokens| {
        stop, crashed := true, true;
      } else if !Shiftable(tokens[i].kind) {
        stop := true;
      } else {
        RunShifts(tokens, s, i, diagnostics);
        s := s + [StackItem(TokenEntry(tokens[i]), 1)];
        i' := i + 1;
      }
    }

    /** `parse(index)`: the loop and its result are those of `Run` and `Outcome` from the
        parser's current stack. */
    method Parse(index: nat) returns (r: Result<(Expr, nat), ParseFailure>)
      modifies this
      ensures var e := Run(tokens, old(s), index, old(diagnostics));
              s == e.stack && diagnostics == e.diagnostics && r == Outcome(e, index)
    {
      ghost var e := Run(tokens, s, index, diagnostics);
      var i := index;
      while true
        invariant Run(tokens, s, i, diagnostics) == e
        decreases if i <= |tokens| then |tokens| - i else 0, TokenCount(s)
      {
        var stop, crashed;
        stop, crashed, i := Step(i);
        if stop {
          if crashed {
            r := Err(ParseCrash(IndexOutOfRange));
            return;
          }
          break;
        }
      }
      r := Result(index);
    }

    /** The end of `parse`: the bottom item of the stack, if it is a node, and the position
        after the tokens it covers; "expected expression" otherwise. */
    method Result(index: nat) returns (r: Result<(Expr, nat), ParseFailure>)
      ensures r == Outcome(RunEnd(s, diagnostics, false), index)
    {
      if |s| > 0 && s[0].item.NodeEntry? {
        r := Ok((s[0].item.node, index + s[0].length));
      } else {
        r := Err(Syntax(ParserError(ExpectedExpression, index, Got)));
      }
    }
  }
}
