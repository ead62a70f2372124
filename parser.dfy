/** The statement parser of myparser.py: the `Parser` class, its best-error bookkeeping,
    the bracket scans as loops over the token list, and the recursive-descent methods for
    the root, `main`, statements, compound statements and declarations. */
module StatementParser {
  import opened Wrappers
  import opened Tokens
  import opened Errors
  import opened Ast
  import opened ParserScan
  import opened ExprParser
  import opened DeclaratorLists

  const UnexpectedToken := "unexpected token"
  const ExpectedMain := "expected main function starting"
  const ExpectedOpenBrace := "expected '{'"
  const ExpectedCloseBrace := "expected '}'"
  const ExpectedReturn := "expected keyword 'return'"
  const ExpectedIf := "expected keyword 'if'"
  const ExpectedOpenParen := "expected '('"
  const ExpectedCloseParen := "expected ')'"
  const ExpectedElse := "expected keyword 'else'"
  const MalformedExpression := "missing semicolon or malformed expression"
  const ExpectedSpecifier := "expected declaration specifier"

  /** The declaration specifiers: the keywords of the simple types, then `signed`,
      `unsigned`, `auto`, `static` and `extern`. */
  const DeclSpecifierKinds: set<TokenKind> :=
    {VoidKw, BoolKw, CharKw, ShortKw, IntKw, LongKw, SignedKw, UnsignedKw, AutoKw, StaticKw, ExternKw}

  /** `log_error`'s choice between the best error so far and a new one: the new one wins
      unless it got less far than the best. */
  function Better(best: Option<ParserError>, e: ParserError): (r: ParserError)
    ensures r == e || (best.Some? && r == best.value)
    ensures r.amountParsed >= e.amountParsed
    ensures best.Some? ==> r.amountParsed >= best.value.amountParsed
    ensures best.Some? && best.value.amountParsed == e.amountParsed ==> r == e
  {
    if best.None? || e.amountParsed >= best.value.amountParsed then e else best.value
  }

  /** The best error after logging `errs` in order, starting from none. */
  function BestOf(errs: seq<ParserError>): (r: Option<ParserError>)
    ensures r.Some? <==> |errs| > 0
  {
    if errs == [] then None else Some(Better(BestOf(errs[..|errs| - 1]), errs[|errs| - 1]))
  }

  /** The best error is the last of the logged errors that got furthest: no logged error
      got further, and every one logged after it got less far. */
  lemma {:induction false} BestOfIsLastFurthest(errs: seq<ParserError>) returns (k: nat)
    requires |errs| > 0
    ensures k < |errs| && BestOf(errs) == Some(errs[k])
    ensures forall i :: 0 <= i < |errs| ==> errs[i].amountParsed <= errs[k].amountParsed
    ensures forall i :: k < i < |errs| ==> errs[i].amountParsed < errs[k].amountParsed
  {
    var n := |errs| - 1;
    var prefix := errs[..n];
    if prefix == [] {
      k := 0;
    } else {
      var k' := BestOfIsLastFurthest(prefix);
      if errs[n].amountParsed >= errs[k'].amountParsed {
        k := n;
      } else {
        k := k';
      }
    }
  }

  /** Logging more errors never lowers how far the best error got. */
  lemma {:induction false} BestOfMonotone(errs: seq<ParserError>, more: seq<ParserError>)
    requires |errs| > 0
    ensures BestOf(errs + more).Some?
    ensures BestOf(errs).value.amountParsed <= BestOf(errs + more).value.amountParsed
    decreases |more|
  {
    if more != [] {
      var last := more[|more| - 1];
      var init := more[..|more| - 1];
      assert (errs + more)[..|errs + more| - 1] == errs + init;
      BestOfMonotone(errs, init);
    } else {
      assert errs + more == errs;
    }
  }

  predicate IsStatement(n: Node) {
    n.CompoundNode? || n.ReturnNode? || n.IfStatementNode? || n.ExprStatementNode?
  }

  /** What a statement's first token says about the statement it starts: a brace starts a
      compound statement, `return` a return, `if` an if statement, and anything an
      expression may start with an expression statement. */
  predicate StartsAs(tokens: seq<Token>, index: nat, n: Node) {
    match n
    case CompoundNode(_) => NextTokenIs(tokens, index, OpenBrack)
    case ReturnNode(_, _) => NextTokenIs(tokens, index, ReturnKw)
    case IfStatementNode(_, _, _) => NextTokenIs(tokens, index, IfKw)
    case ExprStatementNode(_) => index < |tokens| && Shiftable(tokens[index].kind)
    case _ => false
  }

  /** An expression cannot start at the end of the token list or at a token that is
      neither an operand nor an operator. */
  lemma ExpressionNeedsStart(tokens: seq<Token>, index: nat)
    requires index >= |tokens| || !Shiftable(tokens[index].kind)
    ensures ParseExpression(tokens, index).Err?
  {
    assert FirstRule([], Next(tokens, index)).None?;
    RunStops(tokens, [], index, []);
  }

  /** The first tokens of the four kinds of statement are different: whichever statement
      parses, the first token decides which one. */
  lemma StartsAsDecides(tokens: seq<Token>, index: nat, n: Node, m: Node)
    requires StartsAs(tokens, index, n) && StartsAs(tokens, index, m)
    ensures n.CompoundNode? <==> m.CompoundNode?
    ensures n.ReturnNode? <==> m.ReturnNode?
    ensures n.IfStatementNode? <==> m.IfStatementNode?
    ensures n.ExprStatementNode? <==> m.ExprStatementNode?
  {
  }

  /** The errors the expression parser reports while parsing from `index`. */
  function ExpressionDiagnostics(tokens: seq<Token>, index: nat): seq<CompilerError> {
    Run(tokens, [], index, []).diagnostics
  }

  /** The end of the run of declaration specifiers that starts at `i`. */
  function SpecifierEnd(tokens: seq<Token>, i: nat): (j: nat)
    ensures i <= j && (i <= |tokens| ==> j <= |tokens|)
    decreases |tokens| - i
  {
    if i < |tokens| && tokens[i].kind in DeclSpecifierKinds then SpecifierEnd(tokens, i + 1) else i
  }

  /** The run is every token from `i` up to its end, and the token at its end, if any, is
      not a specifier. */
  lemma {:induction false} SpecifierEndIsLongestRun(tokens: seq<Token>, i: nat)
    requires i <= |tokens|
    ensures var j := SpecifierEnd(tokens, i);
            && (forall k :: i <= k < j ==> tokens[k].kind in DeclSpecifierKinds)
            && !(j < |tokens| && tokens[j].kind in DeclSpecifierKinds)
    decreases |tokens| - i
  {
    if i < |tokens| && tokens[i].kind in DeclSpecifierKinds {
      SpecifierEndIsLongestRun(tokens, i + 1);
    }
  }

  /** What every parse method promises of its result: a success consumes at least one token
      and stays inside the token list, and a syntax error is reported no earlier than where
      the parse began. */
  predicate Progress(tokens: seq<Token>, index: nat, r: Result<(Node, nat), ParseFailure>) {
    && (r.Ok? ==> index < r.value.1 <= |tokens|)
    && (r.Err? && r.error.Syntax? ==> index <= r.error.err.amountParsed)
  }

  /** `Parser`: the token list and the best error encountered so far. The errors the
      expression parser reports while parsing, and the best error once the whole parse has
      failed, go to the error collector; here they are kept in `diagnostics` and
      `reported`. `logged` is every error logged, in order. */
  class Parser {
    const tokens: seq<Token>
    var bestError: Option<ParserError>
    ghost var logged: seq<ParserError>
    var diagnostics: seq<CompilerError>
    var reported: seq<ParserError>

    ghost predicate Valid()
      reads this
    {
      bestError == BestOf(logged)
    }

    constructor(tokens: seq<Token>)
      ensures this.tokens == tokens && bestError == None && logged == []
      ensures diagnostics == [] && reported == [] && Valid()
    {
      this.tokens := tokens;
      bestError := None;
      logged := [];
      diagnostics := [];
      reported := [];
    }

    /** `log_error`: the new error becomes the best one unless the best one got further. */
    method LogError(e: ParserError)
      requires Valid()
      modifies this
      ensures Valid() && logged == old(logged) + [e]
      ensures bestError.Some? && bestError.value.amountParsed >= e.amountParsed
      ensures old(bestError).Some? ==> bestError.value.amountParsed >= old(bestError).value.amountParsed
      ensures bestError.value == e || bestError == old(bestError)
      ensures diagnostics == old(diagnostics) && reported == old(reported)
    {
      if bestError.None? || e.amountParsed >= bestError.value.amountParsed {
        bestError := Some(e);
      }
      logged := logged + [e];
      assert logged[..|logged| - 1] == old(logged);
    }

    /** `find_pair_forward`: the loop over the tokens from `index` that stops where the
        depth is back at zero. */
    method FindPairForward(index: nat, b: Bracket, mess: string) returns (r: Result<nat, ParserError>)
      ensures r == PairForward(tokens, index, b, mess)
    {
      var depth := 0;
      var i := index;
      while i < |tokens|
        invariant ScanForward(tokens, index, i, depth, b, mess) == PairForward(tokens, index, b, mess)
        decreases |tokens| - i
      {
        if tokens[i].kind == OpenKind(b) {
          depth := depth + 1;
        } else if tokens[i].kind == CloseKind(b) {
          depth := depth - 1;
        }
        if depth == 0 {
          return Ok(i);
        }
        i := i + 1;
      }
      r := Err(ParserError(mess, index, At));
    }

    /** `find_pair_backward`. Started past the end of the token list, its first read
        fails. */
    method FindPairBackward(index: nat, b: Bracket, mess: string) returns (r: Result<nat, ParseFailure>)
      ensures index >= |tokens| ==> r == Err(ParseCrash(IndexOutOfRange))
      ensures index < |tokens| && PairBackward(tokens, index, b, mess).Ok? ==>
                r == Ok(PairBackward(tokens, index, b, mess).value)
      ensures index < |tokens| && PairBackward(tokens, index, b, mess).Err? ==>
                r == Err(Syntax(PairBackward(tokens, index, b, mess).error))
    {
      if index >= |tokens| {
        r := Err(ParseCrash(IndexOutOfRange));
      } else {
        var scan := ScanPairBackward(index, b, mess);
        r := if scan.Ok? then Ok(scan.value) else Err(Syntax(scan.error));
      }
    }

    /** The loop of `find_pair_backward`, from `index` down to the first token. */
    method ScanPairBackward(index: nat, b: Bracket, mess: string) returns (r: Result<nat, ParserError>)
      requires index < |tokens|
      ensures r == PairBackward(tokens, index, b, mess)
    {
      var depth := 0;
      var i: int := index;
      while i >= 0
        invariant i < |tokens|
        invariant ScanBackward(tokens, index, i, depth, b, mess) == PairBackward(tokens, index, b, mess)
        decreases i + 1
      {
        if tokens[i].kind == CloseKind(b) {
          depth := depth + 1;
        } else if tokens[i].kind == OpenKind(b) {
          depth := depth - 1;
        }
        if depth == 0 {
          return Ok(i as nat);
        }
        i := i - 1;
      }
      r := Err(ParserError(mess, index, At));
    }

    /** `parse_decl_specifiers`: the run of declaration specifiers from `index`, which must
        not be empty. */
    method ParseDeclSpecifiers(index: nat) returns (r: Result<(seq<Token>, nat), ParserError>)
      ensures r.Ok? <==> index < |tokens| && tokens[index].kind in DeclSpecifierKinds
      ensures r.Ok? ==> var (specs, j) := r.value;
                        && j == SpecifierEnd(tokens, index)
                        && index < j <= |tokens| && specs == tokens[index..j]
                        && (forall t <- specs :: t.kind in DeclSpecifierKinds)
      ensures r.Err? ==> r.error == ParserError(ExpectedSpecifier, index, At)
    {
      var specs: seq<Token> := [];
      var i := index;
      while i < |tokens| && tokens[i].kind in DeclSpecifierKinds
        invariant i == index + |specs|
        invariant specs != [] ==> i <= |tokens| && specs == tokens[index..i]
        invariant forall t <- specs :: t.kind in DeclSpecifierKinds
        invariant SpecifierEnd(tokens, i) == SpecifierEnd(tokens, index)
        decreases |tokens| - i
      {
        specs := specs + [tokens[i]];
        i := i + 1;
      }
      if specs != [] {
        r := Ok((specs, i));
      } else {
        r := Err(ParserError(ExpectedSpecifier, index, At));
      }
    }

    /** `parse_expression`: a fresh expression parser run from `index`; the errors it
        reports are passed on. */
    method ParseExpressionAt(index: nat) returns (r: Result<(Expr, nat), ParseFailure>)
      modifies this
      ensures r == ParseExpression(tokens, index)
      ensures diagnostics == old(diagnostics) + ExpressionDiagnostics(tokens, index)
      ensures bestError == old(bestError) && logged == old(logged) && reported == old(reported)
    {
      var ep := new ExpressionParser(tokens);
      r := ep.Parse(index);
      diagnostics := diagnostics + ep.diagnostics;
    }

    /** `parse_return`: the keyword, an expression and a semicolon. */
    method ParseReturn(index: nat) returns (r: Result<(Node, nat), ParseFailure>)
      modifies this
      ensures bestError == old(bestError) && logged == old(logged) && reported == old(reported)
      ensures Progress(tokens, index, r)
      ensures !NextTokenIs(tokens, index, ReturnKw) ==> r == Err(Syntax(ParserError(ExpectedReturn, index, Got)))
      ensures r.Ok? ==> && NextTokenIs(tokens, index, ReturnKw)
                        && var e := ParseExpression(tokens, index + 1);
                        && e.Ok? && NextTokenIs(tokens, e.value.1, Semicolon)
                        && r.value.0 == ReturnNode(e.value.0, Some(tokens[index]))
                        && r.value.1 == e.value.1 + 1
      ensures r.Err? && NextTokenIs(tokens, index, ReturnKw) && ParseExpression(tokens, index + 1).Ok? ==>
                r.error == Syntax(ParserError(ExpectedSemicolon, ParseExpression(tokens, index + 1).value.1, After))
    {
      var m := MatchToken(tokens, index, ReturnKw, ExpectedReturn, Got);
      if m.Err? {
        r := Err(Syntax(m.error));
      } else {
        assert m.value == index + 1;
        var kw := tokens[m.value - 1];
        ParseExpressionBounds(tokens, m.value);
        var e := ParseExpressionAt(m.value);
        ghost var expected := ParseExpression(tokens, index + 1);
        assert e == expected;
        if e.Err? {
          r := Err(e.error);
        } else {
          var (node, i) := e.value;
          var semi := MatchToken(tokens, i, Semicolon, ExpectedSemicolon, After);
          if semi.Err? {
            r := Err(Syntax(semi.error));
          } else {
            assert kw == tokens[index] && semi.value == i + 1;
            r := Ok((ReturnNode(node, Some(kw)), i + 1));
            assert node == expected.value.0 && i == expected.value.1;
          }
        }
      }
    }

    /** `parse_expr_statement`: an expression and its semicolon. */
    method ParseExprStatement(index: nat) returns (r: Result<(Node, nat), ParseFailure>)
      modifies this
      ensures bestError == old(bestError) && logged == old(logged) && reported == old(reported)
      ensures Progress(tokens, index, r)
      ensures var e := ParseExpression(tokens, index);
              && (e.Err? ==> r == Err(e.error))
              && (e.Ok? && NextTokenIs(tokens, e.value.1, Semicolon) ==> r == Ok((ExprStatementNode(e.value.0), e.value.1 + 1)))
              && (e.Ok? && !NextTokenIs(tokens, e.value.1, Semicolon) ==>
                    r == Err(Syntax(ParserError(MalformedExpression, e.value.1, After))))
      ensures r.Ok? ==> index < |tokens| && Shiftable(tokens[index].kind)
    {
      ParseExpressionBounds(tokens, index);
      if index >= |tokens| || !Shiftable(tokens[index].kind) {
        ExpressionNeedsStart(tokens, index);
      }
      var e := ParseExpressionAt(index);
      ghost var expected := ParseExpression(tokens, index);
      assert e == expected;
      if e.Err? {
        r := Err(e.error);
      } else {
        var (node, i) := e.value;
        var semi := MatchToken(tokens, i, Semicolon, MalformedExpression, After);
        if semi.Err? {
          r := Err(Syntax(semi.error));
        } else {
          assert semi.value == i + 1;
          r := Ok((ExprStatementNode(node), i + 1));
          assert node == expected.value.0 && i == expected.value.1;
        }
      }
    }

    /** One turn of the loop of `parse_declaration`: the declarator up to where
        `find_decl_end` puts its end, with the declaration's specifiers, and its initializer
        if an `=` follows. `turn` is that turn as a function of where it starts. */
    method ParseInitDeclarator(index: nat, specs: seq<Token>, ghost turn: nat -> Result<(DeclRoot, Option<Expr>, nat), ParseFailure>)
      returns (r: Result<(DeclRoot, Option<Expr>, nat), ParseFailure>)
      requires index <= |tokens| && TurnIs(tokens, specs, turn)
      modifies this
      ensures bestError == old(bestError) && logged == old(logged) && reported == old(reported)
      ensures r == turn(index)
    {
      var end := FindDeclEnd(tokens, index);
      if end.Err? {
        r := Err(Syntax(end.error));
      } else {
        r := ParseDeclaratorAt(index, end.value, specs);
      }
      TurnAt(tokens, specs, turn, index);
    }

    /** The declarator between `index` and `end`, then the initializer if an `=` is at `end`. */
    method ParseDeclaratorAt(index: nat, end: nat, specs: seq<Token>)
      returns (r: Result<(DeclRoot, Option<Expr>, nat), ParseFailure>)
      requires index <= end <= |tokens|
      modifies this
      ensures bestError == old(bestError) && logged == old(logged) && reported == old(reported)
      ensures r == DeclaratorAt(tokens, index, end, specs)
    {
      DeclaratorAtCases(tokens, index, end, specs);
      var child := ParseDeclarator(tokens, index, end);
      if child.Err? {
        r := Err(child.error);
      } else if NextTokenIs(tokens, end, Equals) {
        var e := ParseExpressionAt(end + 1);
        if e.Err? {
          r := Err(e.error);
        } else {
          r := Ok((DeclRoot(specs, child.value), Some(e.value.0), e.value.1));
        }
      } else {
        r := Ok((DeclRoot(specs, child.value), None, end));
      }
    }

    /** `parse_declaration`: the specifiers, then either a semicolon at once or a
        comma-separated list of declarators, each with an optional `=` initializer, and a
        semicolon. Every declarator gets the same specifiers. */
    method ParseDeclaration(index: nat) returns (r: Result<(Node, nat), ParseFailure>)
      requires index <= |tokens|
      modifies this
      ensures bestError == old(bestError) && logged == old(logged) && reported == old(reported)
      ensures Progress(tokens, index, r)
      ensures !(index < |tokens| && tokens[index].kind in DeclSpecifierKinds) ==>
                r == Err(Syntax(ParserError(ExpectedSpecifier, index, At)))
      ensures r.Ok? ==> && r.value.0.DeclarationNode?
                        && |r.value.0.decls| == |r.value.0.inits|
                        && tokens[r.value.1 - 1].kind == Semicolon
                        && index < SpecifierEnd(tokens, index)
                        && forall d <- r.value.0.decls :: d.specs == tokens[index..SpecifierEnd(tokens, index)]
      ensures r.Ok? && r.value.0.decls == [] ==> r.value.1 == SpecifierEnd(tokens, index) + 1
      ensures index < |tokens| && tokens[index].kind in DeclSpecifierKinds
              && !NextTokenIs(tokens, SpecifierEnd(tokens, index), Semicolon) ==>
                IsDeclaratorList(tokens, tokens[index..SpecifierEnd(tokens, index)], SpecifierEnd(tokens, index), r)
    {
      var sr := ParseDeclSpecifiers(index);
      if sr.Err? {
        r := Err(Syntax(sr.error));
      } else {
        var (specs, i) := sr.value;
        if NextTokenIs(tokens, i, Semicolon) {
          var j: nat := i + 1;
          assert tokens[j - 1].kind == Semicolon;
          r := Ok((DeclarationNode([], []), j));
        } else {
          r := ParseDeclarators(index, specs, i);
        }
      }
    }

    /** The comma-separated declarators of `parse_declaration` after the specifiers `specs`,
        from `i`, and the semicolon that ends them. */
    method ParseDeclarators(index: nat, specs: seq<Token>, i: nat) returns (r: Result<(Node, nat), ParseFailure>)
      requires index < i <= |tokens|
      modifies this
      ensures bestError == old(bestError) && logged == old(logged) && reported == old(reported)
      ensures IsDeclaratorList(tokens, specs, i, r)
      ensures r.Ok? ==> && r.value.0.DeclarationNode?
                        && |r.value.0.decls| == |r.value.0.inits| && r.value.0.decls != []
                        && i < r.value.1 <= |tokens| && tokens[r.value.1 - 1].kind == Semicolon
                        && forall d <- r.value.0.decls :: d.specs == specs
      ensures r.Err? && r.error.Syntax? ==> i <= r.error.err.amountParsed
    {
      ghost var turn := InitDeclaratorTurn(tokens, specs);
      r := ParseDeclaratorList(index, specs, i, turn);
      ListRestShape(tokens, specs, turn, i);
      ListRestIsDeclaratorList(tokens, specs, turn, i);
    }

    /** The declarator list of `parse_declaration` from `i`, after the specifiers `specs`,
        and the semicolon that ends it; `turn` is the init-declarator as a function of where
        it starts. */
    method ParseDeclaratorList(index: nat, specs: seq<Token>, i: nat,
                               ghost turn: nat -> Result<(DeclRoot, Option<Expr>, nat), ParseFailure>)
      returns (r: Result<(Node, nat), ParseFailure>)
      requires index < i <= |tokens|
      requires TurnIs(tokens, specs, turn) && TurnLaws(tokens, specs, turn)
      modifies this
      ensures bestError == old(bestError) && logged == old(logged) && reported == old(reported)
      ensures r == ListRest(tokens, specs, turn, i, [], [])
    {
      ghost var result := ListRest(tokens, specs, turn, i, [], []);
      var decls: seq<DeclRoot> := [];
      var inits: seq<Option<Expr>> := [];
      var i := i;
      while true
        invariant index < i <= |tokens|
        invariant bestError == old(bestError) && logged == old(logged) && reported == old(reported)
        invariant ListRest(tokens, specs, turn, i, decls, inits) == result
        decreases |tokens| - i
      {
        var one := ParseInitDeclarator(i, specs, turn);
        if one.Err? {
          r := Err(one.error);
          break;
        }
        var (decl, init, next) := one.value;
        decls, inits := decls + [decl], inits + [init];
        if NextTokenIs(tokens, next, Comma) {
          i := next + 1;
        } else {
          var semi := MatchToken(tokens, next, Semicolon, ExpectedSemicolon, After);
          if semi.Err? {
            r := Err(Syntax(semi.error));
          } else {
            var j: nat := next + 1;
            r := Ok((DeclarationNode(decls, inits), j));
          }
          break;
        }
      }
    }

    /** `parse`: the whole token list as a root node. A syntax error is logged, and the best
        error logged so far is the one reported; a read past the end of the token list is
        not caught. */
    method Parse() returns (r: Result<Option<Node>, string>)
      requires Valid()
      modifies this
      ensures Valid()
      ensures r.Ok? && r.value.Some? ==> && reported == old(reported) && r.value.value.RootNode?
                                         && forall n <- r.value.value.nodes :: n.MainNode? || n.DeclarationNode?
      ensures r.Ok? && r.value.None? ==> && bestError.Some? && reported == old(reported) + [bestError.value]
                                         && forall i :: 0 <= i < |logged| ==> logged[i].amountParsed <= bestError.value.amountParsed
      ensures r.Err? ==> reported == old(reported)
    {
      var root := ParseRoot(0);
      if root.Ok? {
        r := Ok(Some(root.value.0));
      } else if root.error.ParseCrash? {
        r := Err(root.error.reason);
      } else {
        LogError(root.error.err);
        ghost var k := BestOfIsLastFurthest(logged);
        reported := reported + [bestError.value];
        r := Ok(None);
      }
    }

    /** `parse_root`: `main` functions and declarations, in any order, until neither
        parses; then the token list must be used up. */
    method ParseRoot(index: nat) returns (r: Result<(Node, nat), ParseFailure>)
      requires Valid() && index <= |tokens|
      modifies this
      ensures Valid() && reported == old(reported)
      ensures r.Ok? ==> && r.value.1 == |tokens| && r.value.0.RootNode?
                        && forall n <- r.value.0.nodes :: n.MainNode? || n.DeclarationNode?
      ensures r.Err? && r.error.Syntax? ==> && r.error.err.description == UnexpectedToken
                                            && r.error.err.messageType == At
                                            && index <= r.error.err.amountParsed < |tokens|
    {
      var i := index;
      var nodes: seq<Node> := [];
      var failure: Option<ParseFailure> := None;
      while true
        invariant index <= i <= |tokens|
        invariant Valid() && reported == old(reported)
        invariant forall n <- nodes :: n.MainNode? || n.DeclarationNode?
        invariant failure.None?
        decreases |tokens| - i
      {
        var m := ParseMain(i);
        if m.Ok? {
          nodes := nodes + [m.value.0];
          i := m.value.1;
          continue;
        }
        if m.error.ParseCrash? {
          failure := Some(m.error);
          break;
        }
        LogError(m.error.err);
        var d := ParseDeclaration(i);
        if d.Ok? {
          nodes := nodes + [d.value.0];
          i := d.value.1;
          continue;
        }
        if d.error.ParseCrash? {
          failure := Some(d.error);
          break;
        }
        LogError(d.error.err);
        break;
      }
      if failure.Some? {
        r := Err(failure.value);
      } else if i == |tokens| {
        r := Ok((RootNode(nodes), i));
      } else {
        r := Err(Syntax(ParserError(UnexpectedToken, i, At)));
      }
    }

    /** `parse_main`: `int main ( )` and a compound statement. */
    method ParseMain(index: nat) returns (r: Result<(Node, nat), ParseFailure>)
      requires Valid() && index <= |tokens|
      modifies this
      ensures Valid() && reported == old(reported)
      ensures Progress(tokens, index, r)
      ensures !NextTokenIs(tokens, index, IntKw) ==> r == Err(Syntax(ParserError(ExpectedMain, index, At)))
      ensures r.Ok? ==> && index + 4 < r.value.1
                        && tokens[index].kind == IntKw && tokens[index + 1].kind == MainKw
                        && tokens[index + 2].kind == OpenParen && tokens[index + 3].kind == CloseParen
                        && r.value.0.MainNode? && r.value.0.body.CompoundNode?
    {
      var a := MatchToken(tokens, index, IntKw, ExpectedMain, At);
      if a.Err? {
        r := Err(Syntax(a.error));
      } else {
        var b := MatchToken(tokens, a.value, MainKw, ExpectedMain, At);
        if b.Err? {
          r := Err(Syntax(b.error));
        } else {
          var c := MatchToken(tokens, b.value, OpenParen, ExpectedMain, At);
          if c.Err? {
            r := Err(Syntax(c.error));
          } else {
            var d := MatchToken(tokens, c.value, CloseParen, ExpectedMain, At);
            if d.Err? {
              r := Err(Syntax(d.error));
            } else {
              var body := ParseCompound(d.value);
              if body.Err? {
                r := Err(body.error);
              } else {
                r := Ok((MainNode(body.value.0), body.value.1));
              }
            }
          }
        }
      }
    }

    /** `parse_statement`: a compound statement, a return, an if statement, and last an
        expression statement, logging the syntax error of each attempt that fails before the
        next; the last attempt's error is the statement's. */
    method ParseStatement(index: nat) returns (r: Result<(Node, nat), ParseFailure>)
      requires Valid() && index <= |tokens|
      modifies this
      ensures Valid() && reported == old(reported)
      ensures Progress(tokens, index, r)
      ensures r.Ok? ==> StartsAs(tokens, index, r.value.0)
      decreases |tokens| - index, 2
    {
      r := ParseCompound(index);
      if r.Err? && r.error.Syntax? {
        LogError(r.error.err);
        r := ParseReturn(index);
        if r.Err? && r.error.Syntax? {
          LogError(r.error.err);
          r := ParseIf(index);
          if r.Err? && r.error.Syntax? {
            LogError(r.error.err);
            r := ParseExprStatement(index);
          }
        }
      }
    }

    /** `parse_compound_statement`: a brace, statements and declarations until neither
        parses, and the closing brace. */
    method ParseCompound(index: nat) returns (r: Result<(Node, nat), ParseFailure>)
      requires Valid() && index <= |tokens|
      modifies this
      ensures Valid() && reported == old(reported)
      ensures Progress(tokens, index, r)
      ensures !NextTokenIs(tokens, index, OpenBrack) ==> r == Err(Syntax(ParserError(ExpectedOpenBrace, index, Got)))
      ensures r.Ok? ==> && NextTokenIs(tokens, index, OpenBrack) && r.value.0.CompoundNode?
                        && tokens[r.value.1 - 1].kind == CloseBrack
                        && forall n <- r.value.0.items :: IsStatement(n) || n.DeclarationNode?
      decreases |tokens| - index, 1
    {
      var m := MatchToken(tokens, index, OpenBrack, ExpectedOpenBrace, Got);
      if m.Err? {
        r := Err(Syntax(m.error));
      } else {
        var i := m.value;
        var nodes: seq<Node> := [];
        var failure: Option<ParseFailure> := None;
        while true
          invariant index < i <= |tokens|
          invariant Valid() && reported == old(reported)
          invariant forall n <- nodes :: IsStatement(n) || n.DeclarationNode?
          invariant failure.None?
          decreases |tokens| - i
        {
          var item := ParseBlockItem(i);
          if item.Ok? {
            nodes := nodes + [item.value.0];
            i := item.value.1;
          } else {
            if item.error.ParseCrash? {
              failure := Some(item.error);
            }
            break;
          }
        }
        if failure.Some? {
          r := Err(failure.value);
        } else {
          var close := MatchToken(tokens, i, CloseBrack, ExpectedCloseBrace, Got);
          if close.Err? {
            r := Err(Syntax(close.error));
          } else {
            r := Ok((CompoundNode(nodes), close.value));
          }
        }
      }
    }

    /** One turn of the loop of `parse_compound_statement`: a statement or, failing that, a
        declaration, logging the syntax error of each attempt that fails. */
    method ParseBlockItem(index: nat) returns (r: Result<(Node, nat), ParseFailure>)
      requires Valid() && index <= |tokens|
      modifies this
      ensures Valid() && reported == old(reported)
      ensures Progress(tokens, index, r)
      ensures r.Ok? ==> IsStatement(r.value.0) || r.value.0.DeclarationNode?
      decreases |tokens| - index, 3
    {
      r := ParseStatement(index);
      if r.Err? && r.error.Syntax? {
        LogError(r.error.err);
        r := ParseDeclaration(index);
        if r.Err? && r.error.Syntax? {
          LogError(r.error.err);
        }
      }
    }

    /** `parse_if_statement`: `if ( expression )`, a statement, and an `else` with its
        statement when the next token is `else`; so an `else` always belongs to the
        innermost `if` before it. */
    method ParseIf(index: nat) returns (r: Result<(Node, nat), ParseFailure>)
      requires Valid() && index <= |tokens|
      modifies this
      ensures Valid() && reported == old(reported)
      ensures Progress(tokens, index, r)
      ensures !NextTokenIs(tokens, index, IfKw) ==> r == Err(Syntax(ParserError(ExpectedIf, index, Got)))
      ensures r.Ok? ==> && NextTokenIs(tokens, index, IfKw) && NextTokenIs(tokens, index + 1, OpenParen)
                        && r.value.0.IfStatementNode?
                        && var c := ParseExpression(tokens, index + 2);
                        && c.Ok? && r.value.0.cond == c.value.0 && NextTokenIs(tokens, c.value.1, CloseParen)
      ensures r.Ok? ==> && r.value.0.IfStatementNode?
                        && IsStatement(r.value.0.stmt)
                        && (r.value.0.elseStmt.Some? ==> IsStatement(r.value.0.elseStmt.value))
                        && (r.value.0.elseStmt.None? ==> !NextTokenIs(tokens, r.value.1, ElseKw))
      decreases |tokens| - index, 1
    {
      var m := MatchToken(tokens, index, IfKw, ExpectedIf, Got);
      if m.Err? {
        r := Err(Syntax(m.error));
      } else {
        var open := MatchToken(tokens, m.value, OpenParen, ExpectedOpenParen, After);
        if open.Err? {
          r := Err(Syntax(open.error));
        } else {
          assert open.value == index + 2;
          ParseExpressionBounds(tokens, open.value);
          var c := ParseExpressionAt(open.value);
          ghost var expected := ParseExpression(tokens, index + 2);
          assert c == expected;
          if c.Err? {
            r := Err(c.error);
          } else {
            var close := MatchToken(tokens, c.value.1, CloseParen, ExpectedCloseParen, After);
            if close.Err? {
              r := Err(Syntax(close.error));
            } else {
              r := ParseIfBranches(close.value, c.value.0);
            }
          }
        }
      }
    }

    /** The rest of `parse_if_statement` from `index`, after the condition `cond` and its
        closing parenthesis: the statement, and the `else` branch if `else` comes next. */
    method ParseIfBranches(index: nat, cond: Expr) returns (r: Result<(Node, nat), ParseFailure>)
      requires Valid() && index <= |tokens|
      modifies this
      ensures Valid() && reported == old(reported)
      ensures Progress(tokens, index, r)
      ensures r.Ok? ==> && r.value.0.IfStatementNode? && r.value.0.cond == cond
                        && IsStatement(r.value.0.stmt)
                        && (r.value.0.elseStmt.Some? ==> IsStatement(r.value.0.elseStmt.value))
                        && (r.value.0.elseStmt.None? ==> !NextTokenIs(tokens, r.value.1, ElseKw))
      decreases |tokens| - index + 1, 0
    {
      var st := ParseStatement(index);
      if st.Err? {
        r := Err(st.error);
      } else if !NextTokenIs(tokens, st.value.1, ElseKw) {
        r := Ok((IfStatementNode(cond, st.value.0, None), st.value.1));
      } else {
        var afterElse := MatchToken(tokens, st.value.1, ElseKw, ExpectedElse, Got).value;
        var el := ParseStatement(afterElse);
        if el.Err? {
          r := Err(el.error);
        } else {
          r := Ok((IfStatementNode(cond, st.value.0, Some(el.value.0)), el.value.1));
        }
      }
    }
  }
}
