// The init-declarators of a declaration: one turn of the declarator list as a function,
// and what the whole comma-separated list parses to.
module DeclaratorLists {
  import opened Wrappers
  import opened Tokens
  import opened Errors
  import opened Ast
  import opened ParserScan
  import opened ExprParser

  const ExpectedSemicolon := "expected semicolon"

  /** The declarator in `tokens[index..end]`, with the declaration's specifiers, then the
      initializer when an `=` follows `end`, and the index after them. */
  function DeclaratorAt(tokens: seq<Token>, index: nat, end: nat, specs: seq<Token>)
    : (r: Result<(DeclRoot, Option<Expr>, nat), ParseFailure>)
    requires index <= end <= |tokens|
    ensures r.Ok? ==> && ParseDeclarator(tokens, index, end).Ok?
                      && r.value.0 == DeclRoot(specs, ParseDeclarator(tokens, index, end).value)
                      && (r.value.1.Some? <==> NextTokenIs(tokens, end, Equals))
                      && (r.value.1.None? ==> r.value.2 == end)
                      && (r.value.1.Some? ==> ParseExpression(tokens, end + 1) == Ok((r.value.1.value, r.value.2)))
                      && end <= r.value.2 <= |tokens|
    ensures ParseDeclarator(tokens, index, end).Err? ==> r == Err(ParseDeclarator(tokens, index, end).error)
    ensures r.Err? && r.error.Syntax? ==> index <= r.error.err.amountParsed
  {
    var d := ParseDeclarator(tokens, index, end);
    if d.Err? then Err(d.error)
    else if !NextTokenIs(tokens, end, Equals) then Ok((DeclRoot(specs, d.value), None, end))
    else
      var e := ParseExpression(tokens, end + 1);
      ParseExpressionBounds(tokens, end + 1);
      if e.Err? then Err(e.error) else Ok((DeclRoot(specs, d.value), Some(e.value.0), e.value.1))
  }

  /** The result of `DeclaratorAt` in each of its cases. */
  lemma DeclaratorAtCases(tokens: seq<Token>, index: nat, end: nat, specs: seq<Token>)
    requires index <= end <= |tokens|
    ensures var d := ParseDeclarator(tokens, index, end);
            var e := ParseExpression(tokens, end + 1);
            var r := DeclaratorAt(tokens, index, end, specs);
            && (d.Ok? && !NextTokenIs(tokens, end, Equals) ==> r == Ok((DeclRoot(specs, d.value), None, end)))
            && (d.Ok? && NextTokenIs(tokens, end, Equals) && e.Err? ==> r == Err(e.error))
            && (d.Ok? && NextTokenIs(tokens, end, Equals) && e.Ok? ==> r == Ok((DeclRoot(specs, d.value), Some(e.value.0), e.value.1)))
  {
  }

  /** One turn of the loop of `parse_declaration` on the token list: the declarator from
      `index` up to the end `find_decl_end` finds, and its initializer. */
  function InitDeclarator(tokens: seq<Token>, index: nat, specs: seq<Token>)
    : (r: Result<(DeclRoot, Option<Expr>, nat), ParseFailure>)
    requires index <= |tokens|
    ensures FindDeclEnd(tokens, index).Err? ==> r == Err(Syntax(FindDeclEnd(tokens, index).error))
    ensures r.Ok? ==> index <= r.value.2 <= |tokens| && r.value.0.specs == specs
    ensures r.Err? && r.error.Syntax? ==> index <= r.error.err.amountParsed
  {
    var end := FindDeclEnd(tokens, index);
    if end.Err? then Err(Syntax(end.error)) else DeclaratorAt(tokens, index, end.value, specs)
  }

  /** A declarator parsed by one turn is `parse_declarator` over exactly the range
      `find_decl_end` gives, and it has an initializer exactly when an `=` follows that
      range. */
  lemma InitDeclaratorParts(tokens: seq<Token>, index: nat, specs: seq<Token>)
    requires index <= |tokens|
    ensures var r := InitDeclarator(tokens, index, specs);
            r.Ok? ==> && FindDeclEnd(tokens, index).Ok?
                      && var end := FindDeclEnd(tokens, index).value;
                      && ParseDeclarator(tokens, index, end).Ok?
                      && r.value.0 == DeclRoot(specs, ParseDeclarator(tokens, index, end).value)
                      && (r.value.1.Some? <==> NextTokenIs(tokens, end, Equals))
                      && (r.value.1.None? ==> r.value.2 == end)
                      && (r.value.1.Some? ==> ParseExpression(tokens, end + 1) == Ok((r.value.1.value, r.value.2)))
    ensures FindDeclEnd(tokens, index).Ok? && ParseDeclarator(tokens, index, FindDeclEnd(tokens, index).value).Err? ==>
              InitDeclarator(tokens, index, specs) == Err(ParseDeclarator(tokens, index, FindDeclEnd(tokens, index).value).error)
  {
  }

  /** One init-declarator as a function of where it starts (never applied past the end of
      the tokens). */
  function Turn(tokens: seq<Token>, specs: seq<Token>): nat -> Result<(DeclRoot, Option<Expr>, nat), ParseFailure>
  {
    (s: nat) => if s <= |tokens| then InitDeclarator(tokens, s, specs) else Err(ParseCrash("past the end"))
  }

  /** `Turn` from a start inside the token list is `InitDeclarator`. */
  lemma TurnIsInitDeclarator(tokens: seq<Token>, specs: seq<Token>, s: nat)
    requires s <= |tokens|
    ensures Turn(tokens, specs)(s) == InitDeclarator(tokens, s, specs)
    ensures Turn(tokens, specs)(s).Ok? ==> Turn(tokens, specs)(s).value.0.specs == specs
  {
  }

  /** What every turn does, for any start inside the token list: a success ends no earlier
      than it starts and inside the token list, with the specifiers `specs`; a syntax error
      is reported no earlier than the start. */
  ghost predicate TurnLaws(tokens: seq<Token>, specs: seq<Token>, turn: nat -> Result<(DeclRoot, Option<Expr>, nat), ParseFailure>)
  {
    forall s: nat {:trigger turn(s)} :: s <= |tokens| ==>
      && (turn(s).Ok? ==> s <= turn(s).value.2 <= |tokens| && turn(s).value.0.specs == specs)
      && (turn(s).Err? && turn(s).error.Syntax? ==> s <= turn(s).error.err.amountParsed)
  }

  lemma TurnLawsHold(tokens: seq<Token>, specs: seq<Token>)
    ensures TurnLaws(tokens, specs, Turn(tokens, specs))
  {
    forall s: nat | s <= |tokens| {
      TurnIsInitDeclarator(tokens, specs, s);
    }
  }

  /** `turn` gives the init-declarator from every start inside the token list. The link
      is made only where an `InitDeclarator` is already at hand. */
  ghost predicate TurnIs(tokens: seq<Token>, specs: seq<Token>, turn: nat -> Result<(DeclRoot, Option<Expr>, nat), ParseFailure>)
  {
    forall s: nat {:trigger InitDeclarator(tokens, s, specs)} :: s <= |tokens| ==> turn(s) == InitDeclarator(tokens, s, specs)
  }

  /** The link `TurnIs` makes, at one start. */
  lemma TurnAt(tokens: seq<Token>, specs: seq<Token>, turn: nat -> Result<(DeclRoot, Option<Expr>, nat), ParseFailure>, s: nat)
    requires s <= |tokens| && TurnIs(tokens, specs, turn)
    ensures turn(s) == InitDeclarator(tokens, s, specs)
  {
  }

  lemma TurnIsHolds(tokens: seq<Token>, specs: seq<Token>)
    ensures TurnIs(tokens, specs, Turn(tokens, specs)) && TurnLaws(tokens, specs, Turn(tokens, specs))
  {
    TurnLawsHold(tokens, specs);
  }

  /** The rest of the declarator list from `i`, after the turns that gave `decls` and
      `inits`: the next turn, then the rest after a comma, or the declaration when a
      semicolon follows, or the missing semicolon. */
  ghost function ListRest(tokens: seq<Token>, specs: seq<Token>, turn: nat -> Result<(DeclRoot, Option<Expr>, nat), ParseFailure>,
                          i: nat, decls: seq<DeclRoot>, inits: seq<Option<Expr>>): Result<(Node, nat), ParseFailure>
    requires i <= |tokens| && TurnLaws(tokens, specs, turn)
    decreases |tokens| - i
  {
    var one := turn(i);
    if one.Err? then Err(one.error)
    else
      var next: nat := one.value.2;
      var after: nat := next + 1;
      if NextTokenIs(tokens, next, Comma) then ListRest(tokens, specs, turn, after, decls + [one.value.0], inits + [one.value.1])
      else if NextTokenIs(tokens, next, Semicolon) then Ok((DeclarationNode(decls + [one.value.0], inits + [one.value.1]), after))
      else Err(Syntax(ParserError(ExpectedSemicolon, next, After)))
  }

  /** The declarator list of a declaration from `i`, after the specifiers `specs`: the
      init-declarators separated by commas and the semicolon after the last. */
  ghost function DeclaratorListOf(tokens: seq<Token>, specs: seq<Token>, i: nat): Result<(Node, nat), ParseFailure>
    requires i <= |tokens|
  {
    TurnLawsHold(tokens, specs);
    ListRest(tokens, specs, Turn(tokens, specs), i, [], [])
  }

  /** `decls` and `inits` are what `turn` gives from `starts` to `ends`, each turn starting
      just after the comma that follows the one before. The rest of this module is stated for
      any `turn`; with `Turn(tokens, specs)` it is about the init-declarators. */
  ghost predicate Chain(tokens: seq<Token>, turn: nat -> Result<(DeclRoot, Option<Expr>, nat), ParseFailure>,
                        starts: seq<nat>, ends: seq<nat>, decls: seq<DeclRoot>, inits: seq<Option<Expr>>)
  {
    && |starts| == |ends| == |decls| == |inits|
    && (forall k {:trigger starts[k]} :: 0 <= k < |starts| ==>
          starts[k] <= |tokens| && turn(starts[k]) == Ok((decls[k], inits[k], ends[k])))
    && (forall k {:trigger starts[k]} :: 0 < k < |starts| ==>
          starts[k] == ends[k - 1] + 1 && NextTokenIs(tokens, ends[k - 1], Comma))
  }

  /** A chain grows by the turn that starts just after the comma that follows its last. */
  lemma ChainSnoc(tokens: seq<Token>, turn: nat -> Result<(DeclRoot, Option<Expr>, nat), ParseFailure>,
                  starts: seq<nat>, ends: seq<nat>, decls: seq<DeclRoot>, inits: seq<Option<Expr>>,
                  i: nat, decl: DeclRoot, init: Option<Expr>, next: nat)
    requires Chain(tokens, turn, starts, ends, decls, inits)
    requires starts != [] ==> i == ends[|ends| - 1] + 1 && NextTokenIs(tokens, i - 1, Comma)
    requires i <= |tokens| && turn(i) == Ok((decl, init, next))
    ensures Chain(tokens, turn, starts + [i], ends + [next], decls + [decl], inits + [init])
  {
    var starts', ends' := starts + [i], ends + [next];
    forall k | 0 < k < |starts'|
      ensures starts'[k] == ends'[k - 1] + 1 && NextTokenIs(tokens, ends'[k - 1], Comma)
    {
      if k < |starts| {
        assert starts'[k] == starts[k] && ends'[k - 1] == ends[k - 1];
      }
    }
    forall k | 0 <= k < |starts'|
      ensures starts'[k] <= |tokens| && turn(starts'[k]) == Ok(((decls + [decl])[k], (inits + [init])[k], ends'[k]))
    {
      if k < |starts| {
        assert starts'[k] == starts[k];
      }
    }
  }

  /** The declarator list after the turns so far, from `first`, all with the specifiers
      `specs`: each of those turns was followed by a comma, and the next one starts at `i`. */
  ghost predicate ListSoFar(tokens: seq<Token>, turn: nat -> Result<(DeclRoot, Option<Expr>, nat), ParseFailure>,
                            specs: seq<Token>, first: nat, i: nat, starts: seq<nat>,
                            ends: seq<nat>, decls: seq<DeclRoot>, inits: seq<Option<Expr>>)
  {
    && Chain(tokens, turn, starts, ends, decls, inits)
    && (forall d <- decls :: d.specs == specs)
    && (starts == [] ==> i == first)
    && (starts != [] ==> starts[0] == first && i == ends[|ends| - 1] + 1 && NextTokenIs(tokens, i - 1, Comma))
  }

  /** One more turn of the declarator list, from where the last comma left it. */
  lemma ListSoFarExtend(tokens: seq<Token>, turn: nat -> Result<(DeclRoot, Option<Expr>, nat), ParseFailure>,
                        specs: seq<Token>, first: nat, i: nat, starts: seq<nat>,
                        ends: seq<nat>, decls: seq<DeclRoot>, inits: seq<Option<Expr>>,
                        decl: DeclRoot, init: Option<Expr>, next: nat)
    requires ListSoFar(tokens, turn, specs, first, i, starts, ends, decls, inits)
    requires i <= |tokens| && turn(i) == Ok((decl, init, next)) && decl.specs == specs
    ensures Chain(tokens, turn, starts + [i], ends + [next], decls + [decl], inits + [init])
    ensures forall d <- decls + [decl] :: d.specs == specs
    ensures (starts + [i])[0] == first
    ensures NextTokenIs(tokens, next, Comma) ==>
              ListSoFar(tokens, turn, specs, first, next + 1, starts + [i], ends + [next], decls + [decl], inits + [init])
  {
    ChainSnoc(tokens, turn, starts, ends, decls, inits, i, decl, init, next);
  }

  /** What a declarator list parses to from `i`, after the specifiers `specs`: on success
      the comma-separated turns that start at `starts` and end at `ends`, all with `specs`,
      and the semicolon after the last; on failure the error of the turn at the last start,
      or the missing semicolon after it. */
  ghost predicate ListResult(tokens: seq<Token>, turn: nat -> Result<(DeclRoot, Option<Expr>, nat), ParseFailure>,
                             specs: seq<Token>, i: nat, r: Result<(Node, nat), ParseFailure>,
                             starts: seq<nat>, ends: seq<nat>)
  {
    && (r.Ok? ==> && r.value.0.DeclarationNode?
                  && 1 <= r.value.1 <= |tokens| && tokens[r.value.1 - 1].kind == Semicolon
                  && (forall d <- r.value.0.decls :: d.specs == specs)
                  && Chain(tokens, turn, starts, ends, r.value.0.decls, r.value.0.inits)
                  && 1 <= |ends| && !NextTokenIs(tokens, ends[|ends| - 1], Comma)
                  && starts[0] == i && r.value.1 == ends[|ends| - 1] + 1)
    && (r.Err? ==> && 1 <= |starts| && starts[0] == i && starts[|starts| - 1] <= |tokens|
                   && var one := turn(starts[|starts| - 1]);
                      && (one.Err? ==> r.error == one.error)
                      && (one.Ok? ==> r.error == Syntax(ParserError(ExpectedSemicolon, one.value.2, After))))
  }

  /** What the declarator list of a declaration parses to from `i`, after the specifiers
      `specs`: `ListResult` with each turn an init-declarator. */
  ghost predicate DeclaratorListResult(tokens: seq<Token>, specs: seq<Token>, i: nat,
                                       r: Result<(Node, nat), ParseFailure>, starts: seq<nat>, ends: seq<nat>)
  {
    ListResult(tokens, Turn(tokens, specs), specs, i, r, starts, ends)
  }

  /** A declarator list that parses holds at least one declarator, one initializer slot
      each, all with `specs`, and ends just after a semicolon. */
  lemma ListResultShape(tokens: seq<Token>, turn: nat -> Result<(DeclRoot, Option<Expr>, nat), ParseFailure>,
                        specs: seq<Token>, i: nat, r: Result<(Node, nat), ParseFailure>, starts: seq<nat>, ends: seq<nat>)
    requires ListResult(tokens, turn, specs, i, r, starts, ends)
    ensures r.Ok? ==> && r.value.0.DeclarationNode?
                      && |r.value.0.decls| == |r.value.0.inits| && r.value.0.decls != []
                      && 1 <= r.value.1 <= |tokens| && tokens[r.value.1 - 1].kind == Semicolon
                      && forall d <- r.value.0.decls :: d.specs == specs
  {
    if r.Ok? {
      assert starts[0] <= |tokens| && turn(starts[0]) == Ok((r.value.0.decls[0], r.value.0.inits[0], ends[0]));
    }
  }

  /** The declarator list stops at a turn that fails: its error is the list's. */
  lemma ListEndsAtError(tokens: seq<Token>, turn: nat -> Result<(DeclRoot, Option<Expr>, nat), ParseFailure>,
                        specs: seq<Token>, first: nat, i: nat, starts: seq<nat>,
                        ends: seq<nat>, decls: seq<DeclRoot>, inits: seq<Option<Expr>>, e: ParseFailure)
    requires ListSoFar(tokens, turn, specs, first, i, starts, ends, decls, inits)
    requires i <= |tokens| && turn(i) == Err(e)
    ensures ListResult(tokens, turn, specs, first, Err(e), starts + [i], ends)
  {
    assert (starts + [i])[|starts|] == i;
  }

  /** The declarator list stops after a turn with no comma and no semicolon after it: the
      error is the missing semicolon. */
  lemma ListEndsWithoutSemicolon(tokens: seq<Token>, turn: nat -> Result<(DeclRoot, Option<Expr>, nat), ParseFailure>,
                                 specs: seq<Token>, first: nat, starts: seq<nat>,
                                 ends: seq<nat>, decls: seq<DeclRoot>, inits: seq<Option<Expr>>)
    requires Chain(tokens, turn, starts, ends, decls, inits)
    requires starts != [] && starts[0] == first
    ensures ListResult(tokens, turn, specs, first, Err(Syntax(ParserError(ExpectedSemicolon, ends[|ends| - 1], After))),
                       starts, ends)
  {
    var k := |starts| - 1;
    assert starts[k] <= |tokens| && turn(starts[k]) == Ok((decls[k], inits[k], ends[k]));
  }

  /** The declarator list ends with a semicolon after a turn with no comma after it: the
      declaration holds every turn of the list. */
  lemma ListEndsAtSemicolon(tokens: seq<Token>, turn: nat -> Result<(DeclRoot, Option<Expr>, nat), ParseFailure>,
                            specs: seq<Token>, first: nat, starts: seq<nat>,
                            ends: seq<nat>, decls: seq<DeclRoot>, inits: seq<Option<Expr>>)
    requires Chain(tokens, turn, starts, ends, decls, inits) && forall d <- decls :: d.specs == specs
    requires starts != [] && starts[0] == first
    requires !NextTokenIs(tokens, ends[|ends| - 1], Comma) && NextTokenIs(tokens, ends[|ends| - 1], Semicolon)
    ensures ListResult(tokens, turn, specs, first, Ok((DeclarationNode(decls, inits), ends[|ends| - 1] + 1)), starts, ends)
  {
  }

  /** The rest of a declarator list consumes at least one token past `i`, and reports a
      syntax error no earlier than `i`. */
  lemma {:induction false} ListRestProgress(tokens: seq<Token>, specs: seq<Token>,
                                            turn: nat -> Result<(DeclRoot, Option<Expr>, nat), ParseFailure>,
                                            i: nat, decls: seq<DeclRoot>, inits: seq<Option<Expr>>)
    requires i <= |tokens| && TurnLaws(tokens, specs, turn)
    ensures var r := ListRest(tokens, specs, turn, i, decls, inits);
            && (r.Ok? ==> i < r.value.1 <= |tokens|)
            && (r.Err? && r.error.Syntax? ==> i <= r.error.err.amountParsed)
    decreases |tokens| - i
  {
    var one := turn(i);
    if one.Ok? && NextTokenIs(tokens, one.value.2, Comma) {
      ListRestProgress(tokens, specs, turn, one.value.2 + 1, decls + [one.value.0], inits + [one.value.1]);
    }
  }

  /** The rest of a declarator list, after the chain so far, is what `ListResult` describes,
      for the chain extended by the turns the rest takes. */
  lemma {:induction false} ListRestResult(tokens: seq<Token>, specs: seq<Token>,
                                          turn: nat -> Result<(DeclRoot, Option<Expr>, nat), ParseFailure>,
                                          first: nat, i: nat, starts: seq<nat>, ends: seq<nat>,
                                          decls: seq<DeclRoot>, inits: seq<Option<Expr>>)
    returns (starts': seq<nat>, ends': seq<nat>)
    requires i <= |tokens| && TurnLaws(tokens, specs, turn)
    requires ListSoFar(tokens, turn, specs, first, i, starts, ends, decls, inits)
    ensures ListResult(tokens, turn, specs, first, ListRest(tokens, specs, turn, i, decls, inits), starts', ends')
    decreases |tokens| - i
  {
    var one := turn(i);
    ghost var r := ListRest(tokens, specs, turn, i, decls, inits);
    if one.Err? {
      assert r == Err(one.error);
      ListEndsAtError(tokens, turn, specs, first, i, starts, ends, decls, inits, one.error);
      starts', ends' := starts + [i], ends;
    } else {
      var (decl, init, next) := one.value;
      ListSoFarExtend(tokens, turn, specs, first, i, starts, ends, decls, inits, decl, init, next);
      starts', ends' := starts + [i], ends + [next];
      assert ends'[|ends'| - 1] == next;
      if NextTokenIs(tokens, next, Comma) {
        assert r == ListRest(tokens, specs, turn, next + 1, decls + [decl], inits + [init]);
        starts', ends' := ListRestResult(tokens, specs, turn, first, next + 1, starts', ends', decls + [decl], inits + [init]);
      } else if NextTokenIs(tokens, next, Semicolon) {
        assert r == Ok((DeclarationNode(decls + [decl], inits + [init]), next + 1));
        ListEndsAtSemicolon(tokens, turn, specs, first, starts', ends', decls + [decl], inits + [init]);
      } else {
        assert r == Err(Syntax(ParserError(ExpectedSemicolon, next, After)));
        ListEndsWithoutSemicolon(tokens, turn, specs, first, starts', ends', decls + [decl], inits + [init]);
      }
    }
  }

  /** `parse_declaration`'s declarator list from `i`: on success the comma-separated
      init-declarators that start at `starts` and end at `ends`, each one `InitDeclarator`
      there, all with `specs`, and the semicolon after the last; on failure the error of the
      init-declarator at the last start, or the missing semicolon after it. */
  lemma DeclaratorListParts(tokens: seq<Token>, specs: seq<Token>, i: nat) returns (starts: seq<nat>, ends: seq<nat>)
    requires i <= |tokens|
    ensures DeclaratorListResult(tokens, specs, i, DeclaratorListOf(tokens, specs, i), starts, ends)
  {
    TurnLawsHold(tokens, specs);
    starts, ends := ListRestResult(tokens, specs, Turn(tokens, specs), i, i, [], [], [], []);
  }

  /** A turn function that is the init-declarator at every start, given as nothing more
      than that: a caller gets the link only where an `InitDeclarator` is at hand. */
  lemma InitDeclaratorTurn(tokens: seq<Token>, specs: seq<Token>)
    returns (turn: nat -> Result<(DeclRoot, Option<Expr>, nat), ParseFailure>)
    ensures TurnIs(tokens, specs, turn) && TurnLaws(tokens, specs, turn)
  {
    TurnIsHolds(tokens, specs);
    turn := Turn(tokens, specs);
  }

  /** Two turn functions that are both the init-declarator agree at every start. */
  lemma TurnsAgree(tokens: seq<Token>, specs: seq<Token>,
                   t1: nat -> Result<(DeclRoot, Option<Expr>, nat), ParseFailure>,
                   t2: nat -> Result<(DeclRoot, Option<Expr>, nat), ParseFailure>)
    requires TurnIs(tokens, specs, t1) && TurnIs(tokens, specs, t2)
    ensures forall s: nat :: s <= |tokens| ==> t1(s) == t2(s)
  {
    forall s: nat | s <= |tokens| ensures t1(s) == t2(s) {
      TurnAt(tokens, specs, t1, s);
      TurnAt(tokens, specs, t2, s);
    }
  }

  /** Two turn functions that agree at every start give the same declarator list. */
  lemma {:induction false} ListRestAgree(tokens: seq<Token>, specs: seq<Token>,
                                          t1: nat -> Result<(DeclRoot, Option<Expr>, nat), ParseFailure>,
                                          t2: nat -> Result<(DeclRoot, Option<Expr>, nat), ParseFailure>,
                                          i: nat, decls: seq<DeclRoot>, inits: seq<Option<Expr>>)
    requires i <= |tokens| && TurnLaws(tokens, specs, t1) && TurnLaws(tokens, specs, t2)
    requires forall s: nat :: s <= |tokens| ==> t1(s) == t2(s)
    ensures ListRest(tokens, specs, t1, i, decls, inits) == ListRest(tokens, specs, t2, i, decls, inits)
    decreases |tokens| - i
  {
    var one := t1(i);
    if one.Ok? && NextTokenIs(tokens, one.value.2, Comma) {
      ListRestAgree(tokens, specs, t1, t2, one.value.2 + 1, decls + [one.value.0], inits + [one.value.1]);
    }
  }

  /** `r` is the declarator list from `i` after `specs`: what `ListRest` gives from `i` for
      every turn function that is the init-declarator at every start. */
  ghost predicate IsDeclaratorList(tokens: seq<Token>, specs: seq<Token>, i: nat, r: Result<(Node, nat), ParseFailure>)
    requires i <= |tokens|
  {
    forall turn | TurnIs(tokens, specs, turn) && TurnLaws(tokens, specs, turn) :: r == ListRest(tokens, specs, turn, i, [], [])
  }

  /** `IsDeclaratorList` holds of exactly one result, the declarator list `DeclaratorListOf`. */
  lemma DeclaratorListIs(tokens: seq<Token>, specs: seq<Token>, i: nat, r: Result<(Node, nat), ParseFailure>)
    requires i <= |tokens|
    ensures IsDeclaratorList(tokens, specs, i, r) <==> r == DeclaratorListOf(tokens, specs, i)
  {
    TurnIsHolds(tokens, specs);
    if r == DeclaratorListOf(tokens, specs, i) {
      forall turn | TurnIs(tokens, specs, turn) && TurnLaws(tokens, specs, turn)
        ensures r == ListRest(tokens, specs, turn, i, [], [])
      {
        TurnsAgree(tokens, specs, Turn(tokens, specs), turn);
        ListRestAgree(tokens, specs, Turn(tokens, specs), turn, i, [], []);
      }
    }
  }

  /** The list `ListRest` gives for one init-declarator turn function is the declarator list. */
  lemma ListRestIsDeclaratorList(tokens: seq<Token>, specs: seq<Token>,
                                 turn: nat -> Result<(DeclRoot, Option<Expr>, nat), ParseFailure>, i: nat)
    requires i <= |tokens| && TurnIs(tokens, specs, turn) && TurnLaws(tokens, specs, turn)
    ensures IsDeclaratorList(tokens, specs, i, ListRest(tokens, specs, turn, i, [], []))
  {
    forall t | TurnIs(tokens, specs, t) && TurnLaws(tokens, specs, t)
      ensures ListRest(tokens, specs, turn, i, [], []) == ListRest(tokens, specs, t, i, [], [])
    {
      TurnsAgree(tokens, specs, turn, t);
      ListRestAgree(tokens, specs, turn, t, i, [], []);
    }
  }

  /** A declarator list that parses, for any turn function that keeps `TurnLaws`, holds at
      least one declarator, one initializer slot each, all with `specs`, and ends just
      after a semicolon past `i`; a syntax error in it is reported no earlier than `i`. */
  lemma ListRestShape(tokens: seq<Token>, specs: seq<Token>,
                      turn: nat -> Result<(DeclRoot, Option<Expr>, nat), ParseFailure>, i: nat)
    requires i <= |tokens| && TurnLaws(tokens, specs, turn)
    ensures var r := ListRest(tokens, specs, turn, i, [], []);
            && (r.Ok? ==> && r.value.0.DeclarationNode?
                          && |r.value.0.decls| == |r.value.0.inits| && r.value.0.decls != []
                          && i < r.value.1 <= |tokens| && tokens[r.value.1 - 1].kind == Semicolon
                          && forall d <- r.value.0.decls :: d.specs == specs)
            && (r.Err? && r.error.Syntax? ==> i <= r.error.err.amountParsed)
  {
    var starts, ends := ListRestResult(tokens, specs, turn, i, i, [], [], [], []);
    ListRestProgress(tokens, specs, turn, i, [], []);
    ListResultShape(tokens, turn, specs, i, ListRest(tokens, specs, turn, i, [], []), starts, ends);
  }

  /** A declarator list that parses holds at least one declarator, one initializer slot
      each, all with `specs`, and ends just after a semicolon past `i`; a syntax error in it
      is reported no earlier than `i`. */
  lemma DeclaratorListShape(tokens: seq<Token>, specs: seq<Token>, i: nat)
    requires i <= |tokens|
    ensures var r := DeclaratorListOf(tokens, specs, i);
            && (r.Ok? ==> && r.value.0.DeclarationNode?
                          && |r.value.0.decls| == |r.value.0.inits| && r.value.0.decls != []
                          && i < r.value.1 <= |tokens| && tokens[r.value.1 - 1].kind == Semicolon
                          && forall d <- r.value.0.decls :: d.specs == specs)
            && (r.Err? && r.error.Syntax? ==> i <= r.error.err.amountParsed)
  {
    TurnLawsHold(tokens, specs);
    ListRestShape(tokens, specs, Turn(tokens, specs), i);
  }
}
