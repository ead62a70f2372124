/** The declarator examples of the parser's own tests, worked through the model for any
    token list of the kinds the lexer makes of them. */
module DeclaratorExamples {
  import opened Wrappers
  import opened Strings
  import opened Tokens
  import opened Errors
  import opened Ast
  import opened ParserScan

  /** `int *var[3];` */
  predicate ArrayOfPointersTokens(toks: seq<Token>) {
    && |toks| == 7
    && toks[0].kind == IntKw && toks[1].kind == Star && toks[2].kind == Identifier
    && toks[3].kind == OpenSqBrack && toks[4].kind == Number && toks[5].kind == CloseSqBrack
    && toks[6].kind == Semicolon && toks[4].content == "3"
  }

  /** `int (*var)[3];` */
  predicate PointerToArrayTokens(toks: seq<Token>) {
    && |toks| == 9
    && toks[0].kind == IntKw && toks[1].kind == OpenParen && toks[2].kind == Star
    && toks[3].kind == Identifier && toks[4].kind == CloseParen && toks[5].kind == OpenSqBrack
    && toks[6].kind == Number && toks[7].kind == CloseSqBrack && toks[8].kind == Semicolon
    && toks[6].content == "3"
  }

  /** `int (var;` */
  predicate UnclosedParenTokens(toks: seq<Token>) {
    && |toks| == 4
    && toks[0].kind == IntKw && toks[1].kind == OpenParen && toks[2].kind == Identifier
    && toks[3].kind == Semicolon
  }

  /** `int var[];` */
  predicate EmptyArrayTokens(toks: seq<Token>) {
    && |toks| == 5
    && toks[0].kind == IntKw && toks[1].kind == Identifier && toks[2].kind == OpenSqBrack
    && toks[3].kind == CloseSqBrack && toks[4].kind == Semicolon
  }

  /** The declarator of `int *var[3];` ends before the semicolon. */
  lemma ArrayOfPointersEnd(toks: seq<Token>)
    requires ArrayOfPointersTokens(toks)
    ensures FindDeclEnd(toks, 1) == Ok(6)
  {
    assert ScanForward(toks, 3, 4, 1, SquareBrackets, MismatchedBrackets) == Ok(5);
    assert FindDeclEnd(toks, 3) == FindDeclEnd(toks, 6);
  }

  /** `int *var[3];` declares an array of three pointers: the star applies last. */
  lemma ArrayOfPointersTree(toks: seq<Token>)
    requires ArrayOfPointersTokens(toks)
    ensures ParseDeclarator(toks, 1, 6) == Ok(PointerDecl(ArrayDecl(3, IdentifierDecl(Some(toks[2])))))
  {
    var name := IdentifierDecl(Some(toks[2]));
    DeclaratorNameRule(toks, 2);
    assert ParseNat("3") == 3;
    assert ArraySuffix(toks, 2, 6);
    DeclaratorArrayRule(toks, 2, 6, name);
    DeclaratorPointerRule(toks, 1, 6, ArrayDecl(3, name));
  }

  /** The parenthesis of `int (*var)[3];` closes at the fifth token. */
  lemma ParensAtOneCloseAtFour(toks: seq<Token>)
    requires PointerToArrayTokens(toks)
    ensures PairForward(toks, 1, Parens, MismatchedParens) == Ok(4)
  {
    assert ScanForward(toks, 1, 4, 1, Parens, MismatchedParens) == Ok(4);
    assert ScanForward(toks, 1, 3, 1, Parens, MismatchedParens) == Ok(4);
    assert ScanForward(toks, 1, 2, 1, Parens, MismatchedParens) == Ok(4);
  }

  /** The declarator of `int (*var)[3];` ends before the semicolon. */
  lemma PointerToArrayEnd(toks: seq<Token>)
    requires PointerToArrayTokens(toks)
    ensures FindDeclEnd(toks, 1) == Ok(8)
  {
    ParensAtOneCloseAtFour(toks);
    assert PartEnd(toks, 1) == Ok(5);
    assert FindDeclEnd(toks, 1) == FindDeclEnd(toks, 5);
    assert ScanForward(toks, 5, 6, 1, SquareBrackets, MismatchedBrackets) == Ok(7);
    assert PartEnd(toks, 5) == Ok(8);
    assert FindDeclEnd(toks, 5) == FindDeclEnd(toks, 8);
  }

  /** `int (*var)[3];` declares a pointer to an array: the parentheses bind the star
      first. */
  lemma PointerToArrayTree(toks: seq<Token>)
    requires PointerToArrayTokens(toks)
    ensures ParseDeclarator(toks, 1, 8) == Ok(ArrayDecl(3, PointerDecl(IdentifierDecl(Some(toks[3])))))
  {
    var name := IdentifierDecl(Some(toks[3]));
    DeclaratorNameRule(toks, 3);
    DeclaratorPointerRule(toks, 2, 4, name);
    ParensAtOneCloseAtFour(toks);
    DeclaratorParenRule(toks, 1, 5);
    assert ParseNat("3") == 3;
    DeclaratorArrayRule(toks, 1, 8, PointerDecl(name));
  }

  /** `int (var;` is a mismatch reported at the parenthesis. */
  lemma UnclosedParenDeclarator(toks: seq<Token>)
    requires UnclosedParenTokens(toks)
    ensures FindDeclEnd(toks, 1) == Err(ParserError(MismatchedParens, 1, At))
  {
    assert ScanForward(toks, 1, 2, 1, Parens, MismatchedParens).Err?;
  }

  /** `int var[];` has a well-bracketed declarator ... */
  lemma EmptyArrayEnd(toks: seq<Token>)
    requires EmptyArrayTokens(toks)
    ensures FindDeclEnd(toks, 1) == Ok(4)
  {
    assert ScanForward(toks, 2, 3, 1, SquareBrackets, MismatchedBrackets) == Ok(3);
    assert FindDeclEnd(toks, 2) == FindDeclEnd(toks, 4);
  }

  /** ... but an empty array suffix is faulty syntax, reported at the identifier. */
  lemma EmptyArrayTree(toks: seq<Token>)
    requires EmptyArrayTokens(toks)
    ensures ParseDeclarator(toks, 1, 4) == Err(Syntax(ParserError(FaultyDeclaration, 1, At)))
  {
    DeclaratorFaultyRule(toks, 1, 4);
  }
}
