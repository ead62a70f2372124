/** The token-level helpers of the statement parser (myparser.py): looking at and matching
    the next token, finding the partner of a bracket by a running depth, finding where a
    declarator ends, and decomposing a declarator into its tree. */
module ParserScan {
  import opened Wrappers
  import opened Strings
  import opened Tokens
  import opened Errors
  import opened Ast
  import opened DeclTallies

  /** `next_token_is`: there is a token at `index` and it has the given kind. */
  predicate NextTokenIs(tokens: seq<Token>, index: nat, kind: TokenKind) {
    |tokens| > index && tokens[index].kind == kind
  }

  /** `match_token`: the index after the expected token, or the given error at `index`. */
  function MatchToken(tokens: seq<Token>, index: nat, kind: TokenKind, message: string, messageType: MessageType)
    : (r: Result<nat, ParserError>)
    ensures r.Ok? <==> NextTokenIs(tokens, index, kind)
    ensures r.Ok? ==> r.value == index + 1 && r.value <= |tokens|
    ensures r.Err? ==> r.error == ParserError(message, index, messageType)
  {
    if |tokens| > index && tokens[index].kind == kind then Ok(index + 1)
    else Err(ParserError(message, index, messageType))
  }

  /** Nothing follows the last token. */
  lemma NextTokenPastEnd(tokens: seq<Token>, index: nat, kind: TokenKind, message: string, t: MessageType)
    requires index >= |tokens|
    ensures !NextTokenIs(tokens, index, kind)
    ensures MatchToken(tokens, index, kind, message, t).Err?
  {
  }

  const MismatchedParens := "mismatched parentheses in declaration"
  const MismatchedBrackets := "mismatched square brackets in declaration"
  const FaultyDeclaration := "faulty declaration syntax"

  /** The two kinds of bracket pair the scans are run on. */
  datatype Bracket = Parens | SquareBrackets

  function OpenKind(b: Bracket): TokenKind {
    if b == Parens then OpenParen else OpenSqBrack
  }

  function CloseKind(b: Bracket): TokenKind {
    if b == Parens then CloseParen else CloseSqBrack
  }

  /** How one token moves the depth of a forward scan: an opener deepens, a closer
      shallows. */
  function ForwardStep(t: Token, b: Bracket): int {
    if t.kind == OpenKind(b) then 1 else if t.kind == CloseKind(b) then -1 else 0
  }

  /** The depth after scanning `tokens[lo..hi]` forwards. */
  function Depth(tokens: seq<Token>, lo: nat, hi: nat, b: Bracket): int
    requires lo <= hi <= |tokens|
    decreases hi - lo
  {
    if hi == lo then 0 else Depth(tokens, lo, hi - 1, b) + ForwardStep(tokens[hi - 1], b)
  }

  /** The rest of a forward scan at position `i` with the depth reached so far. */
  function ScanForward(tokens: seq<Token>, index: nat, i: nat, depth: int,
                       b: Bracket, mess: string): (r: Result<nat, ParserError>)
    ensures r.Ok? ==> i <= r.value < |tokens|
    ensures r.Ok? && depth > 0 ==> tokens[r.value].kind == CloseKind(b)
    ensures r.Err? ==> r.error == ParserError(mess, index, At)
    decreases |tokens| - i
  {
    if i >= |tokens| then Err(ParserError(mess, index, At))
    else
      var d := depth + ForwardStep(tokens[i], b);
      if d == 0 then Ok(i) else ScanForward(tokens, index, i + 1, d, b, mess)
  }

  /** `find_pair_forward`: the first position from `index` on at which the running depth is
      back at zero, or the mismatch error at `index`. */
  function PairForward(tokens: seq<Token>, index: nat, b: Bracket, mess: string)
    : (r: Result<nat, ParserError>)
    ensures r.Ok? ==> index <= r.value < |tokens|
    ensures r.Ok? && tokens[index].kind == OpenKind(b) ==> r.value > index && tokens[r.value].kind == CloseKind(b)
  {
    ScanForward(tokens, index, index, 0, b, mess)
  }

  lemma {:induction false} ScanForwardEndsAtZero(tokens: seq<Token>, index: nat, i: nat, depth: int,
                                                 b: Bracket, mess: string)
    requires index <= i <= |tokens|
    requires depth == Depth(tokens, index, i, b)
    ensures var r := ScanForward(tokens, index, i, depth, b, mess);
            r.Ok? ==> Depth(tokens, index, r.value + 1, b) == 0
    decreases |tokens| - i
  {
    if i < |tokens| {
      var d := depth + ForwardStep(tokens[i], b);
      if d != 0 {
        ScanForwardEndsAtZero(tokens, index, i + 1, d, b, mess);
      }
    }
  }

  lemma {:induction false} ScanForwardPassesNonZero(tokens: seq<Token>, index: nat, i: nat, depth: int,
                                                    b: Bracket, mess: string, k: nat)
    requires index <= i < k <= |tokens|
    requires depth == Depth(tokens, index, i, b)
    requires var r := ScanForward(tokens, index, i, depth, b, mess);
             r.Ok? ==> k <= r.value
    ensures Depth(tokens, index, k, b) != 0
    decreases k - i
  {
    var d := depth + ForwardStep(tokens[i], b);
    assert d == Depth(tokens, index, i + 1, b);
    if i + 1 < k {
      ScanForwardPassesNonZero(tokens, index, i + 1, d, b, mess, k);
    }
  }

  /** The pair found is the first place after `index` where the depth of the tokens scanned
      is back at zero. */
  lemma PairForwardFirstBalanced(tokens: seq<Token>, index: nat, b: Bracket, mess: string)
    requires PairForward(tokens, index, b, mess).Ok?
    ensures var pair := PairForward(tokens, index, b, mess).value;
            Depth(tokens, index, pair + 1, b) == 0 &&
            forall k :: index < k <= pair ==> Depth(tokens, index, k, b) != 0
  {
    var pair := PairForward(tokens, index, b, mess).value;
    ScanForwardEndsAtZero(tokens, index, index, 0, b, mess);
    forall k | index < k <= pair
      ensures Depth(tokens, index, k, b) != 0
    {
      ScanForwardPassesNonZero(tokens, index, index, 0, b, mess, k);
    }
  }

  /** A mismatch is reported at `index` exactly when the depth of the tokens scanned never
      returns to zero before they run out. */
  lemma PairForwardMismatch(tokens: seq<Token>, index: nat, b: Bracket, mess: string)
    requires index <= |tokens|
    requires PairForward(tokens, index, b, mess).Err?
    ensures PairForward(tokens, index, b, mess).error == ParserError(mess, index, At)
    ensures forall k :: index < k <= |tokens| ==> Depth(tokens, index, k, b) != 0
  {
    forall k | index < k <= |tokens|
      ensures Depth(tokens, index, k, b) != 0
    {
      ScanForwardPassesNonZero(tokens, index, index, 0, b, mess, k);
    }
  }

  /** How one token moves the depth of a backward scan: a closer deepens, an opener
      shallows. */
  function BackwardStep(t: Token, b: Bracket): int {
    if t.kind == CloseKind(b) then 1 else if t.kind == OpenKind(b) then -1 else 0
  }

  /** The depth after scanning `tokens[lo..hi]` backwards from `hi - 1` down to `lo`. */
  function BackDepth(tokens: seq<Token>, lo: nat, hi: nat, b: Bracket): int
    requires lo <= hi <= |tokens|
    decreases hi - lo
  {
    if hi == lo then 0 else BackwardStep(tokens[lo], b) + BackDepth(tokens, lo + 1, hi, b)
  }

  /** The rest of a backward scan at position `i` with the depth reached so far. */
  function ScanBackward(tokens: seq<Token>, index: nat, i: int, depth: int,
                        b: Bracket, mess: string): (r: Result<nat, ParserError>)
    requires i < |tokens|
    ensures r.Ok? ==> r.value <= i
    ensures r.Err? ==> r.error == ParserError(mess, index, At)
    decreases i + 1
  {
    if i < 0 then Err(ParserError(mess, index, At))
    else
      var d := depth + BackwardStep(tokens[i], b);
      if d == 0 then Ok(i as nat) else ScanBackward(tokens, index, i - 1, d, b, mess)
  }

  /** `find_pair_backward`: the first position from `index` down to 0 at which the running
      depth is back at zero, or the mismatch error at `index`. */
  function PairBackward(tokens: seq<Token>, index: nat, b: Bracket, mess: string)
    : (r: Result<nat, ParserError>)
    requires index < |tokens|
    ensures r.Ok? ==> r.value <= index
    ensures r.Ok? && tokens[index].kind == CloseKind(b) ==> r.value < index
  {
    ScanBackward(tokens, index, index, 0, b, mess)
  }

  /** The backward depth of the tokens from `k` up to and including `index`. */
  function DepthBack(tokens: seq<Token>, k: nat, index: nat, b: Bracket): int
    requires k <= index < |tokens|
  {
    BackDepth(tokens, k, index + 1, b)
  }

  lemma {:induction false} ScanBackwardFirstZero(tokens: seq<Token>, index: nat, i: int, depth: int,
                                                 b: Bracket, mess: string)
    requires index < |tokens| && -1 <= i <= index
    requires depth == BackDepth(tokens, i + 1, index + 1, b)
    requires forall k :: i < k <= index ==> DepthBack(tokens, k, index, b) != 0
    ensures var r := ScanBackward(tokens, index, i, depth, b, mess);
            (r.Ok? ==> DepthBack(tokens, r.value, index, b) == 0 &&
                       forall k :: r.value < k <= index ==> DepthBack(tokens, k, index, b) != 0) &&
            (r.Err? ==> forall k :: 0 <= k <= index ==> DepthBack(tokens, k, index, b) != 0)
    decreases i + 1
  {
    if i >= 0 {
      var d := depth + BackwardStep(tokens[i], b);
      assert d == DepthBack(tokens, i, index, b);
      if d != 0 {
        ScanBackwardFirstZero(tokens, index, i - 1, d, b, mess);
      }
    }
  }

  /** The backward pair is the nearest position at or before `index` where the depth of the
      tokens from there to `index` is zero. */
  lemma PairBackwardFirstBalanced(tokens: seq<Token>, index: nat, b: Bracket, mess: string)
    requires index < |tokens|
    ensures var r := PairBackward(tokens, index, b, mess);
            (r.Ok? ==> DepthBack(tokens, r.value, index, b) == 0 &&
                       forall k :: r.value < k <= index ==> DepthBack(tokens, k, index, b) != 0) &&
            (r.Err? ==> r.error == ParserError(mess, index, At) &&
                        forall k :: 0 <= k <= index ==> DepthBack(tokens, k, index, b) != 0)
  {
    ScanBackwardFirstZero(tokens, index, index, 0, b, mess);
  }

  /** A token that can continue a declarator: a star, an identifier, or an opening bracket. */
  predicate StartsDeclaratorPart(tokens: seq<Token>, index: nat) {
    || NextTokenIs(tokens, index, Star)
    || NextTokenIs(tokens, index, Identifier)
    || NextTokenIs(tokens, index, OpenParen)
    || NextTokenIs(tokens, index, OpenSqBrack)
  }

  /** Where the declarator part that starts at `i` ends: just after a star or an
      identifier, just after the closer paired with an opening bracket, or the mismatch
      error of an opening bracket that is never closed. */
  function PartEnd(tokens: seq<Token>, i: nat): (r: Result<nat, ParserError>)
    requires StartsDeclaratorPart(tokens, i)
    ensures r.Ok? ==> i < r.value <= |tokens|
    ensures r.Err? ==> r.error.description in {MismatchedParens, MismatchedBrackets} && r.error.amountParsed == i
  {
    if NextTokenIs(tokens, i, Star) || NextTokenIs(tokens, i, Identifier) then Ok(i + 1)
    else if NextTokenIs(tokens, i, OpenParen) then
      match PairForward(tokens, i, Parens, MismatchedParens)
      case Err(e) => Err(e)
      case Ok(close) => Ok(close + 1)
    else
      match PairForward(tokens, i, SquareBrackets, MismatchedBrackets)
      case Err(e) => Err(e)
      case Ok(close) => Ok(close + 1)
  }

  /** `tokens[i..j]` is a run of whole declarator parts: stars, identifiers and bracket
      groups closed by their pairs. */
  ghost predicate DeclRun(tokens: seq<Token>, i: nat, j: nat)
    decreases j - i
  {
    || i == j
    || (&& i < j && StartsDeclaratorPart(tokens, i)
        && PartEnd(tokens, i).Ok? && PartEnd(tokens, i).value <= j
        && DeclRun(tokens, PartEnd(tokens, i).value, j))
  }

  /** `find_decl_end`: the first index after `index` that is not part of a run of stars,
      identifiers and balanced bracket groups, or the mismatch error of an unbalanced
      group. */
  function FindDeclEnd(tokens: seq<Token>, index: nat): (r: Result<nat, ParserError>)
    ensures r.Ok? ==> index <= r.value && !StartsDeclaratorPart(tokens, r.value)
    ensures r.Ok? && index <= |tokens| ==> r.value <= |tokens|
    ensures r.Err? ==> r.error.description in {MismatchedParens, MismatchedBrackets} && r.error.amountParsed >= index
    decreases if index <= |tokens| then |tokens| - index else 0
  {
    if !StartsDeclaratorPart(tokens, index) then Ok(index)
    else
      match PartEnd(tokens, index)
      case Err(e) => Err(e)
      case Ok(next) => FindDeclEnd(tokens, next)
  }

  /** The end `find_decl_end` finds is the only index that ends a run of whole declarator
      parts from `index` without another part starting there. */
  lemma {:induction false} FindDeclEndIsRunEnd(tokens: seq<Token>, index: nat, j: nat)
    ensures FindDeclEnd(tokens, index) == Ok(j) <==> DeclRun(tokens, index, j) && !StartsDeclaratorPart(tokens, j)
    decreases j - index
  {
    if StartsDeclaratorPart(tokens, index) && PartEnd(tokens, index).Ok? {
      var next := PartEnd(tokens, index).value;
      if next <= j {
        FindDeclEndIsRunEnd(tokens, next, j);
      }
    }
  }

  /** An unclosed bracket met while skipping declarator parts is the error `find_decl_end`
      reports: the part at `k` cannot be closed, and every part before it is whole. */
  lemma {:induction false} FindDeclEndMismatch(tokens: seq<Token>, index: nat, k: nat)
    requires DeclRun(tokens, index, k) && StartsDeclaratorPart(tokens, k) && PartEnd(tokens, k).Err?
    ensures FindDeclEnd(tokens, index) == Err(PartEnd(tokens, k).error)
    decreases k - index
  {
    if index != k {
      FindDeclEndMismatch(tokens, PartEnd(tokens, index).value, k);
    }
  }

  const NotANumber := "invalid literal for int() with base 10"

  /** `parse_declarator` on `tokens[start..end]`. A successful decomposition accounts for
      every token of the range: each star became one pointer level, each `[` one array
      level, and the one identifier, if any, the leaf. A failure is reported at or after
      `start`. An array suffix is recognised only when the range holds at least its three
      tokens; the source also inspects tokens before `start` there. */
  function ParseDeclarator(tokens: seq<Token>, start: nat, end: nat): (r: Result<DeclNode, ParseFailure>)
    requires start <= end <= |tokens|
    ensures r.Ok? ==> forall c :: DeclCount(r.value, c) == Count(tokens, start, end, c)
    ensures r.Err? && r.error.Syntax? ==> start <= r.error.err.amountParsed
    decreases end - start
  {
    if start == end then Ok(IdentifierDecl(None))
    else if start + 1 == end && tokens[start].kind == Identifier then Ok(IdentifierDecl(Some(tokens[start])))
    else if tokens[start].kind == OpenParen && EnclosesRest(tokens, start, end) then
      var pair := PairForward(tokens, start, Parens, MismatchedParens);
      if pair.Err? then Err(Syntax(pair.error))
      else
        ParenCount(tokens, start, end);
        ParseDeclarator(tokens, start + 1, end - 1)
    else if tokens[start].kind == Star then
      match ParseDeclarator(tokens, start + 1, end)
      case Err(e) => Err(e)
      case Ok(d) => Ok(PointerDecl(d))
    else if ArraySuffix(tokens, start, end) then
      if !IsDigits(tokens[end - 2].content) then Err(ParseCrash(NotANumber))
      else
        ArraySuffixCount(tokens, start, end);
        match ParseDeclarator(tokens, start, end - 3)
        case Err(e) => Err(e)
        case Ok(d) => Ok(ArrayDecl(ParseNat(tokens[end - 2].content), d))
    else
      Err(Syntax(ParserError(FaultyDeclaration, start, At)))
  }

  /** A single identifier token is the declared name. */
  lemma DeclaratorNameRule(tokens: seq<Token>, start: nat)
    requires start < |tokens| && tokens[start].kind == Identifier
    ensures ParseDeclarator(tokens, start, start + 1) == Ok(IdentifierDecl(Some(tokens[start])))
  {
  }

  /** A range whose first token opens a parenthesis closed by its last token is the
      declarator inside them. */
  lemma DeclaratorParenRule(tokens: seq<Token>, start: nat, end: nat)
    requires start < end <= |tokens|
    requires tokens[start].kind == OpenParen && PairForward(tokens, start, Parens, MismatchedParens) == Ok(end - 1)
    ensures ParseDeclarator(tokens, start, end) == ParseDeclarator(tokens, start + 1, end - 1)
  {
  }

  /** A range that starts with a star, and is not a parenthesised group, is a pointer to the
      declarator after the star. */
  lemma DeclaratorPointerRule(tokens: seq<Token>, start: nat, end: nat, inner: DeclNode)
    requires start < end <= |tokens| && tokens[start].kind == Star
    requires ParseDeclarator(tokens, start + 1, end) == Ok(inner)
    ensures ParseDeclarator(tokens, start, end) == Ok(PointerDecl(inner))
  {
  }

  /** A range that starts with neither a star nor a parenthesis closed at its end, and ends
      in `[`, a number and `]`, is an array, of the number's length, of the declarator
      before the suffix. */
  lemma DeclaratorArrayRule(tokens: seq<Token>, start: nat, end: nat, inner: DeclNode)
    requires start <= end <= |tokens| && ArraySuffix(tokens, start, end)
    requires tokens[start].kind != Star
    requires tokens[start].kind == OpenParen ==> PairForward(tokens, start, Parens, MismatchedParens).Ok?
    requires tokens[start].kind == OpenParen ==> PairForward(tokens, start, Parens, MismatchedParens).value != end - 1
    requires IsDigits(tokens[end - 2].content)
    requires ParseDeclarator(tokens, start, end - 3) == Ok(inner)
    ensures ParseDeclarator(tokens, start, end) == Ok(ArrayDecl(ParseNat(tokens[end - 2].content), inner))
  {
  }

  /** Any other non-empty range that is not a single identifier is faulty syntax, reported
      at its start. */
  lemma DeclaratorFaultyRule(tokens: seq<Token>, start: nat, end: nat)
    requires start < end <= |tokens|
    requires !(start + 1 == end && tokens[start].kind == Identifier)
    requires tokens[start].kind != Star && tokens[start].kind != OpenParen
    requires !ArraySuffix(tokens, start, end)
    ensures ParseDeclarator(tokens, start, end) == Err(Syntax(ParserError(FaultyDeclaration, start, At)))
  {
  }

  /** The opening parenthesis at `start` either has no partner or its partner is the last
      token of the range. */
  predicate EnclosesRest(tokens: seq<Token>, start: nat, end: nat)
    requires start < end <= |tokens|
  {
    var pair := PairForward(tokens, start, Parens, MismatchedParens);
    pair.Err? || pair.value == end - 1
  }

  /** The range ends in `[`, a number and `]`. */
  predicate ArraySuffix(tokens: seq<Token>, start: nat, end: nat)
    requires start <= end <= |tokens|
  {
    end - start >= 3 && tokens[end - 1].kind == CloseSqBrack
    && tokens[end - 3].kind == OpenSqBrack && tokens[end - 2].kind == Number
  }
}
