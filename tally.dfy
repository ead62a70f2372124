/** Counting the stars, opening square brackets and identifiers of a token range and of a
    declarator tree, the measure by which a decomposed declarator is shown to account for
    every token of its range. */
module DeclTallies {
  import opened Tokens
  import opened Ast

  /** What is counted: stars, opening square brackets or identifiers. */
  datatype Counted = Stars | Brackets | Names

  predicate CountsAs(t: Token, c: Counted) {
    match c
    case Stars => t.kind == Star
    case Brackets => t.kind == OpenSqBrack
    case Names => t.kind == Identifier
  }

  /** How many tokens of `tokens[lo..hi]` count as `c`. */
  function Count(tokens: seq<Token>, lo: nat, hi: nat, c: Counted): nat
    requires lo <= hi <= |tokens|
    decreases hi - lo
  {
    if lo == hi then 0 else (if CountsAs(tokens[lo], c) then 1 else 0) + Count(tokens, lo + 1, hi, c)
  }

  lemma {:induction false} CountSplit(tokens: seq<Token>, lo: nat, mid: nat, hi: nat, c: Counted)
    requires lo <= mid <= hi <= |tokens|
    ensures Count(tokens, lo, hi, c) == Count(tokens, lo, mid, c) + Count(tokens, mid, hi, c)
    decreases mid - lo
  {
    if lo < mid {
      CountSplit(tokens, lo + 1, mid, hi, c);
    }
  }

  lemma {:induction false} CountLast(tokens: seq<Token>, lo: nat, m: nat, c: Counted)
    requires lo <= m < |tokens|
    ensures Count(tokens, lo, m + 1, c) == Count(tokens, lo, m, c) + (if CountsAs(tokens[m], c) then 1 else 0)
  {
    CountSplit(tokens, lo, m, m + 1, c);
  }

  /** How many pointer levels, array levels and identifiers a declarator tree holds: one
      star per pointer level, one bracket per array level, and the identifier at its leaf,
      if any. */
  function DeclCount(d: DeclNode, c: Counted): nat {
    match d
    case PointerDecl(child) => (if c == Stars then 1 else 0) + DeclCount(child, c)
    case ArrayDecl(_, child) => DeclCount(child, c) + (if c == Brackets then 1 else 0)
    case IdentifierDecl(identifier) => if c == Names && identifier.Some? then 1 else 0
  }

  /** Parentheses around a range add nothing to its counts. */
  lemma ParenCount(tokens: seq<Token>, start: nat, end: nat)
    requires start + 2 <= end <= |tokens|
    requires tokens[start].kind == OpenParen && tokens[end - 1].kind == CloseParen
    ensures forall c :: Count(tokens, start, end, c) == Count(tokens, start + 1, end - 1, c)
  {
    forall c ensures Count(tokens, start, end, c) == Count(tokens, start + 1, end - 1, c) {
      CountLast(tokens, start + 1, end - 1, c);
    }
  }

  /** A `[`, number, `]` suffix adds one bracket and nothing else. */
  lemma ArraySuffixCount(tokens: seq<Token>, start: nat, end: nat)
    requires start + 3 <= end <= |tokens|
    requires tokens[end - 3].kind == OpenSqBrack && tokens[end - 2].kind == Number && tokens[end - 1].kind == CloseSqBrack
    ensures forall c :: Count(tokens, start, end, c) == Count(tokens, start, end - 3, c) + (if c == Brackets then 1 else 0)
  {
    forall c ensures Count(tokens, start, end, c) == Count(tokens, start, end - 3, c) + (if c == Brackets then 1 else 0) {
      CountLast(tokens, start, end - 1, c);
      CountLast(tokens, start, end - 2, c);
      CountLast(tokens, start, end - 3, c);
    }
  }
}
