/** Token kinds and tokens as the lexer produces them and the parser reads them (tokens.py). */
module Tokens {
  import opened Wrappers

  /** Every kind of token the parser and the tree builder refer to. The first group are
      keywords, the second symbols; the last four carry their text in the token's content
      and have an empty `text_repr`. */
  datatype TokenKind =
    | MainKw | IntKw | CharKw | VoidKw | BoolKw | ShortKw | LongKw
    | SignedKw | UnsignedKw | AutoKw | StaticKw | ExternKw | ReturnKw | IfKw | ElseKw
    | Semicolon | OpenParen | CloseParen | OpenBrack | CloseBrack | OpenSqBrack | CloseSqBrack
    | Comma | Plus | Minus | Star | Slash | Amp | Equals | TwoEquals | NotEqual
    | BoolAnd | BoolOr | BoolNot | Incr | Decr
    | Number | Identifier | StringLit | CharString

  /** `text_repr`: how the kind looks in program text; empty for the literal classes. */
  function TextRepr(k: TokenKind): (s: string)
    ensures s == "" <==> k in {Number, Identifier, StringLit, CharString}
  {
    match k
    case MainKw => "main"
    case IntKw => "int"
    case CharKw => "char"
    case VoidKw => "void"
    case BoolKw => "_Bool"
    case ShortKw => "short"
    case LongKw => "long"
    case SignedKw => "signed"
    case UnsignedKw => "unsigned"
    case AutoKw => "auto"
    case StaticKw => "static"
    case ExternKw => "extern"
    case ReturnKw => "return"
    case IfKw => "if"
    case ElseKw => "else"
    case Semicolon => ";"
    case OpenParen => "("
    case CloseParen => ")"
    case OpenBrack => "{"
    case CloseBrack => "}"
    case OpenSqBrack => "["
    case CloseSqBrack => "]"
    case Comma => ","
    case Plus => "+"
    case Minus => "-"
    case Star => "*"
    case Slash => "/"
    case Amp => "&"
    case Equals => "="
    case TwoEquals => "=="
    case NotEqual => "!="
    case BoolAnd => "&&"
    case BoolOr => "||"
    case BoolNot => "!"
    case Incr => "++"
    case Decr => "--"
    case Number => ""
    case Identifier => ""
    case StringLit => ""
    case CharString => ""
  }

  /** The caller-owned list that `TokenKind.__init__` registers each new kind in. */
  class KindList {
    var items: seq<TokenKind>

    constructor()
      ensures items == []
    {
      items := [];
    }
  }

  /** `TokenKind.__init__`: appends the new kind to the supplied list, or to a fresh empty
      list when none is supplied; returns the list that received it. */
  method DeclareKind(k: TokenKind, kinds: KindList?) returns (list: KindList)
    modifies kinds
    ensures kinds != null ==> list == kinds && list.items == old(kinds.items) + [k]
    ensures kinds == null ==> fresh(list) && list.items == [k]
  {
    if kinds == null {
      list := new KindList();
    } else {
      list := kinds;
    }
    list.items := list.items + [k];
  }

  /** A token: its kind, its text, and where it came from. */
  datatype Token = Token(kind: TokenKind, content: string, fileName: Option<string>, lineNum: Option<int>)

  /** `Token.__init__`: an empty content defaults to the kind's spelling; the position is
      unset. */
  function NewToken(kind: TokenKind, content: string): (t: Token)
    ensures t.kind == kind
    ensures content != "" ==> t.content == content
    ensures content == "" ==> t.content == TextRepr(kind)
    ensures t.fileName == None && t.lineNum == None
  {
    Token(kind, if content != "" then content else TextRepr(kind), None, None)
  }

  /** `Token.__eq__`: kind and content only. */
  predicate TokensEqual(a: Token, b: Token) {
    a.kind == b.kind && a.content == b.content
  }

  /** `str(token)`. */
  function TokenStr(t: Token): (s: string)
    ensures s == t.content
  {
    t.content
  }

  /** Token equality is an equivalence that ignores where the tokens came from, and two
      tokens built with the same arguments are equal. */
  lemma TokensEqualProperties(a: Token, b: Token, c: Token, f: Option<string>, l: Option<int>)
    ensures TokensEqual(a, a)
    ensures TokensEqual(a, b) ==> TokensEqual(b, a)
    ensures TokensEqual(a, b) && TokensEqual(b, c) ==> TokensEqual(a, c)
    ensures TokensEqual(a, a.(fileName := f, lineNum := l))
    ensures TokensEqual(a, b) <==> TokenStr(a) == TokenStr(b) && a.kind == b.kind
  {
  }

  /** A keyword or symbol token built without content equals one built with its spelling, and
      prints as that spelling. */
  lemma DefaultContent(k: TokenKind)
    ensures TokensEqual(NewToken(k, ""), NewToken(k, TextRepr(k)))
    ensures TokenStr(NewToken(k, "")) == TextRepr(k)
  {
  }
}
