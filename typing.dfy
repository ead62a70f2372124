/** The type of every expression and the first diagnostic or exception its lowering meets,
    as a function of the expression and the scopes in force. This is the reference the
    lowering of expressions is proved against: `make_code` succeeds exactly when `TypeOf`
    does, with a value of the type `TypeOf` gives, and gives up with the same error. */
module Typing {
  import opened Wrappers
  import opened Strings
  import opened Tokens
  import opened Errors
  import opened CTypes
  import opened Promotion
  import opened Ast
  import opened IL
  import opened Literals
  import opened Operands

  type Scopes = seq<map<string, ILValue>>

  function PointerTo(t: CType): (r: CType)
    ensures IsPointer(r) && r.kind.arg == t
  {
    CType(PointerKind(t), false)
  }

  /** What an lvalue of type `t` evaluates to: an array decays to a pointer to its first
      element; any other type is kept. */
  function Decayed(t: CType): (r: CType)
    ensures !IsArray(r)
    ensures IsArray(t) ==> r == PointerTo(t.kind.elem)
    ensures !IsArray(t) ==> r == t
  {
    if IsArray(t) then PointerTo(t.kind.elem) else t
  }

  /** The nodes that have an lvalue form: strings, identifiers, dereferences and subscripts,
      and any of these in parentheses. */
  predicate IsLValueNode(e: Expr) {
    match e
    case StringNode(_) => true
    case IdentifierNode(_) => true
    case DerefNode(_, _) => true
    case ArraySubscriptNode(_, _, _) => true
    case ParenExprNode(x) => IsLValueNode(x)
    case _ => false
  }

  /** What an undeclared identifier raises. */
  function Undeclared(identifier: Token): Abort {
    Raised(CompilerError(UndeclaredIdentifier, identifier.fileName, identifier.lineNum))
  }

  /** The number node's type: the type of the literal's value, when it has one. */
  function NumberType(text: string): (r: Result<CType, Abort>)
    ensures r.Ok? ==> r.value == Integer || r.value == LongInt
    ensures NumberValue(text).Err? ==> r == Err(NumberValue(text).error)
  {
    match NumberValue(text)
    case Err(a) => Err(a)
    case Ok(v) =>
      match LiteralType(v)
      case None => Err(RaiseError(TooLarge))
      case Some(t) => Ok(t)
  }

  /** `lvalue()`: the type of the object the expression designates, None for a node without
      an lvalue form (which evaluates nothing), or how computing the lvalue gives up. */
  function LvTypeOf(e: Expr, scopes: Scopes): (r: Result<Option<CType>, Abort>)
    ensures r.Ok? ==> (r.value.Some? <==> IsLValueNode(e))
    decreases e, 0
  {
    match e
    case StringNode(chars) => Ok(Some(CType(ArrayKind(Char, Some(|chars|)), false)))
    case IdentifierNode(identifier) =>
      (match Lookup(scopes, identifier.content)
       case None => Err(Undeclared(identifier))
       case Some(v) => Ok(Some(v.ctype)))
    case ParenExprNode(x) => LvTypeOf(x, scopes)
    case DerefNode(x, _) =>
      (match TypeOf(x, scopes)
       case Err(a) => Err(a)
       case Ok(t) => if IsPointer(t) then Ok(Some(t.kind.arg)) else Err(RaiseError(DerefNeedsPointer)))
    case ArraySubscriptNode(head, arg, _) =>
      (match TypeOf(head, scopes)
       case Err(a) => Err(a)
       case Ok(ht) =>
         match TypeOf(arg, scopes)
         case Err(a) => Err(a)
         case Ok(at) =>
           match OffsetRoles(ht, at)
           case None => Err(RaiseError(InvalidSubscript))
           case Some(headIsPointer) => Ok(Some((if headIsPointer then ht else at).kind.arg)))
    case _ => Ok(None)
  }

  /** `make_code`: the type of the expression's value after decay, or how lowering it gives
      up. Operands are lowered left to right, except that `=` lowers its right side first. */
  function TypeOf(e: Expr, scopes: Scopes): (r: Result<CType, Abort>)
    decreases e, 2
  {
    match e
    case NumberNode(text) => NumberType(text)
    case ParenExprNode(x) => TypeOf(x, scopes)
    case StringNode(_) => LvDecayed(e, scopes)
    case IdentifierNode(_) => LvDecayed(e, scopes)
    case DerefNode(_, _) => LvDecayed(e, scopes)
    case ArraySubscriptNode(_, _, _) => LvDecayed(e, scopes)
    case BinaryOperatorNode(left, op, right) =>
      (if op.kind == Equals then
        match TypeOf(right, scopes)
        case Err(a) => Err(a)
        case Ok(rt) =>
          match LvTypeOf(left, scopes)
          case Err(a) => Err(a)
          case Ok(lt) => if lt.Some? && ModableType(lt.value) then Ok(rt) else Err(RaiseError(NotAssignable))
      else
        match TypeOf(left, scopes)
        case Err(a) => Err(a)
        case Ok(lt) =>
          match TypeOf(right, scopes)
          case Err(a) => Err(a)
          case Ok(rt) =>
            if op.kind == BoolAnd || op.kind == BoolOr then Ok(Integer) else OperatorType(op.kind, lt, rt))
    case IncrDecrNode(x, _, _, _) =>
      (match TypeOf(x, scopes)
       case Err(a) => Err(a)
       case Ok(t) =>
         match LvTypeOf(x, scopes)
         case Err(a) => Err(a)
         case Ok(lt) =>
           if lt.None? || !ModableType(lt.value) then Err(RaiseError(NotModifiable))
           else if !IsArith(t) && !IsPointer(t) then Err(Crashed(UnsupportedOperands))
           else Ok(t))
    case BoolNotNode(x, _) =>
      (match TypeOf(x, scopes)
       case Err(a) => Err(a)
       case Ok(_) => Ok(Integer))
    case AddrOfNode(x, _) =>
      (match LvTypeOf(x, scopes)
       case Err(a) => Err(a)
       case Ok(lt) => if lt.None? then Err(RaiseError(AddrOfNeedsLValue)) else Ok(PointerTo(lt.value)))
  }

  /** The value of a node that has an lvalue form: its lvalue, decayed. */
  function LvDecayed(e: Expr, scopes: Scopes): (r: Result<CType, Abort>)
    requires IsLValueNode(e)
    decreases e, 1
  {
    match LvTypeOf(e, scopes)
    case Err(a) => Err(a)
    case Ok(lt) => Ok(Decayed(lt.value))
  }

  /** The type of a binary operation other than `=`, `&&` and `||` once both operands are
      known: the command table for two arithmetic operands, `int` for a comparison of
      anything else, and the pointer rules of `+`, `&` and `-`; `*` and `/` need
      arithmetic operands, and any other operator is not supported. */
  function OperatorType(k: TokenKind, lt: CType, rt: CType): (r: Result<CType, Abort>)
    ensures IsArith(lt) && IsArith(rt) ==> (r.Ok? <==> CommandFor(k).Some?)
    ensures r.Ok? && (k == TwoEquals || k == NotEqual) ==> r.value == Integer
    ensures r.Ok? && !(IsArith(lt) && IsArith(rt)) && (k == Plus || k == Amp) ==>
              IsPointer(r.value) && (r.value == lt || r.value == rt)
  {
    if IsArith(lt) && IsArith(rt) then
      match CommandFor(k)
      case None => Err(Crashed(UnknownOperator))
      case Some(c) => Ok(if IsComparison(c) then Integer else PromoType(lt, rt))
    else if k == TwoEquals || k == NotEqual then Ok(Integer)
    else if k == Plus || k == Amp then
      match OffsetRoles(lt, rt)
      case None => Err(RaiseError(InvalidAddition))
      case Some(leftIsPointer) => Ok(if leftIsPointer then lt else rt)
    else if k == Minus then
      if IsPointer(lt) && IsPointer(rt) && Compatible(lt, rt) then Ok(LongInt)
      else if IsPointer(lt) && IsIntegral(rt) then Ok(lt)
      else Err(RaiseError(InvalidSubtraction))
    else if k == Star then Err(RaiseError(InvalidMultiplication))
    else if k == Slash then Err(RaiseError(InvalidDivision))
    else Err(Crashed(UnsupportedOperands))
  }

  /** An expression's value never has an array type: arrays decay wherever they are
      evaluated. */
  lemma {:induction false} TypeOfNotArray(e: Expr, scopes: Scopes)
    ensures TypeOf(e, scopes).Ok? ==> !IsArray(TypeOf(e, scopes).value)
  {
    match e
    case ParenExprNode(x) => TypeOfNotArray(x, scopes);
    case BinaryOperatorNode(left, op, right) =>
      TypeOfNotArray(left, scopes);
      TypeOfNotArray(right, scopes);
    case IncrDecrNode(x, _, _, _) => TypeOfNotArray(x, scopes);
    case _ =>
  }

  /** Lowering an expression computes its lvalue first: an error there is the expression's
      error, and the value of an lvalue-form node is its lvalue decayed, through any
      parentheses. */
  lemma {:induction false} LvTypeFirst(e: Expr, scopes: Scopes)
    ensures LvTypeOf(e, scopes).Err? ==> TypeOf(e, scopes) == Err(LvTypeOf(e, scopes).error)
    ensures LvTypeOf(e, scopes).Ok? && LvTypeOf(e, scopes).value.Some? ==>
              TypeOf(e, scopes) == Ok(Decayed(LvTypeOf(e, scopes).value.value))
  {
    if e.ParenExprNode? {
      LvTypeFirst(e.expr, scopes);
    }
  }

  /** `&&` and `||` lower the left operand, then the right one, and give an `int`. */
  lemma AndOrType(e: Expr, scopes: Scopes)
    requires e.BinaryOperatorNode? && (e.operator.kind == BoolAnd || e.operator.kind == BoolOr)
    ensures TypeOf(e, scopes) ==
              if TypeOf(e.left, scopes).Err? then TypeOf(e.left, scopes)
              else if TypeOf(e.right, scopes).Err? then TypeOf(e.right, scopes)
              else Ok(Integer)
  {
  }

  /** The literal 0 that `main` returns when its body does not is an `int`. */
  lemma ZeroIsInt(scopes: Scopes)
    ensures TypeOf(NumberNode("0"), scopes) == Ok(Integer)
  {
    DigitsNotBinary("0");
    assert ParseNat("0") == 0;
  }
}
