/** The integer promotions and the usual arithmetic conversions of C11 sections 6.3.1.1 and
    6.3.1.8, as `BinaryOperatorNode.promo_type` applies them to the operands of an arithmetic
    operator (tree.py). Only integer types are arithmetic in this compiler. */
module Promotion {
  import opened CTypes

  predicate IsInteger(t: CType) { t.kind.IntegerKind? }

  /** The integer promotion of one operand: anything narrower than 4 bytes becomes `int`. */
  function Promote(t: CType): (p: CType)
    requires IsInteger(t)
    ensures IsInteger(p) && SizeOf(p) >= 4 && SizeOf(p) >= SizeOf(t)
    ensures SizeOf(t) < 4 ==> p == Integer
    ensures SizeOf(t) >= 4 ==> p == t
  {
    if SizeOf(t) < 4 then Integer else t
  }

  /** The signedness the usual arithmetic conversions give two promoted operands: the common
      one if they agree; otherwise unsigned unless the signed operand is strictly wider. */
  predicate CommonSigned(p1: CType, p2: CType)
    requires IsInteger(p1) && IsInteger(p2)
  {
    if p1.kind.signed == p2.kind.signed then p1.kind.signed
    else if p1.kind.signed then SizeOf(p1) > SizeOf(p2)
    else SizeOf(p2) > SizeOf(p1)
  }

  function Max(a: nat, b: nat): nat { if a >= b then a else b }

  /** `promo_type`: the type both operands are converted to. The final branches of the
      source, which convert to the unsigned version of the signed operand, cannot be reached:
      when the signedness differs, either the unsigned operand is at least as wide or the
      signed one is strictly wider. */
  function PromoType(t1: CType, t2: CType): (r: CType)
    requires IsInteger(t1) && IsInteger(t2)
    ensures r == Promote(t1) || r == Promote(t2)
    ensures IsInteger(r)
    ensures SizeOf(r) >= 4 && SizeOf(r) >= SizeOf(t1) && SizeOf(r) >= SizeOf(t2)
    ensures SizeOf(r) == Max(SizeOf(Promote(t1)), SizeOf(Promote(t2)))
    ensures r.kind.signed == CommonSigned(Promote(t1), Promote(t2))
  {
    var p1 := Promote(t1);
    var p2 := Promote(t2);
    if p1 == p2 then p1
    else if p1.kind.signed == p2.kind.signed then
      // `max` with a size key keeps the first of two equally wide operands
      if SizeOf(p2) > SizeOf(p1) then p2 else p1
    else if !p1.kind.signed && SizeOf(p1) >= SizeOf(p2) then p1
    else if !p2.kind.signed && SizeOf(p2) >= SizeOf(p1) then p2
    else if p1.kind.signed && SizeOf(p1) > SizeOf(p2) then p1
    else if p2.kind.signed && SizeOf(p2) > SizeOf(p1) then p2
    else assert false; p1
  }

  /** Size and signedness of the common type do not depend on the order of the operands. */
  lemma PromoTypeOrderIndependent(t1: CType, t2: CType)
    requires IsInteger(t1) && IsInteger(t2)
    ensures SizeOf(PromoType(t1, t2)) == SizeOf(PromoType(t2, t1))
    ensures PromoType(t1, t2).kind.signed == PromoType(t2, t1).kind.signed
  {
  }

  /** The chosen type itself can depend on the order: of `int` and `const int`, equally wide
      and equally signed, the first operand's type is kept. */
  lemma PromoTypeKeepsFirstOnTie()
    ensures PromoType(Integer, MakeConst(Integer)) == Integer
    ensures PromoType(MakeConst(Integer), Integer) == MakeConst(Integer)
  {
  }

  /** Operands of one type are converted to its promotion. */
  lemma PromoTypeSame(t: CType)
    requires IsInteger(t)
    ensures PromoType(t, t) == Promote(t)
  {
  }

  /** The ladder on the compiler's own integer types. */
  lemma PromoTypeLadder()
    ensures PromoType(Char, Char) == Integer
    ensures PromoType(BoolT, UnsignShort) == Integer
    ensures PromoType(Integer, LongInt) == LongInt
    ensures PromoType(UnsignInt, LongInt) == LongInt
    ensures PromoType(Integer, UnsignInt) == UnsignInt
    ensures PromoType(UnsignLongInt, Integer) == UnsignLongInt
    ensures PromoType(LongInt, UnsignLongInt) == UnsignLongInt
    ensures PromoType(UnsignChar, UnsignInt) == UnsignInt
  {
  }

  /** Operands already of rank int or above that agree in signedness keep it; an unsigned
      first operand at least as wide as the second is the result itself. */
  lemma PromoTypeWideOperands(t1: CType, t2: CType)
    requires IsInteger(t1) && IsInteger(t2)
    ensures var r := PromoType(t1, t2);
            (SizeOf(t1) >= 4 && SizeOf(t2) >= 4 && t1.kind.signed == t2.kind.signed) ==>
              r.kind.signed == t1.kind.signed
    ensures var r := PromoType(t1, t2);
            (SizeOf(t1) >= 4 && !t1.kind.signed && SizeOf(t1) >= SizeOf(t2)) ==> r == t1
  {
  }
}
