/** What the lowering decides from operand types alone: the diagnostics it raises, the
    command a binary operator names, the casts `set_type` inserts, the size literals, and
    the operand roles and comparison types of the pointer operators in tree.py. */
module Operands {
  import opened Wrappers
  import opened Strings
  import opened Tokens
  import opened Errors
  import opened CTypes
  import opened Spots
  import opened IL

  const TooLarge := "integer literal too large to be represented by any integer type"
  const NotModifiable := "operand of increment operator not a modifiable lvalue"
  const InvalidAddition := "invalid operand types for binary addition"
  const InvalidSubtraction := "invalid operand types for binary subtraction"
  const InvalidMultiplication := "invalid operand types for binary multiplication"
  const InvalidDivision := "invalid operand types for binary division"
  const Incomparable := "comparison between incomparable types"
  const DistinctPointers := "comparison between distinct pointer types"
  const NotAssignable := "expression on left of '=' is not assignable"
  const AddrOfNeedsLValue := "lvalue required as unary '&' operand"
  const DerefNeedsPointer := "operand of unary '*' must have pointer type"
  const InvalidSubscript := "invalid operand types for array subscriping"
  const MissingIdentifier := "missing identifier name in declaration"
  const VoidVariable := "variable of void type declared"
  const ExternInitializer := "extern variable has initializer"
  const DeclaredNotAssignable := "declared variable is not of assignable type"
  const UnsupportedOperands := "NotImplementedError: Unsupported operands"
  const StaticUnsupported := "NotImplementedError: static variables unsupported"
  const GlobalUnsupported := "NotImplementedError: non-extern global variables unsupported"
  const NoSpecifier := "IndexError: list index out of range"
  const UnknownOperator := "KeyError"
  /** What Python reports for `il_commands.Sub`, the first missing command class the command
      table of `make_integer_code` names. */
  const NoSubCommand := "AttributeError: module 'il_commands' has no attribute 'Sub'"

  /** `cmd_map`: the command a binary operator names when both operands are arithmetic. */
  function CommandFor(k: TokenKind): (r: Option<ArithOp>)
    ensures r.Some? <==> k in {Plus, Minus, Star, Slash, Amp, TwoEquals, NotEqual}
  {
    match k
    case Plus => Some(AddOp)
    case Minus => Some(SubOp)
    case Star => Some(MultOp)
    case Slash => Some(DivOp)
    case Amp => Some(BitAndOp)
    case TwoEquals => Some(EqualOp)
    case NotEqual => Some(NotEqualOp)
    case _ => None
  }

  /** The comparisons, whose output is an `int` whatever the operand type. */
  predicate IsComparison(op: ArithOp) { op == EqualOp || op == NotEqualOp }

  /** The commands `set_type` appends to bring `v` to type `t` as `cast`. */
  function Cast(v: ILValue, t: CType, cast: ILValue): seq<ILCommand> {
    if v.ctype == t then [] else [Set(cast, v)]
  }

  /** The literal text of a size, as `str(size)` writes it. */
  function SizeLiteral(t: CType): LitValue {
    TextLit(NatToString(SizeOf(t)))
  }

  /** The literal that steps a value of type `t` by one: 1 for an arithmetic type, the size
      of the pointed-to type for a pointer. */
  function StepLiteral(t: CType): LitValue
    requires IsArith(t) || IsPointer(t)
  {
    if IsArith(t) then TextLit("1") else SizeLiteral(t.kind.arg)
  }

  /** The literal registry only grows: no registered value changes. */
  ghost predicate TablesGrow(before: Tables, after: Tables) {
    (forall v :: v in before.literals ==> v in after.literals && after.literals[v] == before.literals[v]) &&
    (forall v :: v in before.strings ==> v in after.strings && after.strings[v] == before.strings[v])
  }

  /** The operand roles of `make_plus_code` (and of `make_bitwise_and_code`) as tree.py
      writes the test: `Some(true)` when the left operand is the pointer, `Some(false)` when
      the right one is taken for it, None for an error. The second test compares two
      booleans with `==`, so it also holds when neither is true. */
  function OffsetRolesAsWritten(left: CType, right: CType): Option<bool> {
    if IsPointer(left) && IsIntegral(right) then Some(true)
    else if IsPointer(right) == IsIntegral(left) then Some(false)
    else None
  }

  /** The operand roles the test means: one operand a pointer and the other an integer. */
  function OffsetRoles(left: CType, right: CType): (r: Option<bool>)
    ensures r == Some(true) <==> IsPointer(left) && IsIntegral(right)
    ensures r == Some(false) <==> IsIntegral(left) && IsPointer(right)
  {
    if IsPointer(left) && IsIntegral(right) then Some(true)
    else if IsIntegral(left) && IsPointer(right) then Some(false)
    else None
  }

  /** The written test agrees with the intended one wherever the intended one accepts; it
      also accepts a pointer added to a value of type void, and then takes the void value for
      the pointer, whose pointee size `make_plus_code` then reads. */
  lemma OffsetRolesAsWrittenAdmitsVoid()
    ensures forall l, r :: OffsetRoles(l, r).Some? ==> OffsetRolesAsWritten(l, r) == OffsetRoles(l, r)
    ensures var p := CType(PointerKind(Void), false);
            OffsetRolesAsWritten(p, Void) == Some(false) && !IsPointer(Void) && OffsetRoles(p, Void).None?
  {
  }

  /** The types the operands of `==` or `!=` end up with, and the warning, if any, that
      `make_equality_code` logs: a null pointer constant takes the other side's pointer type;
      then a side that is a pointer to void gives its type to the other; otherwise pointers
      to incompatible types, or a side that is not a pointer, draw a warning. */
  function EqualityTypes(left: CType, leftNull: bool, right: CType, rightNull: bool)
    : (r: (CType, CType, Option<string>))
  {
    var (l, rt) :=
      if IsPointer(left) && rightNull then (left, left)
      else if IsPointer(right) && leftNull then (right, right)
      else (left, right);
    if !IsPointer(l) || !IsPointer(rt) then (l, rt, Some(Incomparable))
    else if IsVoid(l.kind.arg) then (l, l, None)
    else if IsVoid(rt.kind.arg) then (rt, rt, None)
    else if !Compatible(l, rt) then (l, rt, Some(DistinctPointers))
    else (l, rt, None)
  }

  /** A comparison draws no warning exactly when it ends up comparing compatible pointers. */
  lemma EqualityWarnings(left: CType, leftNull: bool, right: CType, rightNull: bool)
    ensures var (l, r, warning) := EqualityTypes(left, leftNull, right, rightNull);
            (warning.None? <==> IsPointer(l) && IsPointer(r) && Compatible(l, r)) &&
            (warning == Some(Incomparable) <==> !IsPointer(l) || !IsPointer(r))
    ensures var (l, r, _) := EqualityTypes(left, leftNull, right, rightNull);
            (l == left || l == right) && (r == left || r == right)
    ensures IsPointer(left) && rightNull ==> EqualityTypes(left, leftNull, right, rightNull).1 == left
  {
    var (l, r, warning) := EqualityTypes(left, leftNull, right, rightNull);
    CompatibleReflexive(l);
    CompatibleReflexive(r);
  }
}
