/** Declaration typing (`DeclarationNode.make_specs_ctype` and `make_ctype` in tree.py): the
    declaration specifiers give a base type and a storage class, and the declarator tree
    wraps the base type in pointers and arrays. */
module Declarations {
  import opened Wrappers
  import opened Tokens
  import opened Errors
  import opened CTypes
  import opened Ast

  /** Storage classes; DeclarationNode numbers them AUTO = 0, STATIC = 1, EXTERN = 2. */
  datatype Storage = Auto | Static | Extern

  const TwoDataTypes := "two or more data types in declaration specifiers"
  const SignedAndUnsigned := "both signed and unsigned in declaration specifiers"
  const TwoStorageClasses := "two or more storage classes in declaration specifiers"
  /** What Python reports for the call of `ctypes.to_unsigned`, which ctypes.py does not define. */
  const NoToUnsigned := "AttributeError: module 'ctypes' has no attribute 'to_unsigned'"
  /** What `CType.make_unsigned` raises for a type other than an integer type. */
  const NoUnsignedVersion := "NotImplementedError"

  /** `spec_kinds`: the kinds of the specifier tokens, in order. */
  function SpecKinds(specs: seq<Token>): (kinds: seq<TokenKind>)
    ensures |kinds| == |specs|
    ensures forall i :: 0 <= i < |specs| ==> kinds[i] == specs[i].kind
  {
    seq(|specs|, i requires 0 <= i < |specs| => specs[i].kind)
  }

  /** 1 for a keyword kind that is present, 0 otherwise. */
  function One(present: bool): nat { if present then 1 else 0 }

  /** The keys of `simple_types`. */
  predicate IsBaseTypeKey(k: TokenKind) {
    k == VoidKw || k == BoolKw || k == CharKw || k == ShortKw || k == IntKw || k == LongKw
  }

  /** `len(set(simple_types.keys()) & set(spec_kinds))`: how many distinct base-type
      keywords occur. */
  function BaseTypeCount(kinds: seq<TokenKind>): nat {
    One(VoidKw in kinds) + One(BoolKw in kinds) + One(CharKw in kinds) +
    One(ShortKw in kinds) + One(IntKw in kinds) + One(LongKw in kinds)
  }

  /** How many distinct storage-class keywords occur. */
  function StorageCount(kinds: seq<TokenKind>): nat {
    One(AutoKw in kinds) + One(StaticKw in kinds) + One(ExternKw in kinds)
  }

  /** `simple_types`: the type a base-type keyword names. */
  function SimpleType(k: TokenKind): (t: CType)
    requires IsBaseTypeKey(k)
    ensures (k == VoidKw) <==> t.kind.VoidKind?
    ensures t == Void || t == BoolT || t == Char || t == Short || t == Integer || t == LongInt
  {
    match k
    case VoidKw => Void
    case BoolKw => BoolT
    case CharKw => Char
    case ShortKw => Short
    case IntKw => Integer
    case LongKw => LongInt
  }

  /** The base type: `int` when no base-type keyword is present, the named type when exactly
      one kind of them is, an error otherwise. A keyword written twice counts once. */
  function BaseType(kinds: seq<TokenKind>): (r: Result<CType, Abort>)
    ensures r.Err? <==> BaseTypeCount(kinds) >= 2
    ensures r.Err? ==> r.error == RaiseError(TwoDataTypes)
    ensures r.Ok? && BaseTypeCount(kinds) == 0 ==> r.value == Integer
    ensures r.Ok? ==> forall k :: IsBaseTypeKey(k) && k in kinds ==> r.value == SimpleType(k)
  {
    if BaseTypeCount(kinds) >= 2 then Err(RaiseError(TwoDataTypes))
    else if VoidKw in kinds then Ok(Void)
    else if BoolKw in kinds then Ok(BoolT)
    else if CharKw in kinds then Ok(Char)
    else if ShortKw in kinds then Ok(Short)
    else if LongKw in kinds then Ok(LongInt)
    else Ok(Integer)
  }

  /** The storage class: AUTO when no storage keyword is present, the named class when
      exactly one kind of them is, an error otherwise. */
  function StorageClass(kinds: seq<TokenKind>): (r: Result<Storage, Abort>)
    ensures r.Err? <==> StorageCount(kinds) >= 2
    ensures r.Err? ==> r.error == RaiseError(TwoStorageClasses)
    ensures r.Ok? ==> (r.value == Static <==> StaticKw in kinds)
    ensures r.Ok? ==> (r.value == Extern <==> ExternKw in kinds)
  {
    if StorageCount(kinds) >= 2 then Err(RaiseError(TwoStorageClasses))
    else if StaticKw in kinds then Ok(Static)
    else if ExternKw in kinds then Ok(Extern)
    else Ok(Auto)
  }

  /** `make_unsigned` on the base type: an unsigned copy of an integer type; any other type
      raises. */
  function Unsigned(t: CType): (r: Result<CType, Abort>)
    ensures r.Ok? <==> t.kind.IntegerKind?
    ensures r.Ok? ==> r.value == MakeUnsigned(t)
    ensures r.Err? ==> r.error == Crashed(NoUnsignedVersion)
  {
    if t.kind.IntegerKind? then Ok(MakeUnsigned(t)) else Err(Crashed(NoUnsignedVersion))
  }

  /** `make_specs_ctype` as tree.py writes it: a lone `unsigned` calls the undefined
      `ctypes.to_unsigned`. */
  function MakeSpecsCTypeAsWritten(specs: seq<Token>): (r: Result<(CType, Storage), Abort>)
    ensures var kinds := SpecKinds(specs);
            UnsignedKw in kinds && SignedKw !in kinds && BaseTypeCount(kinds) <= 1 ==>
              r == Err(Crashed(NoToUnsigned))
  {
    var kinds := SpecKinds(specs);
    var base :- BaseType(kinds);
    if UnsignedKw in kinds && SignedKw !in kinds then Err(Crashed(NoToUnsigned))
    else if UnsignedKw in kinds && SignedKw in kinds then Err(RaiseError(SignedAndUnsigned))
    else
      var storage :- StorageClass(kinds);
      Ok((base, storage))
  }

  /** `make_specs_ctype` with the unsigned version taken by `make_unsigned`: the base type,
      made unsigned by a lone `unsigned`, and the storage class. The checks run in the order
      base type, signedness, storage class, and the first that fails decides the error. */
  function MakeSpecsCType(specs: seq<Token>): (r: Result<(CType, Storage), Abort>)
    ensures var kinds := SpecKinds(specs);
            BaseTypeCount(kinds) >= 2 ==> r == Err(RaiseError(TwoDataTypes))
    ensures var kinds := SpecKinds(specs);
            BaseTypeCount(kinds) <= 1 && SignedKw in kinds && UnsignedKw in kinds ==>
              r == Err(RaiseError(SignedAndUnsigned))
    ensures r.Ok? ==> StorageClass(SpecKinds(specs)) == Ok(r.value.1)
    ensures var kinds := SpecKinds(specs);
            r.Ok? && UnsignedKw in kinds ==> BaseType(kinds).Ok? && Unsigned(BaseType(kinds).value) == Ok(r.value.0)
    ensures var kinds := SpecKinds(specs);
            r.Ok? && UnsignedKw !in kinds ==> BaseType(kinds) == Ok(r.value.0)
  {
    var kinds := SpecKinds(specs);
    var base :- BaseType(kinds);
    var ctype :-
      if UnsignedKw in kinds && SignedKw !in kinds then Unsigned(base)
      else if UnsignedKw in kinds && SignedKw in kinds then Err(RaiseError(SignedAndUnsigned))
      else Ok(base);
    var storage :- StorageClass(kinds);
    Ok((ctype, storage))
  }

  /** What `make_specs_ctype` accepts: at most one kind of base type, not both signed and
      unsigned, not `unsigned void`, and at most one kind of storage class; with no keyword
      of a group present, the defaults `int` and AUTO. */
  lemma SpecsAccepted(specs: seq<Token>)
    ensures var kinds := SpecKinds(specs);
            MakeSpecsCType(specs).Ok? <==>
              BaseTypeCount(kinds) <= 1 &&
              !(SignedKw in kinds && UnsignedKw in kinds) &&
              !(UnsignedKw in kinds && VoidKw in kinds) &&
              StorageCount(kinds) <= 1
    ensures var kinds := SpecKinds(specs);
            BaseTypeCount(kinds) == 0 && UnsignedKw !in kinds && StorageCount(kinds) == 0 ==>
              MakeSpecsCType(specs) == Ok((Integer, Auto))
  {
  }

  /** `unsigned char` is an unsigned copy of `char`, where tree.py as written fails. */
  lemma UnsignedCharExample(specs: seq<Token>)
    requires SpecKinds(specs) == [UnsignedKw, CharKw]
    ensures MakeSpecsCType(specs) == Ok((MakeUnsigned(Char), Auto))
    ensures MakeSpecsCTypeAsWritten(specs) == Err(Crashed(NoToUnsigned))
  {
    var kinds := SpecKinds(specs);
    assert BaseTypeCount(kinds) == 1 && StorageCount(kinds) == 0;
    assert BaseType(kinds) == Ok(Char);
  }

  /** `long int` names two base types. */
  lemma LongIntExample(specs: seq<Token>)
    requires SpecKinds(specs) == [LongKw, IntKw]
    ensures MakeSpecsCType(specs) == Err(RaiseError(TwoDataTypes))
  {
    assert BaseTypeCount(SpecKinds(specs)) == 2;
  }

  /** `extern static int` names two storage classes. */
  lemma ExternStaticExample(specs: seq<Token>)
    requires SpecKinds(specs) == [ExternKw, StaticKw, IntKw]
    ensures MakeSpecsCType(specs) == Err(RaiseError(TwoStorageClasses))
  {
    var kinds := SpecKinds(specs);
    assert BaseTypeCount(kinds) == 1 && StorageCount(kinds) == 2;
    assert BaseType(kinds) == Ok(Integer);
  }

  /** `static long` is a static `long`. */
  lemma StaticLongExample(specs: seq<Token>)
    requires SpecKinds(specs) == [StaticKw, LongKw]
    ensures MakeSpecsCType(specs) == Ok((LongInt, Static))
  {
    var kinds := SpecKinds(specs);
    assert BaseTypeCount(kinds) == 1 && StorageCount(kinds) == 1;
    assert BaseType(kinds) == Ok(LongInt);
  }

  /** The result of `make_ctype`: the type, the declared identifier token (None for an
      abstract declarator) and the storage class. */
  datatype Declared = Declared(ctype: CType, identifier: Option<Token>, storage: Storage)

  /** The identifier at the bottom of a declarator. */
  function DeclIdentifier(d: DeclNode): Option<Token> {
    match d
    case PointerDecl(child) => DeclIdentifier(child)
    case ArrayDecl(_, child) => DeclIdentifier(child)
    case IdentifierDecl(identifier) => identifier
  }

  /** The number of pointer and array layers of a declarator. */
  function Layers(d: DeclNode): nat {
    match d
    case PointerDecl(child) => 1 + Layers(child)
    case ArrayDecl(_, child) => 1 + Layers(child)
    case IdentifierDecl(_) => 0
  }

  /** How deeply pointer and array types nest in a type. */
  function Depth(t: CType): nat {
    match t.kind
    case PointerKind(arg) => 1 + Depth(arg)
    case ArrayKind(elem, _) => 1 + Depth(elem)
    case _ => 0
  }

  /** Undoes the layers a declarator puts around a type, innermost declarator layer first
      since it was applied last: the reading of a declaration from the identifier outward. */
  function Strip(d: DeclNode, t: CType): CType {
    match d
    case IdentifierDecl(_) => t
    case PointerDecl(child) =>
      var u := Strip(child, t);
      if u.kind.PointerKind? then u.kind.arg else u
    case ArrayDecl(_, child) =>
      var u := Strip(child, t);
      if u.kind.ArrayKind? then u.kind.elem else u
  }

  /** `make_ctype` below the root: each layer wraps the type built so far, from the root
      toward the identifier. Stripping the layers again gives back the type the walk
      started from, and the identifier and storage class pass through. */
  function BuildCType(d: DeclNode, prev: CType, storage: Storage): (r: Declared)
    ensures r.identifier == DeclIdentifier(d) && r.storage == storage
    ensures Strip(d, r.ctype) == prev
    ensures Depth(r.ctype) == Depth(prev) + Layers(d)
    ensures !r.ctype.isConst || d.IdentifierDecl?
  {
    match d
    case PointerDecl(child) => BuildCType(child, CType(PointerKind(prev), false), storage)
    case ArrayDecl(n, child) => BuildCType(child, CType(ArrayKind(prev, Some(n)), false), storage)
    case IdentifierDecl(identifier) => Declared(prev, identifier, storage)
  }

  /** `make_ctype` from the root: the specifiers' type and storage class, then the
      declarator's layers. */
  function MakeCType(decl: DeclRoot): (r: Result<Declared, Abort>)
    ensures r.Err? <==> MakeSpecsCType(decl.specs).Err?
    ensures r.Err? ==> r.error == MakeSpecsCType(decl.specs).error
    ensures r.Ok? ==> r.value.identifier == DeclIdentifier(decl.child)
    ensures r.Ok? ==> r.value.storage == MakeSpecsCType(decl.specs).value.1
    ensures r.Ok? ==> Strip(decl.child, r.value.ctype) == MakeSpecsCType(decl.specs).value.0
  {
    var specs :- MakeSpecsCType(decl.specs);
    Ok(BuildCType(decl.child, specs.0, specs.1))
  }

  /** `int *var[3]` declares an array of three pointers to int, and `int (*var)[3]` a pointer
      to an array of three ints. */
  lemma DeclaratorTypes(specs: seq<Token>, name: Token)
    requires SpecKinds(specs) == [IntKw]
    ensures MakeCType(DeclRoot(specs, PointerDecl(ArrayDecl(3, IdentifierDecl(Some(name)))))) ==
              Ok(Declared(CType(ArrayKind(CType(PointerKind(Integer), false), Some(3)), false), Some(name), Auto))
    ensures MakeCType(DeclRoot(specs, ArrayDecl(3, PointerDecl(IdentifierDecl(Some(name)))))) ==
              Ok(Declared(CType(PointerKind(CType(ArrayKind(Integer, Some(3)), false)), false), Some(name), Auto))
  {
    var kinds := SpecKinds(specs);
    assert BaseTypeCount(kinds) == 1 && StorageCount(kinds) == 0;
    assert BaseType(kinds) == Ok(Integer);
    assert MakeSpecsCType(specs) == Ok((Integer, Auto));
    var ptr := CType(PointerKind(Integer), false);
    var arr := CType(ArrayKind(Integer, Some(3)), false);
    assert BuildCType(ArrayDecl(3, IdentifierDecl(Some(name))), ptr, Auto) ==
           Declared(CType(ArrayKind(ptr, Some(3)), false), Some(name), Auto);
    assert BuildCType(PointerDecl(IdentifierDecl(Some(name))), arr, Auto) ==
           Declared(CType(PointerKind(arr), false), Some(name), Auto);
  }
}
