/** The C types the compiler knows (ctypes.py): their sizes, the kind predicates, the
    recursive compatibility relation of C11 section 6.2.7, qualified and unsigned copies,
    and struct member layout.

    A Python CType object becomes a `CType` value: its kind with the kind's own fields, and
    the shallow `const` flag. Object identity matters in two places of the source, both
    through the `_orig` attribute that `copy.copy` preserves: integer types and struct types
    are compatible only with copies of the same original object. That identity is the
    explicit `orig` number carried by those two kinds. */
module CTypes {
  import opened Wrappers

  /** One struct member as `set_members` receives it: the name and the member's type. */
  datatype Member = Member(name: string, ctype: CType)

  /** A member's place in a struct: its byte offset and its type (a value of `offsets`). */
  datatype Offset = Offset(offset: nat, ctype: CType)

  datatype TypeKind =
    | VoidKind
      /** `IntegerCType`: sizeof, signedness, the `_bool` flag and the `_orig` identity. */
    | IntegerKind(size: nat, signed: bool, isBool: bool, orig: nat)
    | PointerKind(arg: CType)
      /** `ArrayCType`: element type and length, `None` for an incomplete array. */
    | ArrayKind(elem: CType, n: Option<nat>)
      /** `FunctionCType`: parameter types, return type, and `no_info` for `int f();`. */
    | FunctionKind(args: seq<CType>, ret: CType, noInfo: bool)
      /** `StructCType`: tag, members (None while incomplete), the offsets table, the
          current `size` attribute and the `_orig` identity. */
    | StructKind(tag: Option<string>, members: Option<seq<Member>>,
                 offsets: map<string, Offset>, size: nat, orig: nat)

  datatype CType = CType(kind: TypeKind, isConst: bool)

  // The process-wide singletons of ctypes.py:314-334; each integer singleton is its own origin.
  const Void := CType(VoidKind, false)
  const BoolT := CType(IntegerKind(1, false, true, 1), false)
  const Char := CType(IntegerKind(1, true, false, 2), false)
  const UnsignChar := CType(IntegerKind(1, false, false, 3), false)
  const Short := CType(IntegerKind(2, true, false, 4), false)
  const UnsignShort := CType(IntegerKind(2, false, false, 5), false)
  const Integer := CType(IntegerKind(4, true, false, 6), false)
  const UnsignInt := CType(IntegerKind(4, false, false, 7), false)
  const LongInt := CType(IntegerKind(8, true, false, 8), false)
  const UnsignLongInt := CType(IntegerKind(8, false, false, 9), false)

  const UnsignCharMax: int := 255
  const IntMax: int := 2147483647
  const IntMin: int := -2147483648
  const LongMax: int := 9223372036854775807
  const LongMin: int := -9223372036854775808

  /** The `size` attribute: what `sizeof` gives for the type. */
  function SizeOf(t: CType): nat {
    match t.kind
    case VoidKind => 1
    case IntegerKind(size, _, _, _) => size
    case PointerKind(_) => 8
    case ArrayKind(elem, n) => if n.Some? then n.value * SizeOf(elem) else 0
    case FunctionKind(_, _, _) => 1
    case StructKind(_, _, _, size, _) => size
  }

  // The kind predicates of ctypes.py:30-88, as each subclass overrides them.

  predicate IsComplete(t: CType) {
    match t.kind
    case IntegerKind(_, _, _, _) => true
    case PointerKind(_) => true
    case ArrayKind(_, n) => n.Some?
    case StructKind(_, members, _, _, _) => members.Some?
    case _ => false
  }

  predicate IsIncomplete(t: CType) {
    match t.kind
    case VoidKind => true
    case ArrayKind(_, _) => !IsComplete(t)
    case StructKind(_, _, _, _, _) => !IsComplete(t)
    case _ => false
  }

  predicate IsObject(t: CType) { !t.kind.FunctionKind? }
  predicate IsArith(t: CType) { t.kind.IntegerKind? }
  predicate IsIntegral(t: CType) { t.kind.IntegerKind? }
  predicate IsPointer(t: CType) { t.kind.PointerKind? }
  predicate IsFunction(t: CType) { t.kind.FunctionKind? }
  predicate IsVoid(t: CType) { t.kind.VoidKind? }
  predicate IsBool(t: CType) { t.kind.IntegerKind? && t.kind.isBool }
  predicate IsArray(t: CType) { t.kind.ArrayKind? }
  predicate IsStruct(t: CType) { t.kind.StructKind? }
  predicate IsScalar(t: CType) { IsArith(t) || IsPointer(t) }
  predicate IsConst(t: CType) { t.isConst }

  /** Every object type is exactly one of complete and incomplete; a function type is
      neither (ctypes.py:34-40). */
  lemma ObjectCompleteOrIncomplete(t: CType)
    ensures IsObject(t) ==> (IsComplete(t) <==> !IsIncomplete(t))
    ensures !IsObject(t) ==> !IsComplete(t) && !IsIncomplete(t)
    ensures IsScalar(t) ==> IsComplete(t) && IsObject(t)
  {
  }

  /** `compatible`: arrays override it; every other kind takes the weak compatibility of
      its unqualified versions together with equal const flags. */
  predicate Compatible(a: CType, b: CType)
    decreases a, 1
  {
    match a.kind
    case ArrayKind(elem, n) =>
      && b.kind.ArrayKind?
      && Compatible(elem, b.kind.elem)
      && (n.None? || b.kind.n.None? || n == b.kind.n)
    case _ => WeakCompat(a, b) && a.isConst == b.isConst
  }

  /** `weak_compat`, for every kind that defines it (ArrayCType inherits the base class's
      NotImplementedError). */
  predicate WeakCompat(a: CType, b: CType)
    requires !a.kind.ArrayKind?
    decreases a, 0
  {
    match a.kind
    case VoidKind => b.kind.VoidKind?
    case IntegerKind(_, signed, isBool, orig) =>
      b.kind.IntegerKind? && b.kind.orig == orig && b.kind.signed == signed && b.kind.isBool == isBool
    case PointerKind(arg) => b.kind.PointerKind? && Compatible(arg, b.kind.arg)
    case FunctionKind(args, ret, noInfo) =>
      && b.kind.FunctionKind?
      && Compatible(ret, b.kind.ret)
      && (!noInfo && !b.kind.noInfo ==>
            && |args| == |b.kind.args|
            && forall i :: 0 <= i < |args| ==> Compatible(args[i], b.kind.args[i]))
    case StructKind(_, _, _, _, orig) => b.kind.StructKind? && b.kind.orig == orig
  }

  /** For every kind except arrays, compatibility is weak compatibility plus equal const
      flags (ctypes.py:78-80). */
  lemma CompatibleIsWeakPlusConst(a: CType, b: CType)
    requires !a.kind.ArrayKind?
    ensures Compatible(a, b) <==> WeakCompat(a, b) && a.isConst == b.isConst
  {
  }

  /** Every type is compatible with itself. */
  lemma {:induction false} CompatibleReflexive(t: CType)
    ensures Compatible(t, t)
    decreases t
  {
    match t.kind
    case VoidKind =>
    case IntegerKind(_, _, _, _) =>
    case PointerKind(arg) => CompatibleReflexive(arg);
    case ArrayKind(elem, _) => CompatibleReflexive(elem);
    case FunctionKind(args, ret, _) =>
      CompatibleReflexive(ret);
      forall i | 0 <= i < |args|
        ensures Compatible(args[i], args[i])
      {
        CompatibleReflexive(args[i]);
      }
    case StructKind(_, _, _, _, _) =>
  }

  /** Compatibility is symmetric, through every level of pointers, arrays and functions. */
  lemma {:induction false} CompatibleSymmetric(a: CType, b: CType)
    requires Compatible(a, b)
    ensures Compatible(b, a)
    decreases a
  {
    match a.kind
    case VoidKind =>
    case IntegerKind(_, _, _, _) =>
    case PointerKind(arg) => CompatibleSymmetric(arg, b.kind.arg);
    case ArrayKind(elem, _) => CompatibleSymmetric(elem, b.kind.elem);
    case FunctionKind(args, ret, noInfo) =>
      CompatibleSymmetric(ret, b.kind.ret);
      if !noInfo && !b.kind.noInfo {
        forall i | 0 <= i < |b.kind.args|
          ensures Compatible(b.kind.args[i], args[i])
        {
          CompatibleSymmetric(args[i], b.kind.args[i]);
        }
      }
    case StructKind(_, _, _, _, _) =>
  }

  /** A pointer is compatible with exactly the pointers of equal qualification whose
      pointees are compatible (ctypes.py:176-178). */
  lemma PointerCompatible(p: CType, q: CType)
    requires p.kind.PointerKind?
    ensures Compatible(p, q) <==> q.kind.PointerKind? && Compatible(p.kind.arg, q.kind.arg) && p.isConst == q.isConst
  {
  }

  /** Two arrays are compatible exactly when their elements are and their lengths agree or
      one is unknown; qualification plays no part (ctypes.py:205-208). */
  lemma ArrayCompatible(a: CType, b: CType)
    requires a.kind.ArrayKind?
    ensures Compatible(a, b) <==>
      b.kind.ArrayKind? && Compatible(a.kind.elem, b.kind.elem) &&
      (a.kind.n.None? || b.kind.n.None? || a.kind.n == b.kind.n)
  {
  }

  /** Unknown lengths make compatibility non-transitive: int[3] ~ int[] ~ int[4], yet int[3]
      and int[4] are not compatible. */
  lemma ArrayCompatibleNotTransitive()
    ensures var a3 := CType(ArrayKind(Integer, Some(3)), false);
            var a := CType(ArrayKind(Integer, None), false);
            var a4 := CType(ArrayKind(Integer, Some(4)), false);
            Compatible(a3, a) && Compatible(a, a4) && !Compatible(a3, a4)
  {
  }

  /** Function types need compatible return types; arity and parameters are compared only
      when both sides carry parameter information (ctypes.py:241-250). */
  lemma FunctionCompatible(f: CType, g: CType)
    requires f.kind.FunctionKind? && g.kind.FunctionKind?
    ensures Compatible(f, g) ==> Compatible(f.kind.ret, g.kind.ret)
    ensures f.kind.noInfo || g.kind.noInfo ==>
      (Compatible(f, g) <==> Compatible(f.kind.ret, g.kind.ret) && f.isConst == g.isConst)
    ensures Compatible(f, g) && !f.kind.noInfo && !g.kind.noInfo ==>
      |f.kind.args| == |g.kind.args| &&
      forall i :: 0 <= i < |f.kind.args| ==> Compatible(f.kind.args[i], g.kind.args[i])
  {
    assert Compatible(f, g) <==> WeakCompat(f, g) && f.isConst == g.isConst;
  }

  /** Integer types are weakly compatible only when they come from the same singleton and
      agree on signedness and the bool flag (ctypes.py:115-118). */
  lemma IntegerWeakCompat(a: CType, b: CType)
    requires a.kind.IntegerKind?
    ensures WeakCompat(a, b) ==>
      b.kind.IntegerKind? && b.kind.orig == a.kind.orig &&
      b.kind.signed == a.kind.signed && b.kind.isBool == a.kind.isBool
  {
  }

  /** Struct compatibility is by declaration identity: identical layouts from different
      declarations are incompatible, and a struct is compatible with any same-qualified copy
      of its own declaration whatever that copy's members (ctypes.py:273-279). */
  lemma StructCompatibleByIdentity(s: CType, t: CType)
    requires s.kind.StructKind? && t.kind.StructKind?
    ensures Compatible(s, t) <==> s.kind.orig == t.kind.orig && s.isConst == t.isConst
  {
  }

  lemma SameLayoutDistinctStructs(members: seq<Member>)
    ensures var s1 := CType(StructKind(Some("s"), Some(members), map[], 1, 100), false);
            var s2 := CType(StructKind(Some("s"), Some(members), map[], 1, 101), false);
            !Compatible(s1, s2) && Compatible(s1, s1)
  {
  }

  /** `make_const`: a copy whose only change is the const flag. */
  function MakeConst(t: CType): (r: CType)
    ensures r.kind == t.kind && r.isConst
  {
    t.(isConst := true)
  }

  /** `make_unqual`: a copy whose only change is a cleared const flag. */
  function MakeUnqual(t: CType): (r: CType)
    ensures r.kind == t.kind && !r.isConst
  {
    t.(isConst := false)
  }

  /** `make_unsigned`, defined only by IntegerCType: a copy that keeps size, bool flag,
      qualification and `_orig`, with signedness cleared. */
  function MakeUnsigned(t: CType): (r: CType)
    requires t.kind.IntegerKind?
    ensures r.kind.IntegerKind? && !r.kind.signed
    ensures r.kind.size == t.kind.size && r.kind.isBool == t.kind.isBool
    ensures r.kind.orig == t.kind.orig && r.isConst == t.isConst
  {
    t.(kind := t.kind.(signed := false))
  }

  /** Qualifying a type keeps it weakly compatible with the original; full compatibility
      then needs the original to be const already, except for arrays, whose `compatible`
      ignores qualification. */
  lemma QualifiedCopies(t: CType)
    ensures !t.kind.ArrayKind? ==> WeakCompat(t, MakeConst(t)) && WeakCompat(t, MakeUnqual(t))
    ensures Compatible(t, MakeConst(t)) <==> t.isConst || t.kind.ArrayKind?
    ensures Compatible(MakeUnqual(t), MakeUnqual(MakeConst(t)))
    ensures SizeOf(MakeConst(t)) == SizeOf(t) && SizeOf(MakeUnqual(t)) == SizeOf(t)
  {
    CompatibleReflexive(t);
    CompatibleReflexive(MakeUnqual(t));
    match t.kind
    case ArrayKind(elem, _) =>
      CompatibleReflexive(elem);
    case _ =>
      assert WeakCompat(t, t) by { CompatibleReflexive(t); }
  }

  /** A copy made unsigned is still tied to its signed original by `_orig`, so it is not
      weakly compatible with the separate `unsigned int` singleton. */
  lemma UnsignedCopyIsNotUnsignInt()
    ensures var u := MakeUnsigned(Integer);
            SizeOf(u) == SizeOf(UnsignInt) && !u.kind.signed &&
            !WeakCompat(u, UnsignInt) && !Compatible(u, Integer)
  {
  }

  /** `get_offset`: the member's entry in the offsets table, or None. */
  function GetOffset(s: CType, member: string): (r: Option<Offset>)
    requires s.kind.StructKind?
    ensures r.Some? <==> member in s.kind.offsets
    ensures r.Some? ==> r.value == s.kind.offsets[member]
  {
    if member in s.kind.offsets then Some(s.kind.offsets[member]) else None
  }

  /** The summed sizes of a member list: the offset of the member that follows it. */
  function MembersSize(members: seq<Member>): nat
    decreases |members|
  {
    if members == [] then 0
    else MembersSize(members[..|members| - 1]) + SizeOf(members[|members| - 1].ctype)
  }

  /** The entries `set_members` writes for a member list, in order, so that a repeated
      name keeps its last entry. */
  function Layout(members: seq<Member>): (m: map<string, Offset>)
    decreases |members|
  {
    if members == [] then map[]
    else
      var init := members[..|members| - 1];
      var last := members[|members| - 1];
      Layout(init)[last.name := Offset(MembersSize(init), last.ctype)]
  }

  /** `set_members`, returning the updated struct type: it records the member list, adds
      one offset entry per member and sets the size to the members' total. */
  method SetMembers(s: CType, members: seq<Member>) returns (r: CType)
    requires s.kind.StructKind?
    ensures r.kind.StructKind? && r.isConst == s.isConst
    ensures r.kind.tag == s.kind.tag && r.kind.orig == s.kind.orig
    ensures r.kind.members == Some(members)
    ensures r.kind.offsets == s.kind.offsets + Layout(members)
    ensures r.kind.size == MembersSize(members)
  {
    var offsets := s.kind.offsets;
    var curOffset: nat := 0;
    var i := 0;
    while i < |members|
      invariant 0 <= i <= |members|
      invariant curOffset == MembersSize(members[..i])
      invariant offsets == s.kind.offsets + Layout(members[..i])
    {
      assert members[..i + 1][..i] == members[..i];
      offsets := offsets[members[i].name := Offset(curOffset, members[i].ctype)];
      curOffset := curOffset + SizeOf(members[i].ctype);
      i := i + 1;
    }
    assert members[..i] == members;
    r := s.(kind := s.kind.(members := Some(members), offsets := offsets, size := curOffset));
  }

  /** With distinct member names every member's offset is the summed size of the members
      before it, and the table holds exactly the member names. */
  lemma {:induction false} LayoutOffsets(members: seq<Member>, k: nat)
    requires k < |members|
    requires forall i, j :: 0 <= i < j < |members| ==> members[i].name != members[j].name
    ensures members[k].name in Layout(members)
    ensures Layout(members)[members[k].name] == Offset(MembersSize(members[..k]), members[k].ctype)
    decreases |members|
  {
    var init := members[..|members| - 1];
    if k < |members| - 1 {
      LayoutOffsets(init, k);
      assert init[..k] == members[..k];
      assert init[k] == members[k];
    } else {
      assert init == members[..k];
    }
  }

  lemma {:induction false} LayoutKeys(members: seq<Member>)
    ensures Layout(members).Keys == set i | 0 <= i < |members| :: members[i].name
    decreases |members|
  {
    if members != [] {
      var init := members[..|members| - 1];
      LayoutKeys(init);
      assert forall i :: 0 <= i < |init| ==> init[i] == members[i];
    }
  }

  /** A struct's size is never less than any single member's size. */
  lemma {:induction false} MembersSizeBound(members: seq<Member>, k: nat)
    requires k < |members|
    ensures MembersSize(members) >= MembersSize(members[..k]) + SizeOf(members[k].ctype)
    decreases |members|
  {
    var init := members[..|members| - 1];
    if k < |members| - 1 {
      MembersSizeBound(init, k);
      assert init[..k] == members[..k];
      assert init[k] == members[k];
    } else {
      assert init == members[..k];
    }
  }
}
