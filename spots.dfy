/** Places in the machine where an IL value can live, and their assembly text (spots.py). */
module Spots {
  import opened Wrappers
  import opened Strings

  /** The registers the renderer knows, by their 64-bit names. */
  datatype Register = Rax | Rbx | Rcx | Rdx | Rsi | Rdi | R8 | R9 | R10 | R11

  /** The value of a literal spot: an integer, or text such as a binary literal kept in its
      source spelling. */
  datatype LitValue = IntLit(i: int) | TextLit(text: string)

  /** `Spot`: the spot type together with its detail. */
  datatype Spot =
    | RegisterSpot(reg: Register)
      /** A memory operand: base register name and signed byte offset, e.g. ("rbp", -16). */
    | MemSpot(base: string, offset: int)
    | LiteralSpot(value: LitValue)

  /** The register table: the names at sizes 8, 4, 2 and 1, in that order. */
  function RegisterNames(r: Register): (names: seq<string>)
    ensures |names| == 4
  {
    match r
    case Rax => ["rax", "eax", "ax", "al"]
    case Rbx => ["rbx", "ebx", "bx", "bl"]
    case Rcx => ["rcx", "ecx", "cx", "cl"]
    case Rdx => ["rdx", "edx", "dx", "dl"]
    case Rsi => ["rsi", "esi", "si", "sil"]
    case Rdi => ["rdi", "edi", "di", "dil"]
    case R8 => ["r8", "r8d", "r8w", "r8b"]
    case R9 => ["r9", "r9d", "r9w", "r9b"]
    case R10 => ["r10", "r10d", "r10w", "r10b"]
    case R11 => ["r11", "r11d", "r11w", "r11b"]
  }

  /** The table column for an operand size, for the sizes registers come in. */
  function SizeIndex(size: int): (k: Option<nat>)
    ensures k.Some? <==> size in {1, 2, 4, 8}
    ensures k.Some? ==> k.value < 4
  {
    if size == 8 then Some(0)
    else if size == 4 then Some(1)
    else if size == 2 then Some(2)
    else if size == 1 then Some(3)
    else None
  }

  /** The size keyword of a memory operand; empty for any other size. */
  function MemPrefix(size: int): (r: string)
    ensures r != "" <==> size in {1, 2, 4, 8}
  {
    if size == 1 then "BYTE"
    else if size == 2 then "WORD"
    else if size == 4 then "DWORD"
    else if size == 8 then "QWORD"
    else ""
  }

  /** The displacement inside the brackets of a memory operand. */
  function OffsetText(offset: int): (r: string)
    ensures r == "" <==> offset == 0
    ensures offset > 0 ==> r[0] == '+'
    ensures offset < 0 ==> r[0] == '-'
  {
    if offset > 0 then "+" + NatToString(offset)
    else if offset == 0 then ""
    else "-" + NatToString(-offset)
  }

  /** `str()` of a literal's value. */
  function LitText(v: LitValue): string {
    match v
    case IntLit(i) => IntToString(i)
    case TextLit(t) => t
  }

  const UnsupportedCombo := "Unsupported spot_type/size combo"

  /** `asm_str`: the spot as an operand of the given size, or the error for a register at a
      size it does not come in. */
  function AsmStr(s: Spot, size: int): (r: Result<string, string>)
    ensures r.Err? <==> s.RegisterSpot? && size !in {1, 2, 4, 8}
    ensures r.Err? ==> r.error == UnsupportedCombo
    ensures s.RegisterSpot? && r.Ok? ==> r.value in RegisterNames(s.reg)
    ensures s.MemSpot? ==> r == Ok(MemPrefix(size) + " [" + s.base + OffsetText(s.offset) + "]")
    ensures s.LiteralSpot? ==> r == Ok(LitText(s.value))
  {
    match s
    case RegisterSpot(reg) =>
      var k := SizeIndex(size);
      if k.Some? then Ok(RegisterNames(reg)[k.value]) else Err(UnsupportedCombo)
    case MemSpot(base, offset) =>
      Ok(MemPrefix(size) + " [" + base + OffsetText(offset) + "]")
    case LiteralSpot(v) => Ok(LitText(v))
  }

  /** A register renders as the 8/4/2/1-byte column of its table row. */
  lemma RegisterColumns(r: Register)
    ensures AsmStr(RegisterSpot(r), 8) == Ok(RegisterNames(r)[0])
    ensures AsmStr(RegisterSpot(r), 4) == Ok(RegisterNames(r)[1])
    ensures AsmStr(RegisterSpot(r), 2) == Ok(RegisterNames(r)[2])
    ensures AsmStr(RegisterSpot(r), 1) == Ok(RegisterNames(r)[3])
    ensures AsmStr(RegisterSpot(Rax), 4) == Ok("eax")
  {
  }

  /** No two registers, and no two sizes of one register, share a name, so a rendered
      register names one register at one size. */
  lemma RegisterNamesDistinct(r1: Register, r2: Register, i: nat, j: nat)
    requires i < 4 && j < 4
    requires RegisterNames(r1)[i] == RegisterNames(r2)[j]
    ensures r1 == r2 && i == j
  {
  }

  /** The memory operand of the examples in the source's documentation. */
  lemma MemExample()
    ensures AsmStr(MemSpot("rbp", -16), 4) == Ok("DWORD [rbp-16]")
    ensures AsmStr(MemSpot("rbp", 0), 8) == Ok("QWORD [rbp]")
    ensures AsmStr(MemSpot("rbp", 8), 3) == Ok(" [rbp+8]")
    ensures AsmStr(LiteralSpot(IntLit(14)), 4) == Ok("14")
  {
    assert NatToString(1) == "1";
    assert NatToString(16) == "16";
    assert NatToString(8) == "8";
    assert NatToString(14) == "14";
    assert OffsetText(-16) == "-16";
    assert OffsetText(8) == "+8";
    assert "DWORD" + " [" + "rbp" + "-16" + "]" == "DWORD [rbp-16]";
    assert "QWORD" + " [" + "rbp" + "" + "]" == "QWORD [rbp]";
    assert "" + " [" + "rbp" + "+8" + "]" == " [rbp+8]";
  }

  /** The displacement text determines the offset. */
  lemma {:induction false} OffsetTextInjective(o1: int, o2: int)
    requires OffsetText(o1) == OffsetText(o2)
    ensures o1 == o2
  {
    var t := OffsetText(o1);
    if o1 != 0 && o2 != 0 {
      assert t[0] == (if o1 > 0 then '+' else '-');
      assert t[0] == (if o2 > 0 then '+' else '-');
      var n1 := if o1 > 0 then o1 else -o1;
      var n2 := if o2 > 0 then o2 else -o2;
      assert t[1..] == NatToString(n1);
      assert t[1..] == NatToString(n2);
      NatToStringDigits(n1);
      ParseNatToString(n1);
      ParseNatToString(n2);
    }
  }

  /** Two memory operands of one base and size render alike only when their offsets are equal,
      so distinct stack slots never print as the same operand. */
  lemma MemRenderingInjective(base: string, o1: int, o2: int, size: int)
    requires AsmStr(MemSpot(base, o1), size) == AsmStr(MemSpot(base, o2), size)
    ensures o1 == o2
  {
    var head := MemPrefix(size) + " [" + base;
    var s1 := head + OffsetText(o1) + "]";
    var s2 := head + OffsetText(o2) + "]";
    assert s1 == s2;
    assert OffsetText(o1) == s1[|head|..|s1| - 1];
    assert OffsetText(o2) == s2[|head|..|s2| - 1];
    OffsetTextInjective(o1, o2);
  }

  /** A literal renders the same at every size, and never fails. */
  lemma LiteralIgnoresSize(v: LitValue, size1: int, size2: int)
    ensures AsmStr(LiteralSpot(v), size1) == AsmStr(LiteralSpot(v), size2)
    ensures AsmStr(LiteralSpot(v), size1).Ok?
  {
  }

  /** The spot-type number of `Spot`. */
  function SpotType(s: Spot): (n: nat)
    ensures 1 <= n <= 3
  {
    match s
    case RegisterSpot(_) => 1
    case MemSpot(_, _) => 2
    case LiteralSpot(_) => 3
  }

  /** The detail of a spot, as the one value `__eq__` and `__hash__` look at besides the type. */
  datatype Detail = RegDetail(name: string) | MemDetail(base: string, offset: int) | LitDetail(value: LitValue)

  function SpotDetail(s: Spot): Detail {
    match s
    case RegisterSpot(reg) => RegDetail(RegisterNames(reg)[0])
    case MemSpot(base, offset) => MemDetail(base, offset)
    case LiteralSpot(v) => LitDetail(v)
  }

  /** `__eq__`: the pairs (spot type, detail) are equal. */
  predicate SpotEq(a: Spot, b: Spot) {
    (SpotType(a), SpotDetail(a)) == (SpotType(b), SpotDetail(b))
  }

  /** `__hash__`, up to Python's hash of the pair: the pair itself. */
  function SpotKey(s: Spot): (nat, Detail) {
    (SpotType(s), SpotDetail(s))
  }

  /** Spot equality is exactly equality of spots, and equal spots hash alike, so spots can be
      set members and dictionary keys. */
  lemma SpotEqIsIdentityOfContent(a: Spot, b: Spot)
    ensures SpotEq(a, b) <==> a == b
    ensures SpotEq(a, b) ==> SpotKey(a) == SpotKey(b)
  {
    if SpotEq(a, b) && a.RegisterSpot? {
      RegisterNamesDistinct(a.reg, b.reg, 0, 0);
    }
  }

  /** The predefined register spots, in the source's order (rbx is not among them). */
  const Registers: seq<Spot> :=
    [RegisterSpot(Rax), RegisterSpot(Rcx), RegisterSpot(Rdx), RegisterSpot(Rsi), RegisterSpot(Rdi),
     RegisterSpot(R8), RegisterSpot(R9), RegisterSpot(R10), RegisterSpot(R11)]

  lemma RegistersDistinct()
    ensures |Registers| == 9
    ensures forall i, j :: 0 <= i < j < |Registers| ==> Registers[i] != Registers[j]
    ensures RegisterSpot(Rbx) !in Registers
  {
  }
}
