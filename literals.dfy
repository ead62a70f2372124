/** Integer literals (`NumberNode.make_code_raw` in tree.py): the value a number node's text
    stands for, and the type that value gets. */
module Literals {
  import opened Wrappers
  import opened Strings
  import opened Errors
  import opened CTypes

  /** The length of the run of binary digits a text starts with. */
  function BinaryRun(s: string): (n: nat)
    ensures n <= |s|
    ensures forall i :: 0 <= i < n ==> IsBinaryDigit(s[i])
    ensures n < |s| ==> !IsBinaryDigit(s[n])
    decreases |s|
  {
    if s == [] || !IsBinaryDigit(s[0]) then 0 else 1 + BinaryRun(s[1..])
  }

  /** What `re.match(r'[01]+B', s)` accepts: binary digits and a `B`, at the start of the
      text and possibly followed by more. */
  predicate BinaryForm(s: string) {
    var n := BinaryRun(s);
    1 <= n < |s| && s[n] == 'B'
  }

  /** The texts `int(s)` reads as decimal here: digits with an optional sign. */
  predicate DecimalForm(s: string) {
    IsDigits(s) || (|s| >= 2 && (s[0] == '-' || s[0] == '+') && IsDigits(s[1..]))
  }

  /** What `int` raises for a text it cannot read. */
  const InvalidLiteral := "ValueError: invalid literal for int()"

  /** The value of a number node's text. A text in binary form is read in base 2 without its
      last character, which fails unless that character is the `B` the form ends with; any
      other text is read in base 10. */
  function NumberValue(s: string): (r: Result<int, Abort>)
    ensures r.Ok? <==> if BinaryForm(s) then BinaryRun(s) == |s| - 1 else DecimalForm(s)
    ensures r.Err? ==> r.error == Crashed(InvalidLiteral)
    ensures r.Ok? && (BinaryForm(s) || IsDigits(s) || s[0] == '+') ==> r.value >= 0
    ensures r.Ok? && !BinaryForm(s) && s[0] == '-' ==> r.value <= 0
  {
    if BinaryForm(s) then
      if BinaryRun(s) == |s| - 1 then Ok(ParseBinary(s[..|s| - 1])) else Err(Crashed(InvalidLiteral))
    else if IsDigits(s) then Ok(ParseNat(s))
    else if |s| >= 2 && s[0] == '-' && IsDigits(s[1..]) then Ok(-(ParseNat(s[1..]) as int))
    else if |s| >= 2 && s[0] == '+' && IsDigits(s[1..]) then Ok(ParseNat(s[1..]))
    else Err(Crashed(InvalidLiteral))
  }

  /** A run of decimal digits is never in binary form: a `B` cannot follow its binary prefix. */
  lemma DigitsNotBinary(s: string)
    requires IsDigits(s)
    ensures !BinaryForm(s)
  {
    var n := BinaryRun(s);
    if n < |s| {
      assert IsDigit(s[n]);
    }
  }

  /** Reading the decimal text of any integer gives the integer back. */
  lemma DecimalRoundTrip(v: int)
    ensures NumberValue(IntToString(v)) == Ok(v)
  {
    var s := IntToString(v);
    if v < 0 {
      ParseNatToString(-v);
      assert s[0] == '-' && s[1..] == NatToString(-v);
      assert BinaryRun(s) == 0;
    } else {
      ParseNatToString(v);
      DigitsNotBinary(s);
    }
  }

  /** Reading the binary text `bin(n)[2:] + 'B'` gives the number back. */
  lemma BinaryRoundTrip(n: nat)
    ensures NumberValue(BinaryString(n) + "B") == Ok(n)
  {
    var digits := BinaryString(n);
    var s := digits + "B";
    BinaryRunOfDigits(digits, "B");
    assert s[..|s| - 1] == digits;
    ParseBinaryString(n);
  }

  /** The binary run of binary digits followed by a non-digit is exactly those digits. */
  lemma {:induction false} BinaryRunOfDigits(digits: string, rest: string)
    requires forall i :: 0 <= i < |digits| ==> IsBinaryDigit(digits[i])
    requires rest != [] && !IsBinaryDigit(rest[0])
    ensures BinaryRun(digits + rest) == |digits|
    decreases |digits|
  {
    if digits != [] {
      BinaryRunOfDigits(digits[1..], rest);
      assert (digits + rest)[1..] == digits[1..] + rest;
    }
  }

  /** A text that starts like a binary literal but goes on after its `B` cannot be read. */
  lemma BinaryPrefixOnly()
    ensures NumberValue("10B1") == Err(Crashed(InvalidLiteral))
    ensures NumberValue("101B") == Ok(5)
  {
    assert BinaryRun("B1") == 0;
    assert BinaryRun("0B1") == 1;
    assert BinaryRun("10B1") == 2;
    assert BinaryRun("B") == 0;
    assert BinaryRun("1B") == 1;
    assert BinaryRun("01B") == 2;
    assert BinaryRun("101B") == 3;
    assert "101B"[..3] == "101" && "101"[..2] == "10" && "10"[..1] == "1";
    assert ParseBinary("101") == 5;
  }

  function Pow2(n: nat): (p: int)
    ensures p >= 1
  {
    if n == 0 then 1 else 2 * Pow2(n - 1)
  }

  /** The values a signed two's-complement integer type of `size` bytes can represent. */
  predicate FitsSigned(v: int, size: nat)
    requires size >= 1
  {
    -Pow2(8 * size - 1) <= v < Pow2(8 * size - 1)
  }

  /** The limits ctypes.py writes out are the two's-complement ranges of 4 and 8 bytes. */
  lemma LimitsAreTwosComplement()
    ensures IntMin == -Pow2(31) && IntMax == Pow2(31) - 1
    ensures LongMin == -Pow2(63) && LongMax == Pow2(63) - 1
  {
    Pow2Of32();
    assert Pow2(32) == 2 * Pow2(31);
    Pow2Add(32, 32);
    assert Pow2(64) == 18446744073709551616;
    assert Pow2(64) == 2 * Pow2(63);
  }

  lemma Pow2Of32()
    ensures Pow2(32) == 4294967296
  {
    assert Pow2(4) == 16;
    Pow2Add(4, 4);
    Pow2Add(8, 8);
    Pow2Add(16, 16);
  }

  lemma {:induction false} Pow2Add(a: nat, b: nat)
    ensures Pow2(a + b) == Pow2(a) * Pow2(b)
    decreases a
  {
    if a > 0 {
      Pow2Add(a - 1, b);
    }
  }

  /** The type a literal's value gets: `int` when it fits an int, `long` when it fits only a
      long, and none when it fits neither. */
  function LiteralType(v: int): (r: Option<CType>)
    ensures r.Some? ==> r.value == Integer || r.value == LongInt
    ensures r.Some? ==> FitsSigned(v, SizeOf(r.value))
    ensures r == Some(Integer) <==> FitsSigned(v, SizeOf(Integer))
    ensures r.None? <==> !FitsSigned(v, SizeOf(LongInt))
  {
    LimitsAreTwosComplement();
    if IntMin <= v <= IntMax then Some(Integer)
    else if LongMin <= v <= LongMax then Some(LongInt)
    else None
  }

  /** The boundary literals: the largest int is an int, one more is a long, and one more than
      the largest long has no type. */
  lemma LiteralTypeBoundaries()
    ensures LiteralType(2147483647) == Some(Integer)
    ensures LiteralType(2147483648) == Some(LongInt)
    ensures LiteralType(-2147483648) == Some(Integer)
    ensures LiteralType(9223372036854775807) == Some(LongInt)
    ensures LiteralType(9223372036854775808) == None
  {
  }
}
