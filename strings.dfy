/** Decimal rendering and reading of integers, as Python's `str(int)` and `int(str)` do them,
    and `sep.join(parts)`. */
module Strings {

  predicate IsDigit(c: char) { '0' <= c <= '9' }

  /** A non-empty run of decimal digits: what `re.match(r'[0-9]+$', s)` accepts. */
  predicate IsDigits(s: string) {
    |s| > 0 && forall i :: 0 <= i < |s| ==> IsDigit(s[i])
  }

  function DigitChar(d: nat): (c: char)
    requires d < 10
    ensures IsDigit(c)
  {
    ['0', '1', '2', '3', '4', '5', '6', '7', '8', '9'][d]
  }

  function DigitValue(c: char): (d: nat)
    requires IsDigit(c)
    ensures d < 10 && DigitChar(d) == c
  {
    (c as int - '0' as int) as nat
  }

  /** `str(n)` for a natural number: no leading zeros, "0" for zero. */
  function NatToString(n: nat): (s: string)
    decreases n
  {
    if n < 10 then [DigitChar(n)] else NatToString(n / 10) + [DigitChar(n % 10)]
  }

  /** `str(i)`: a minus sign in front of the magnitude for a negative number. */
  function IntToString(i: int): (s: string) {
    if i < 0 then "-" + NatToString(-i) else NatToString(i)
  }

  /** `int(s)` for a run of decimal digits. */
  function ParseNat(s: string): (n: nat)
    requires forall i :: 0 <= i < |s| ==> IsDigit(s[i])
    decreases |s|
  {
    if s == [] then 0 else 10 * ParseNat(s[..|s| - 1]) + DigitValue(s[|s| - 1])
  }

  lemma {:induction false} NatToStringDigits(n: nat)
    ensures IsDigits(NatToString(n))
    ensures NatToString(n)[0] != '-'
    decreases n
  {
    if n >= 10 {
      NatToStringDigits(n / 10);
    }
  }

  /** Reading back what `str` wrote gives the number again. */
  lemma {:induction false} ParseNatToString(n: nat)
    ensures IsDigits(NatToString(n))
    ensures ParseNat(NatToString(n)) == n
    decreases n
  {
    NatToStringDigits(n);
    if n >= 10 {
      ParseNatToString(n / 10);
      var s := NatToString(n);
      assert s[..|s| - 1] == NatToString(n / 10);
    }
  }

  /** `str(i)` is a negative number's text exactly when `i` is negative. */
  lemma IntToStringSign(i: int)
    ensures |IntToString(i)| > 0
    ensures (IntToString(i)[0] == '-') <==> i < 0
    ensures i < 0 ==> IntToString(i)[1..] == NatToString(-i)
    ensures i >= 0 ==> IsDigits(IntToString(i))
  {
    if i < 0 { NatToStringDigits(-i); } else { NatToStringDigits(i); }
  }

  predicate IsBinaryDigit(c: char) { c == '0' || c == '1' }

  /** `int('0b' + s, 2)` for a run of binary digits. */
  function ParseBinary(s: string): (n: nat)
    requires forall i :: 0 <= i < |s| ==> IsBinaryDigit(s[i])
    decreases |s|
  {
    if s == [] then 0 else 2 * ParseBinary(s[..|s| - 1]) + (if s[|s| - 1] == '1' then 1 else 0)
  }

  /** `bin(n)[2:]`: the binary digits of a natural number, without leading zeros. */
  function BinaryString(n: nat): (s: string)
    ensures |s| > 0 && forall i :: 0 <= i < |s| ==> IsBinaryDigit(s[i])
    decreases n
  {
    var last := if n % 2 == 1 then '1' else '0';
    if n < 2 then [last] else BinaryString(n / 2) + [last]
  }

  /** Reading back the binary digits gives the number again. */
  lemma {:induction false} ParseBinaryString(n: nat)
    ensures ParseBinary(BinaryString(n)) == n
    decreases n
  {
    if n >= 2 {
      ParseBinaryString(n / 2);
      var s := BinaryString(n);
      assert s[..|s| - 1] == BinaryString(n / 2);
    }
  }

  /** `sep.join(parts)`. */
  function Join(sep: string, parts: seq<string>): (s: string)
    ensures parts == [] ==> s == ""
    ensures |parts| == 1 ==> s == parts[0]
    decreases |parts|
  {
    if parts == [] then ""
    else if |parts| == 1 then parts[0]
    else parts[0] + sep + Join(sep, parts[1..])
  }
}
