/** Fixed-width integers and the decimal and hexadecimal text forms the service
    writes and reads: `int` arithmetic, Int32.ToString(), int.Parse(string), and
    the lowercase hex digits of Guid.ToString("N"). */
module Numerals {
  import opened Options

  const Int32Min := -0x8000_0000
  const Int32Max := 0x7FFF_FFFF

  /** C# `int`. */
  type Int32 = x: int | -0x8000_0000 <= x <= 0x7FFF_FFFF

  /** `x++` on a C# `int` in an unchecked context (the C# default): the result is
      x + 1 modulo 2^32, so int.MaxValue steps to int.MinValue. */
  function Increment32(x: Int32): (r: Int32)
    ensures (r - (x + 1)) % 0x1_0000_0000 == 0
    ensures x < Int32Max ==> r == x + 1
  {
    if x == Int32Max then Int32Min else x + 1
  }

  // ---------------------------------------------------------------- decimal

  predicate IsDigit(c: char)
  {
    '0' <= c <= '9'
  }

  predicate AllDigits(s: string)
  {
    forall i :: 0 <= i < |s| ==> IsDigit(s[i])
  }

  function DigitChar(d: nat): (c: char)
    requires d < 10
    ensures IsDigit(c)
  {
    ('0' as int + d) as char
  }

  function DigitValue(c: char): (d: nat)
    requires IsDigit(c)
    ensures d < 10 && DigitChar(d) == c
  {
    c as int - '0' as int
  }

  /** The decimal digits of `n`, most significant first, without leading zeros. */
  function NatToDecimal(n: nat): (s: string)
    ensures |s| > 0 && AllDigits(s)
    decreases n
  {
    if n < 10 then [DigitChar(n)] else NatToDecimal(n / 10) + [DigitChar(n % 10)]
  }

  /** The number a string of decimal digits denotes. */
  function DecimalValue(s: string): nat
    requires AllDigits(s)
    decreases |s|
  {
    if s == [] then 0 else DecimalValue(s[..|s| - 1]) * 10 + DigitValue(s[|s| - 1])
  }

  lemma {:induction false} DecimalRoundTrip(n: nat)
    ensures DecimalValue(NatToDecimal(n)) == n
    decreases n
  {
    if n >= 10 {
      var s := NatToDecimal(n);
      assert s[..|s| - 1] == NatToDecimal(n / 10);
      DecimalRoundTrip(n / 10);
    }
  }

  /** Int32.ToString() under the invariant culture: an optional '-' and the digits. */
  function FormatInt32(i: int): (s: string)
    ensures |s| > 0 && (s[0] == '-' <==> i < 0)
    ensures i >= 0 ==> AllDigits(s) && DecimalValue(s) == i
    ensures i < 0 ==> AllDigits(s[1..]) && DecimalValue(s[1..]) == -i
  {
    if i < 0 then
      DecimalRoundTrip(-i);
      "-" + NatToDecimal(-i)
    else
      DecimalRoundTrip(i);
      NatToDecimal(i)
  }

  /** The characters int.Parse skips before and after the number
      (NumberStyles.AllowLeadingWhite and AllowTrailingWhite). */
  predicate IsParseWhite(c: char)
  {
    c == ' ' || '\t' <= c <= '\r'
  }

  predicate AllParseWhite(s: string)
  {
    forall i :: 0 <= i < |s| ==> IsParseWhite(s[i])
  }

  /** `s` without its leading parse-white characters. */
  function TrimStart(s: string): string
    decreases |s|
  {
    if s != [] && IsParseWhite(s[0]) then TrimStart(s[1..]) else s
  }

  /** `s` without its trailing parse-white characters. */
  function TrimEnd(s: string): string
    decreases |s|
  {
    if s != [] && IsParseWhite(s[|s| - 1]) then TrimEnd(s[..|s| - 1]) else s
  }

  /** TrimStart leaves a suffix of `s` that does not start with white space, and
      everything it cuts off is white space. */
  lemma {:induction false} TrimStartCuts(s: string)
    ensures var r := TrimStart(s);
            && |r| <= |s| && r == s[|s| - |r|..]
            && AllParseWhite(s[..|s| - |r|])
            && (r == [] || !IsParseWhite(r[0]))
    decreases |s|
  {
    if s != [] && IsParseWhite(s[0]) {
      TrimStartCuts(s[1..]);
      var r := TrimStart(s[1..]);
      assert s[1..][..|s[1..]| - |r|] == s[1..|s| - |r|];
      assert s[..|s| - |r|] == [s[0]] + s[1..|s| - |r|];
    }
  }

  /** TrimEnd leaves a prefix of `s` that does not end with white space, and
      everything it cuts off is white space. */
  lemma {:induction false} TrimEndCuts(s: string)
    ensures var r := TrimEnd(s);
            && |r| <= |s| && r == s[..|r|]
            && AllParseWhite(s[|r|..])
            && (r == [] || !IsParseWhite(r[|r| - 1]))
    decreases |s|
  {
    if s != [] && IsParseWhite(s[|s| - 1]) {
      var p := s[..|s| - 1];
      TrimEndCuts(p);
      var r := TrimEnd(p);
      assert p[|r|..] == s[|r|..|s| - 1];
      assert s[|r|..] == s[|r|..|s| - 1] + [s[|s| - 1]];
    }
  }

  /** int.Parse(string) under the invariant culture (NumberStyles.Integer): white space
      around, an optional leading '+' or '-', then at least one ASCII digit. None stands
      for the FormatException or OverflowException it throws otherwise. */
  function ParseInt32(s: string): Option<Int32>
  {
    ParseTrimmed(TrimEnd(TrimStart(s)))
  }

  /** int.Parse of empty or all-white text throws FormatException. */
  lemma ParseBlankFails(s: string)
    requires AllParseWhite(s)
    ensures ParseInt32(s).None?
  {
    TrimStartCuts(s);
  }

  /** int.Parse reads a plain numeral as its value, and throws OverflowException
      beyond int.MaxValue. */
  lemma ParseNumeral(s: string)
    requires s != [] && AllDigits(s)
    ensures ParseInt32(s) == if DecimalValue(s) <= Int32Max then Some(DecimalValue(s)) else None
  {
    TrimLeavesUnpadded(s);
  }

  /** int.Parse reads '-' and digits as the negated value, and throws OverflowException
      below int.MinValue. */
  lemma ParseNegativeNumeral(s: string)
    requires |s| > 1 && s[0] == '-' && AllDigits(s[1..])
    ensures ParseInt32(s) == if -(DecimalValue(s[1..]) as int) >= Int32Min
                             then Some(-(DecimalValue(s[1..]) as int)) else None
  {
    assert IsDigit(s[1..][|s| - 2]);
    TrimLeavesUnpadded(s);
  }

  /** The number itself, once the white space around it is gone. */
  function ParseTrimmed(t: string): Option<Int32>
  {
    if t == [] then None
    else
      var digits := if t[0] == '-' || t[0] == '+' then t[1..] else t;
      if digits == [] || !AllDigits(digits) then None
      else
        var magnitude: int := DecimalValue(digits);
        var value: int := if t[0] == '-' then -magnitude else magnitude;
        if Int32Min <= value <= Int32Max then Some(value) else None
  }

  lemma FormatHasNoParseWhite(i: int)
    ensures var s := FormatInt32(i); |s| > 0 && !IsParseWhite(s[0]) && !IsParseWhite(s[|s| - 1])
  {
  }

  lemma TrimLeavesUnpadded(s: string)
    requires |s| > 0 && !IsParseWhite(s[0]) && !IsParseWhite(s[|s| - 1])
    ensures TrimEnd(TrimStart(s)) == s
  {
  }

  /** int.Parse reads back exactly what Int32.ToString() wrote. */
  lemma ParseFormatRoundTrip(i: Int32)
    ensures ParseInt32(FormatInt32(i)) == Some(i)
  {
    var s := FormatInt32(i);
    FormatHasNoParseWhite(i);
    TrimLeavesUnpadded(s);
    if i < 0 {
      var n: nat := -(i as int);
      DecimalRoundTrip(n);
      assert s[1..] == NatToDecimal(n);
    } else {
      DecimalRoundTrip(i);
    }
  }

  // ---------------------------------------------------------------- hexadecimal

  function Pow16(width: nat): nat
  {
    if width == 0 then 1 else 16 * Pow16(width - 1)
  }

  predicate IsLowerHex(c: char)
  {
    '0' <= c <= '9' || 'a' <= c <= 'f'
  }

  predicate AllLowerHex(s: string)
  {
    forall i :: 0 <= i < |s| ==> IsLowerHex(s[i])
  }

  function HexChar(d: nat): (c: char)
    requires d < 16
    ensures IsLowerHex(c)
  {
    if d < 10 then ('0' as int + d) as char else ('a' as int + (d - 10)) as char
  }

  function HexValue(c: char): (d: nat)
    requires IsLowerHex(c)
    ensures d < 16 && HexChar(d) == c
  {
    if c <= '9' then c as int - '0' as int else c as int - 'a' as int + 10
  }

  /** The low `width` hex digits of `n`, lowercase, most significant first (for
      n < 16^width: format "x" padded to `width`). */
  function Hex(n: nat, width: nat): (s: string)
    ensures |s| == width && AllLowerHex(s)
  {
    if width == 0 then [] else Hex(n / 16, width - 1) + [HexChar(n % 16)]
  }

  /** The number a string of lowercase hex digits denotes. */
  function HexToNat(s: string): nat
    requires AllLowerHex(s)
    decreases |s|
  {
    if s == [] then 0 else HexToNat(s[..|s| - 1]) * 16 + HexValue(s[|s| - 1])
  }

  lemma {:induction false} HexRoundTrip(n: nat, width: nat)
    requires n < Pow16(width)
    ensures HexToNat(Hex(n, width)) == n
    decreases width
  {
    if width > 0 {
      var s := Hex(n, width);
      assert s[..|s| - 1] == Hex(n / 16, width - 1);
      HexRoundTrip(n / 16, width - 1);
    }
  }
}
