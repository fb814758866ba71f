/**
 Decimal numerals: writing a number, zero-padding it, and reading one
 back the way an unsigned 32-bit parse does.
 */
module Digits {
  import opened Common

  predicate IsDigit(c: char) {
    '0' <= c <= '9'
  }

  predicate AllDigits(s: string) {
    forall i :: 0 <= i < |s| ==> IsDigit(s[i])
  }

  function DigitChar(d: nat): char
    requires d < 10
  {
    ('0' as int + d) as char
  }

  function DigitValue(c: char): nat
    requires IsDigit(c)
  {
    c as int - '0' as int
  }

  function Numeral(n: nat): (s: string)
    ensures |s| >= 1 && AllDigits(s)
  {
    if n < 10 then [DigitChar(n)] else Numeral(n / 10) + [DigitChar(n % 10)]
  }

  /** Zeros in front, up to `width` characters. */
  function ZeroPad(s: string, width: nat): (p: string)
    ensures |p| == if |s| >= width then |s| else width
    ensures AllDigits(s) ==> AllDigits(p)
    decreases width - |s|
  {
    if |s| >= width then s else ZeroPad("0" + s, width)
  }

  function NumeralValue(s: string): nat
    requires AllDigits(s)
  {
    if s == "" then 0 else 10 * NumeralValue(s[..|s| - 1]) + DigitValue(s[|s| - 1])
  }

  /** An optional plus sign, then at least one digit, and the value must fit in 32 bits. */
  function ParseU32(s: string): Option<nat> {
    var body := if s != "" && s[0] == '+' then s[1..] else s;
    if body == "" || !AllDigits(body) || NumeralValue(body) > U32_MAX then None else Some(NumeralValue(body))
  }

  lemma {:induction false} NumeralRoundTrip(n: nat)
    ensures NumeralValue(Numeral(n)) == n
  {
    if n >= 10 {
      NumeralRoundTrip(n / 10);
      var s := Numeral(n);
      assert s[..|s| - 1] == Numeral(n / 10);
    } else {
      assert Numeral(n)[..0] == "";
    }
  }

  lemma {:induction false} LeadingZero(s: string)
    requires AllDigits(s)
    ensures NumeralValue("0" + s) == NumeralValue(s)
  {
    var t := "0" + s;
    if s == "" {
      assert t[..0] == "";
    } else {
      LeadingZero(s[..|s| - 1]);
      assert t[..|t| - 1] == "0" + s[..|s| - 1];
    }
  }

  lemma {:induction false} PaddingKeepsValue(s: string, width: nat)
    requires AllDigits(s)
    ensures NumeralValue(ZeroPad(s, width)) == NumeralValue(s)
    decreases width - |s|
  {
    if |s| < width {
      LeadingZero(s);
      PaddingKeepsValue("0" + s, width);
    }
  }

  /** Every number up to 4294967295 is read back, with or without a plus sign, and no larger one. */
  lemma ReadBack(n: nat)
    ensures ParseU32(Numeral(n)) == ParseU32("+" + Numeral(n)) == if n <= 4294967295 then Some(n) else None
  {
    NumeralRoundTrip(n);
    assert Numeral(n)[0] != '+';
    var plus := "+" + Numeral(n);
    assert plus[1..] == Numeral(n);
  }
}
