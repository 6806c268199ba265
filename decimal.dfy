// Decimal text of unsigned integers: Rust's `{}` formatting of integers and
// `str::parse::<u32>()`, which the error messages, event details and command-line
// overrides rely on.
module Decimal {
  import opened Wrappers
  import opened Ints

  predicate IsDigit(c: char) {
    '0' <= c <= '9'
  }

  function DigitChar(d: nat): (c: char)
    requires d < 10
    ensures IsDigit(c) && c as int - '0' as int == d
  {
    ('0' as int + d) as char
  }

  predicate AllDigits(s: string) {
    forall i :: 0 <= i < |s| ==> IsDigit(s[i])
  }

  /** The `{}` formatting of an unsigned integer: no sign, no leading zeros. */
  function NatToString(n: nat): (s: string)
    ensures |s| > 0 && AllDigits(s)
    ensures |s| > 1 ==> s[0] != '0'
  {
    if n < 10 then [DigitChar(n)] else NatToString(n / 10) + [DigitChar(n % 10)]
  }

  /** The value of a string of decimal digits. */
  function DigitsValue(s: string): nat
    requires AllDigits(s)
  {
    if |s| == 0 then 0
    else
      assert IsDigit(s[|s| - 1]);
      DigitsValue(s[..|s| - 1]) * 10 + (s[|s| - 1] as int - '0' as int)
  }

  /**
   * `s.parse::<u32>()`: an optional `+`, then at least one decimal digit and nothing else,
   * with a value that fits in 32 bits.
   */
  function ParseU32(s: string): (r: Option<u32>)
    ensures r.Some? ==> |s| > 0
  {
    var digits := if |s| > 0 && s[0] == '+' then s[1..] else s;
    if |digits| == 0 || !AllDigits(digits) then None
    else
      var v := DigitsValue(digits);
      if v <= U32_MAX then Some(v) else None
  }

  lemma {:induction false} DigitsOfNatToString(n: nat)
    ensures DigitsValue(NatToString(n)) == n
  {
    var s := NatToString(n);
    if n >= 10 {
      DigitsOfNatToString(n / 10);
      assert s[..|s| - 1] == NatToString(n / 10);
    }
  }

  /** Formatting an unsigned 32-bit value and parsing it back gives the value. */
  lemma ParseFormatRoundTrip(n: u32)
    ensures ParseU32(NatToString(n)) == Some(n)
  {
    DigitsOfNatToString(n);
  }

  /**
   * A number printed after text that ends in a non-digit can be read back: the digits that
   * end the string are exactly the number's.
   */
  lemma NumberAfterText(x: string, a: nat, y: string, b: nat)
    requires |x| > 0 && !IsDigit(x[|x| - 1]) && |y| > 0 && !IsDigit(y[|y| - 1])
    requires x + NatToString(a) == y + NatToString(b)
    ensures x == y && a == b
  {
    var s, na, nb := x + NatToString(a), NatToString(a), NatToString(b);
    assert forall k :: |x| <= k < |s| ==> IsDigit(s[k]);
    assert forall k :: |y| <= k < |s| ==> IsDigit(s[k]);
    assert !IsDigit(s[|x| - 1]) && !IsDigit(s[|y| - 1]);
    assert |x| == |y|;
    assert x == s[..|x|] == y;
    assert na == s[|x|..] == nb;
    DigitsOfNatToString(a);
    DigitsOfNatToString(b);
  }

  /** Two strings that end in the same text agree before it. */
  lemma SameBefore(x: string, y: string, t: string)
    requires x + t == y + t
    ensures x == y
  {
    assert x == (x + t)[..|x|];
  }

  lemma ParseExamples()
    ensures ParseU32("") == None && ParseU32("+") == None && ParseU32("-1") == None
    ensures ParseU32("12a") == None
  {
    assert !IsDigit("-1"[0]);
    assert !IsDigit("12a"[2]);
  }
}
