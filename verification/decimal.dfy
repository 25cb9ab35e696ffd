/** The base-10 text fmt.Sprint gives an integer, and its inverse. */
module Decimal {

  predicate IsDigit(c: char) { '0' <= c <= '9' }

  function DigitChar(d: nat): char
    requires d < 10
  {
    ('0' as int + d) as char
  }

  function DigitValue(c: char): int {
    c as int - '0' as int
  }

  /** Base-10 digits of n, most significant first, without leading zeros. */
  function NatText(n: nat): (r: string)
    ensures |r| >= 1
    ensures forall i | 0 <= i < |r| :: IsDigit(r[i])
    ensures r[0] == '0' ==> r == "0"
    decreases n
  {
    if n < 10 then [DigitChar(n)] else NatText(n / 10) + [DigitChar(n % 10)]
  }

  /** Canonical decimal text: an optional minus sign, then at least one digit,
      no leading zero, and no negative zero. */
  predicate IsCanonical(s: string) {
    var digits := if |s| > 0 && s[0] == '-' then s[1..] else s;
    && |digits| >= 1
    && (forall i | 0 <= i < |digits| :: IsDigit(digits[i]))
    && (digits[0] == '0' ==> s == "0")
  }

  /** fmt.Sprint of an integer: "-" followed by the digits of its magnitude
      when negative, the digits alone otherwise. */
  function IntText(v: int): (r: string)
    ensures IsCanonical(r)
    ensures v < 0 <==> r[0] == '-'
  {
    if v < 0 then "-" + NatText(-v) else NatText(v)
  }

  /** Reads a string of digits as a natural number. */
  function ParseNat(s: string): int
    decreases |s|
  {
    if s == [] then 0 else ParseNat(s[..|s| - 1]) * 10 + DigitValue(s[|s| - 1])
  }

  /** Reads canonical decimal text back as an integer. */
  function ParseInt(s: string): int
    requires IsCanonical(s)
  {
    if s[0] == '-' then -ParseNat(s[1..]) else ParseNat(s)
  }

  lemma {:induction false} ParseNatText(n: nat)
    ensures ParseNat(NatText(n)) == n
    decreases n
  {
    if n >= 10 {
      var t := NatText(n);
      assert t[..|t| - 1] == NatText(n / 10);
      ParseNatText(n / 10);
    }
  }

  /** Reading the text back gives the number: the rendering loses nothing. */
  lemma ParseIntText(v: int)
    ensures ParseInt(IntText(v)) == v
  {
    if v < 0 {
      assert IntText(v)[1..] == NatText(-v);
      ParseNatText(-v);
    } else {
      ParseNatText(v);
    }
  }

  /** Distinct integers have distinct texts, so the fingerprint of an
      integer determines nothing less than the integer's text does. */
  lemma IntTextInjective(a: int, b: int)
    ensures IntText(a) == IntText(b) ==> a == b
  {
    ParseIntText(a);
    ParseIntText(b);
  }
}
