/** Character classes used by the validators' patterns, and lower-casing. */
module Ascii {

  predicate IsUpper(c: char) { 'A' <= c <= 'Z' }

  /** The regular-expression class `[a-z]`. */
  predicate IsLetter(c: char) { 'a' <= c <= 'z' }

  /** The regular-expression class `[0-9a-f]`. */
  predicate IsHexDigit(c: char) { '0' <= c <= '9' || 'a' <= c <= 'f' }

  /** A hexadecimal digit in either case: `[0-9a-fA-F]`. */
  predicate IsHexDigitAnyCase(c: char) { IsHexDigit(c) || 'A' <= c <= 'F' }

  /** The anchored pattern `^[0-9a-f]{n}$`. */
  predicate IsHex(s: string, n: nat) {
    |s| == n && forall i | 0 <= i < |s| :: IsHexDigit(s[i])
  }

  /** `^[0-9a-fA-F]{n}$`: the same digits written in either case. */
  predicate IsHexAnyCase(s: string, n: nat) {
    |s| == n && forall i | 0 <= i < |s| :: IsHexDigitAnyCase(s[i])
  }

  /** strings.ToLower on one character, restricted to ASCII. */
  function LowerChar(c: char): char {
    if IsUpper(c) then (c as int + 32) as char else c
  }

  /** strings.ToLower, restricted to ASCII: upper-case letters become lower
      case, every other character is kept. */
  function ToLower(s: string): (r: string)
    ensures |r| == |s|
    ensures forall i | 0 <= i < |s| :: r[i] == LowerChar(s[i])
  {
    if s == [] then [] else [LowerChar(s[0])] + ToLower(s[1..])
  }

  /** No character of s is an upper-case letter. */
  predicate HasNoUpper(s: string) {
    forall i | 0 <= i < |s| :: !IsUpper(s[i])
  }

  /** Two strings that differ at most in the case of their letters. */
  predicate EqualIgnoringCase(a: string, b: string) {
    |a| == |b| && forall i | 0 <= i < |a| :: LowerChar(a[i]) == LowerChar(b[i])
  }

  /** A lower-cased string holds no upper-case letter, and lower-casing it
      again changes nothing. */
  lemma ToLowerNormalises(s: string)
    ensures HasNoUpper(ToLower(s))
    ensures EqualIgnoringCase(ToLower(s), s)
    ensures ToLower(ToLower(s)) == ToLower(s)
  {
  }

  /** A string without upper-case letters that equals s up to case is the
      lower-cased s: lower-casing is characterised by these two facts. */
  lemma LowerFormUnique(t: string, s: string)
    requires HasNoUpper(t) && EqualIgnoringCase(t, s)
    ensures t == ToLower(s)
  {
    assert forall i | 0 <= i < |t| :: t[i] == LowerChar(t[i]);
  }

  /** Lower-casing identifies exactly the strings that differ only in the
      case of their letters. */
  lemma ToLowerEqualIff(a: string, b: string)
    ensures ToLower(a) == ToLower(b) <==> EqualIgnoringCase(a, b)
  {
    if EqualIgnoringCase(a, b) {
      assert forall i | 0 <= i < |a| :: ToLower(a)[i] == ToLower(b)[i];
    }
  }

  /** The lower-cased string is hexadecimal exactly when the original is
      hexadecimal in either case. */
  lemma ToLowerHexIff(s: string, n: nat)
    ensures IsHex(ToLower(s), n) <==> IsHexAnyCase(s, n)
  {
    if IsHexAnyCase(s, n) {
      forall i | 0 <= i < |s| ensures IsHexDigit(ToLower(s)[i]) {
        assert IsHexDigitAnyCase(s[i]);
      }
    }
    if IsHex(ToLower(s), n) {
      forall i | 0 <= i < |s| ensures IsHexDigitAnyCase(s[i]) {
        assert IsHexDigit(ToLower(s)[i]);
      }
    }
  }
}
