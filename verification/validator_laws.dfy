/** Properties relating several validator calls: case-insensitivity,
    idempotence on canonical output, and worked examples. */
module ValidatorLaws {
  import opened Values
  import opened Ascii
  import Decimal
  import MimePattern
  import opened Validators

  // ---------------------------------------------------------------- String

  /** In case-insensitive mode, texts equal up to case give the same value
      and the same fingerprint. */
  lemma ValidateStringCaseInsensitive(a: string, b: string, hash: Hasher)
    requires EqualIgnoringCase(a, b)
    ensures ValidateString(Str(a), true, hash) == ValidateString(Str(b), true, hash)
  {
    ToLowerEqualIff(a, b);
  }

  /** Validating an accepted value again, in the same mode, returns it
      unchanged. */
  lemma ValidateStringIdempotent(value: Raw, insensitive: bool, hash: Hasher)
    requires ValidateString(value, insensitive, hash).Valid?
    ensures ValidateString(Str(ValidateString(value, insensitive, hash).value), insensitive, hash)
         == ValidateString(value, insensitive, hash)
  {
    ToLowerNormalises(value.s);
  }

  /** In case-sensitive mode, different texts keep different values, so
      their fingerprints are digests of different texts: "ABC" and "abc"
      are two identities. */
  lemma ValidateStringSensitiveDistinguishes(a: string, b: string, hash: Hasher)
    requires a != "" && b != "" && a != b
    ensures ValidateString(Str(a), false, hash).value != ValidateString(Str(b), false, hash).value
    ensures ValidateString(Str(a), false, hash).fingerprint == hash(a)
    ensures ValidateString(Str(b), false, hash).fingerprint == hash(b)
  {
  }

  // ------------------------------------------------------------------- MD5

  /** MD5 digests equal up to case are the same digest: the upper-case
      and lower-case spellings of one digest validate identically. */
  lemma ValidateMD5CaseInsensitive(a: string, b: string, hash: Hasher)
    requires EqualIgnoringCase(a, b)
    ensures ValidateMD5(Str(a), hash) == ValidateMD5(Str(b), hash)
  {
    ToLowerEqualIff(a, b);
  }

  /** A text with characters outside the hexadecimal alphabet is rejected
      as a format error, not a type error. */
  lemma ValidateMD5RejectsNonHex(hash: Hasher)
    ensures ValidateMD5(Str("not-hex!!"), hash) == Invalid(FormatMismatch)
  {
  }

  /** Validating an accepted MD5 digest again returns it unchanged. */
  lemma ValidateMD5Idempotent(value: Raw, hash: Hasher)
    requires ValidateMD5(value, hash).Valid?
    ensures ValidateMD5(Str(ValidateMD5(value, hash).value), hash) == ValidateMD5(value, hash)
  {
    ToLowerNormalises(value.s);
  }

  // ---------------------------------------------------- fixed-length digests

  lemma HexDigestCaseInsensitive(a: string, b: string, n: nat, hash: Hasher)
    requires EqualIgnoringCase(a, b)
    ensures ValidateHexDigest(Str(a), n, hash) == ValidateHexDigest(Str(b), n, hash)
  {
    ToLowerEqualIff(a, b);
  }

  lemma HexDigestIdempotent(value: Raw, n: nat, hash: Hasher)
    requires ValidateHexDigest(value, n, hash).Valid?
    ensures ValidateHexDigest(Str(ValidateHexDigest(value, n, hash).value), n, hash)
         == ValidateHexDigest(value, n, hash)
  {
    ToLowerNormalises(value.s);
  }

  /** SHA-224 digests equal up to case are the same digest. */
  lemma ValidateSHA224CaseInsensitive(a: string, b: string, hash: Hasher)
    requires EqualIgnoringCase(a, b)
    ensures ValidateSHA224(Str(a), hash) == ValidateSHA224(Str(b), hash)
  {
    HexDigestCaseInsensitive(a, b, 56, hash);
  }

  lemma ValidateSHA224Idempotent(value: Raw, hash: Hasher)
    requires ValidateSHA224(value, hash).Valid?
    ensures ValidateSHA224(Str(ValidateSHA224(value, hash).value), hash) == ValidateSHA224(value, hash)
  {
    HexDigestIdempotent(value, 56, hash);
  }

  lemma ValidateSHA384CaseInsensitive(a: string, b: string, hash: Hasher)
    requires EqualIgnoringCase(a, b)
    ensures ValidateSHA384(Str(a), hash) == ValidateSHA384(Str(b), hash)
  {
    HexDigestCaseInsensitive(a, b, 96, hash);
  }

  lemma ValidateSHA384Idempotent(value: Raw, hash: Hasher)
    requires ValidateSHA384(value, hash).Valid?
    ensures ValidateSHA384(Str(ValidateSHA384(value, hash).value), hash) == ValidateSHA384(value, hash)
  {
    HexDigestIdempotent(value, 96, hash);
  }

  lemma ValidateSHA3512CaseInsensitive(a: string, b: string, hash: Hasher)
    requires EqualIgnoringCase(a, b)
    ensures ValidateSHA3512(Str(a), hash) == ValidateSHA3512(Str(b), hash)
  {
    HexDigestCaseInsensitive(a, b, 128, hash);
  }

  lemma ValidateSHA3512Idempotent(value: Raw, hash: Hasher)
    requires ValidateSHA3512(value, hash).Valid?
    ensures ValidateSHA3512(Str(ValidateSHA3512(value, hash).value), hash) == ValidateSHA3512(value, hash)
  {
    HexDigestIdempotent(value, 128, hash);
  }

  // ------------------------------------------------------------------ MIME

  /** The shape of a media type: exactly one '/', after one or more
      letters and before a subtype as characterised by
      MimePattern.IsSubtype. */
  predicate HasMediaTypeShape(v: string) {
    exists k | 0 <= k < |v| ::
      && v[k] == '/'
      && (forall i | 0 <= i < |v| && i != k :: v[i] != '/')
      && MimePattern.IsLetters(v[..k])
      && MimePattern.IsSubtype(v[k + 1..])
  }

  /** A text the pattern accepts has that shape: the subtype's class
      excludes '/', so the separating '/' is the only one. */
  lemma MediaTypeShape(v: string)
    requires MimePattern.IsMediaType(v)
    ensures HasMediaTypeShape(v)
  {
    var k :| 1 <= k < |v| && MimePattern.IsLetters(v[..k]) && v[k] == '/' && MimePattern.IsSubtype(v[k + 1..]);
    forall i | 0 <= i < |v| && i != k
      ensures v[i] != '/'
    {
      if i < k {
        assert v[..k][i] == v[i];
      } else {
        assert v[k + 1..][i - k - 1] == v[i];
      }
    }
  }

  /** Every accepted media type has that shape. */
  lemma ValidateMimeShape(value: Raw, hash: Hasher)
    requires ValidateMime(value, hash).Valid?
    ensures HasMediaTypeShape(ValidateMime(value, hash).value)
  {
    LowerFormUnique(ValidateMime(value, hash).value, value.s);
    MediaTypeShape(ValidateMime(value, hash).value);
  }

  lemma TextPlainIsMediaType()
    ensures MimePattern.IsMediaType("text/plain")
  {
    var t := "text/plain";
    assert MimePattern.IsLetters(t[..4]);
    assert MimePattern.IsSubtype(t[5..]);
  }

  /** "Text/Plain" is accepted as "text/plain". */
  lemma ValidateMimeExample(hash: Hasher)
    ensures ValidateMime(Str("Text/Plain"), hash) == Valid("text/plain", hash("text/plain"))
  {
    var t := "text/plain";
    assert HasNoUpper(t);
    assert EqualIgnoringCase(t, "Text/Plain");
    LowerFormUnique(t, "Text/Plain");
    TextPlainIsMediaType();
  }

  /** Validating an accepted media type again returns it unchanged. */
  lemma ValidateMimeIdempotent(value: Raw, hash: Hasher)
    requires ValidateMime(value, hash).Valid?
    ensures ValidateMime(Str(ValidateMime(value, hash).value), hash) == ValidateMime(value, hash)
  {
    ToLowerNormalises(value.s);
  }

  // --------------------------------------------------------------- Integer

  /** The fingerprint of an integer is the digest of a canonical decimal
      text that reads back as the integer, and distinct integers are
      digested from distinct texts. */
  lemma ValidateIntegerDistinguishes(a: Int64, b: Int64, hash: Hasher)
    ensures exists t ::
      && ValidateInteger(Int(a), hash).fingerprint == hash(t)
      && Decimal.IsCanonical(t) && Decimal.ParseInt(t) == a
    ensures a != b ==> Decimal.IntText(a) != Decimal.IntText(b)
  {
    Decimal.ParseIntText(a);
    Decimal.IntTextInjective(a, b);
    assert ValidateInteger(Int(a), hash).fingerprint == hash(Decimal.IntText(a));
  }
}
