/** The per-type validators: each checks the kind of a raw value, puts it in
    canonical form, checks the form against the type's pattern, and returns
    the canonical value with the fingerprint of its text. */
module Validators {
  import opened Values
  import opened Ascii
  import Decimal
  import MimePattern

  /** ValidateString: any non-empty text; in case-insensitive mode the
      canonical form is the lower-cased text, otherwise the text itself. */
  function ValidateString(value: Raw, insensitive: bool, hash: Hasher): (r: Validated<string>)
    ensures !value.Str? ==> r == Invalid(TypeMismatch)
    ensures value == Str("") ==> r == Invalid(EmptyValue)
    ensures r.Valid? <==> value.Str? && value.s != ""
    ensures r.Valid? ==> r.fingerprint == hash(r.value)
    ensures r.Valid? && insensitive ==> HasNoUpper(r.value) && EqualIgnoringCase(r.value, value.s)
    ensures r.Valid? && !insensitive ==> r.value == value.s
  {
    match value
    case Str(v) =>
      if v == "" then Invalid(EmptyValue)
      else if insensitive then
        ToLowerNormalises(v);
        Valid(ToLower(v), hash(ToLower(v)))
      else Valid(v, hash(v))
    case _ => Invalid(TypeMismatch)
  }

  /** The shape shared by the fixed-length digest validators: lower-case the
      text, then require exactly n characters of `[0-9a-f]`. */
  function ValidateHexDigest(value: Raw, n: nat, hash: Hasher): (r: Validated<string>)
    ensures !value.Str? ==> r == Invalid(TypeMismatch)
    ensures r.Valid? <==> value.Str? && IsHexAnyCase(value.s, n)
    ensures value.Str? && !r.Valid? ==> r.error == FormatMismatch
    ensures r.Valid? ==> IsHex(r.value, n) && EqualIgnoringCase(r.value, value.s)
    ensures r.Valid? ==> r.fingerprint == hash(r.value)
  {
    match value
    case Str(s) =>
      var v := ToLower(s);
      ToLowerHexIff(s, n);
      ToLowerNormalises(s);
      if IsHex(v, n) then Valid(v, hash(v)) else Invalid(FormatMismatch)
    case _ => Invalid(TypeMismatch)
  }

  /** ValidateSHA224: 56 hexadecimal digits. */
  function ValidateSHA224(value: Raw, hash: Hasher): (r: Validated<string>)
    ensures !value.Str? ==> r == Invalid(TypeMismatch)
    ensures r.Valid? <==> value.Str? && IsHexAnyCase(value.s, 56)
    ensures value.Str? && !r.Valid? ==> r.error == FormatMismatch
    ensures r.Valid? ==> IsHex(r.value, 56) && EqualIgnoringCase(r.value, value.s)
    ensures r.Valid? ==> r.fingerprint == hash(r.value)
  {
    ValidateHexDigest(value, 56, hash)
  }

  /** ValidateSHA384: 96 hexadecimal digits. */
  function ValidateSHA384(value: Raw, hash: Hasher): (r: Validated<string>)
    ensures !value.Str? ==> r == Invalid(TypeMismatch)
    ensures r.Valid? <==> value.Str? && IsHexAnyCase(value.s, 96)
    ensures value.Str? && !r.Valid? ==> r.error == FormatMismatch
    ensures r.Valid? ==> IsHex(r.value, 96) && EqualIgnoringCase(r.value, value.s)
    ensures r.Valid? ==> r.fingerprint == hash(r.value)
  {
    ValidateHexDigest(value, 96, hash)
  }

  /** ValidateSHA3512: 128 hexadecimal digits. */
  function ValidateSHA3512(value: Raw, hash: Hasher): (r: Validated<string>)
    ensures !value.Str? ==> r == Invalid(TypeMismatch)
    ensures r.Valid? <==> value.Str? && IsHexAnyCase(value.s, 128)
    ensures value.Str? && !r.Valid? ==> r.error == FormatMismatch
    ensures r.Valid? ==> IsHex(r.value, 128) && EqualIgnoringCase(r.value, value.s)
    ensures r.Valid? ==> r.fingerprint == hash(r.value)
  {
    ValidateHexDigest(value, 128, hash)
  }

  /** ValidateMD5: the lower-cased text is checked against 32 hexadecimal
      digits when it has 32 characters, and against 16 otherwise. A
      32-character text with a non-hex character is not retried as 16. */
  function ValidateMD5(value: Raw, hash: Hasher): (r: Validated<string>)
    ensures !value.Str? ==> r == Invalid(TypeMismatch)
    ensures r.Valid? <==> value.Str? && (IsHexAnyCase(value.s, 32) || IsHexAnyCase(value.s, 16))
    ensures value.Str? && !r.Valid? ==> r.error == FormatMismatch
    ensures value.Str? && |value.s| == 32 && !IsHexAnyCase(value.s, 32) ==> r == Invalid(FormatMismatch)
    ensures value.Str? && |value.s| != 32 && |value.s| != 16 ==> r == Invalid(FormatMismatch)
    ensures r.Valid? ==> (IsHex(r.value, 32) || IsHex(r.value, 16)) && EqualIgnoringCase(r.value, value.s)
    ensures r.Valid? ==> r.fingerprint == hash(r.value)
  {
    match value
    case Str(s) =>
      var v := ToLower(s);
      ToLowerHexIff(s, 32);
      ToLowerHexIff(s, 16);
      ToLowerNormalises(s);
      if |v| == 32 then
        if IsHex(v, 32) then Valid(v, hash(v)) else Invalid(FormatMismatch)
      else
        if IsHex(v, 16) then Valid(v, hash(v)) else Invalid(FormatMismatch)
    case _ => Invalid(TypeMismatch)
  }

  /** ValidateMime: the lower-cased text must be letters, '/', and a subtype
      as MimePattern.IsSubtype describes it. */
  function ValidateMime(value: Raw, hash: Hasher): (r: Validated<string>)
    ensures !value.Str? ==> r == Invalid(TypeMismatch)
    ensures r.Valid? <==> value.Str? && MimePattern.IsMediaType(ToLower(value.s))
    ensures value.Str? && !r.Valid? ==> r.error == FormatMismatch
    ensures r.Valid? ==> HasNoUpper(r.value) && EqualIgnoringCase(r.value, value.s)
    ensures r.Valid? ==> r.fingerprint == hash(r.value)
  {
    match value
    case Str(s) =>
      var v := ToLower(s);
      MimePattern.MatchesIff(v);
      ToLowerNormalises(s);
      if MimePattern.Matches(v) then Valid(v, hash(v)) else Invalid(FormatMismatch)
    case _ => Invalid(TypeMismatch)
  }

  /** ValidateInteger: only an int64 is accepted, unchanged; its fingerprint
      is that of its decimal text. */
  function ValidateInteger(value: Raw, hash: Hasher): (r: Validated<Int64>)
    ensures r.Valid? <==> value.Int?
    ensures !value.Int? ==> r == Invalid(TypeMismatch)
    ensures r.Valid? ==> r.value == value.i
    ensures r.Valid? ==> r.fingerprint == hash(Decimal.IntText(r.value))
  {
    match value
    case Int(v) => Valid(v, hash(Decimal.IntText(v)))
    case _ => Invalid(TypeMismatch)
  }
}
