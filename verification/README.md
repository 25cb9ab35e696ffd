# validations — a Dafny model

This project models two pure parts of the Go package `validations`.

1. **The validate-and-canonicalise functions** for strings, MD5, SHA-224, SHA-384 and SHA3-512 digests, MIME types and integers. Each validator:
   - takes a dynamically typed value;
   - checks its kind (the Go type assertion);
   - lower-cases it where the type is case-insensitive;
   - checks it against the type's anchored regular expression;
   - returns the canonical value and its fingerprint, or an error.

   The fingerprint is the SHA3-256 digest of the canonical text. The model makes the hash a parameter `hash: string -> string`, so every fingerprint property holds for any hash function.
2. **The type taxonomy.** This covers:
   - the 35 data-type constants;
   - the `Definition` record;
   - all 130 definitions, with their nested attributes and associations;
   - the ordered registry `Definitions`.

   The integrity of the registry is proved over the constant data:
   - names are unique;
   - correlate names resolve, each to one of the entry's own attributes (for instance `file` correlates its attributes md5, sha1, sha256, sha3-256 and file-data, and `malware` its attributes malware-family and malware-type);
   - data types are declared;
   - nested definitions are registered;
   - no definition nests itself.

Layout:

- `values.dfy`: the tagged raw input `Str | Int | Other`, the int64 range, the error kinds and the result type `Valid(value, fingerprint) | Invalid(error)`.
- `ascii.dfy`: character classes and lower-casing.
- `decimal.dfy`: the base-10 text of an integer and its inverse.
- `mime.dfy`: the MIME pattern as predicates. It also gives an equivalent description without repetition.
- `validators.dfy`: the seven validators.
- `validator_laws.dfy`: properties that relate several calls.
- `datatypes.dfy`: the data-type constants.
- `catalogue.dfy`: the definitions and the registry.
- `lookup.dfy`: lookup of a registry entry by name.
- `entry_facts.dfy`, `entry_group0.dfy` … `entry_group12.dfy` and `entry_all.dfy`: facts about each entry, checked on the data ten entries at a time.
- `integrity.dfy`: the registry-wide integrity properties.

## Model

| member | source | states |
|---|---|---|
| Validators.ValidateString | string.go:10-25 | A non-string is a type mismatch, checked before the empty check. The empty string is rejected in both modes. Every non-empty string is accepted. Insensitive mode returns a text without upper-case letters that equals the input up to case. Sensitive mode returns the input unchanged. The fingerprint is the hash of the returned value |
| Validators.ValidateHexDigest | sha224.go:8-20 | The shape the digest validators share. A non-string is a type mismatch. A string is accepted exactly when it is n hex digits in either case; otherwise the error is a format mismatch. The value is n lower-case hex digits equal to the input up to case, and the fingerprint is its hash |
| Validators.ValidateSHA224 | sha224.go:8-20 | A non-string is rejected. A string is accepted exactly when it is 56 hex digits in either case, and is otherwise a format mismatch. The value is the 56 lower-case digits, and the fingerprint is the hash of the value |
| Validators.ValidateSHA384 | sha384.go:10-22 | The same as ValidateSHA224, with 96 digits |
| Validators.ValidateSHA3512 | sha3-512.go:10-22 | The same as ValidateSHA224, with 128 digits |
| Validators.ValidateMD5 | md5.go:8-29 | A non-string is rejected. A string is accepted exactly when it is 32 or 16 hex digits in either case; every rejected string is a format mismatch. A 32-character text with a non-hex character is a format mismatch: there is no fallback to 16. Any other length is rejected. The value is the lower-case form, and the fingerprint is its hash |
| Validators.ValidateMime | mime.go:10-24 | A non-string is rejected. A string is accepted exactly when its lower-cased form is a media type as the pattern defines it; otherwise the error is a format mismatch. The value has no upper-case letters and equals the input up to case. The fingerprint is the hash of the value |
| Validators.ValidateInteger | integer.go:11-18 | Only an int64 is accepted. Any other kind, including numeric text, is a type mismatch. The value is the input unchanged, and the fingerprint is the hash of its decimal text |
| ValidatorLaws.ValidateStringCaseInsensitive | string.go:20-21 | In insensitive mode, texts equal up to case give the same value and the same fingerprint |
| ValidatorLaws.ValidateStringIdempotent | string.go:16-24 | Validating an accepted value again in the same mode returns the same result |
| ValidatorLaws.ValidateStringSensitiveDistinguishes | string.go:24 | In sensitive mode, distinct non-empty texts give distinct values, each fingerprinted as itself |
| ValidatorLaws.ValidateMD5CaseInsensitive | md5.go:14-28 | Texts equal up to case give the same outcome |
| ValidatorLaws.ValidateMD5RejectsNonHex | md5.go:21-26 | A text of nine characters, neither 16 nor 32, is a format mismatch |
| ValidatorLaws.ValidateMD5Idempotent | md5.go:14-28 | MD5 validation returns its own accepted output unchanged |
| ValidatorLaws.HexDigestCaseInsensitive | sha224.go:13-19 | For every length n, digest texts equal up to case give the same outcome |
| ValidatorLaws.HexDigestIdempotent | sha224.go:13-19 | For every length n, digest validation returns its own accepted output unchanged |
| ValidatorLaws.ValidateSHA224CaseInsensitive | sha224.go:13-19 | SHA-224 texts equal up to case give the same outcome |
| ValidatorLaws.ValidateSHA224Idempotent | sha224.go:13-19 | SHA-224 validation returns its own accepted output unchanged |
| ValidatorLaws.ValidateSHA384CaseInsensitive | sha384.go:15-21 | SHA-384 texts equal up to case give the same outcome |
| ValidatorLaws.ValidateSHA384Idempotent | sha384.go:15-21 | SHA-384 validation returns its own accepted output unchanged |
| ValidatorLaws.ValidateSHA3512CaseInsensitive | sha3-512.go:15-21 | SHA3-512 texts equal up to case give the same outcome |
| ValidatorLaws.ValidateSHA3512Idempotent | sha3-512.go:15-21 | SHA3-512 validation returns its own accepted output unchanged |
| ValidatorLaws.MediaTypeShape | mime.go:18 | A text the pattern accepts has exactly one '/'. One or more letters a-z precede it. A subtype follows it: at least 3 characters from a-z, '+', ',', '-' and '.', a letter at both ends, and separators at least three positions apart |
| ValidatorLaws.ValidateMimeShape | mime.go:16-23 | Every accepted MIME value has that shape |
| ValidatorLaws.TextPlainIsMediaType | mime.go:18 | "text/plain" matches the pattern |
| ValidatorLaws.ValidateMimeExample | mime.go:16-23 | "Text/Plain" is accepted as "text/plain", and the fingerprint is the hash of "text/plain" |
| ValidatorLaws.ValidateMimeIdempotent | mime.go:16-23 | MIME validation returns its own accepted output unchanged |
| ValidatorLaws.ValidateIntegerDistinguishes | integer.go:12-17 | The fingerprint of an int64 is the hash of a canonical decimal text that reads back as the integer. Distinct integers have distinct texts |
| MimePattern.Matches | mime.go:18 | The anchored pattern `^([a-z]+)[/]([a-z]+[a-z+-.][a-z]+)+$`, one predicate per part of the expression. A match is at least five characters long and starts with a letter |
| MimePattern.FirstSeparator | mime.go:18 | The position of the first '+', ',', '-' or '.' in a text, or its length when it has none |
| MimePattern.GroupsAreSubtype | mime.go:18 | Every text that `([a-z]+[a-z+-.][a-z]+)+` accepts is a subtype |
| MimePattern.SubtypeLetters | mime.go:18 | In a subtype, every character that is not a separator is a letter |
| MimePattern.SubtypeSingleGroup | mime.go:18 | A subtype with at most one separator is one repetition of the group |
| MimePattern.SubtypeSplits | mime.go:18 | A subtype with two separators starts with one group, and what remains is again a subtype |
| MimePattern.SubtypeIsGroups | mime.go:18 | Every subtype is accepted by the repeated group |
| MimePattern.GroupsIff | mime.go:18 | The repeated group accepts exactly the subtypes |
| MimePattern.MatchesIff | mime.go:18 | The anchored pattern accepts exactly letters, '/' and a subtype |
| Ascii.ToLower | mime.go:16 | ASCII lower-casing keeps the length and lower-cases each character on its own |
| Ascii.ToLowerNormalises | string.go:20-21 | A lower-cased text has no upper-case letters, equals its input up to case, and does not change when lower-cased again |
| Ascii.LowerFormUnique | string.go:20-21 | A text without upper-case letters that equals s up to case is the lower-cased s |
| Ascii.ToLowerEqualIff | string.go:20-21 | Two texts have the same lower-cased form exactly when they are equal up to case |
| Ascii.ToLowerHexIff | md5.go:14-20 | The lower-cased text is n characters of [0-9a-f] exactly when the input is n characters of [0-9a-fA-F] |
| Decimal.NatText | integer.go:17 | The decimal digits of a natural number: at least one digit, and no leading zero |
| Decimal.IntText | integer.go:17 | The decimal text of an integer is canonical, and it starts with '-' exactly when the integer is negative |
| Decimal.ParseNatText | integer.go:17 | Reading the digits of n back gives n |
| Decimal.ParseIntText | integer.go:17 | Reading the text of an integer back gives the integer |
| Decimal.IntTextInjective | integer.go:12-17 | Distinct integers have distinct decimal texts |
| DataTypes.AllDistinct | definitions.go:3-39 | The 35 data-type constants are pairwise distinct strings |
| Catalogue.At | definitions.go:862-993 | The 130 registry entries in source order; `Catalogue.Definitions` is the sequence of them |
| Lookup.Find | definitions.go:862-993 | A name that is found is the name of the registry entry at the returned position |
| EntryFacts.TypeNames | definitions.go:41-50 | The type names of a list of definitions, in order |
| EntryAll.EntrySound | definitions.go:52-993 | Each of the 130 registry entries is reached by the name lookup, has a declared data type, has registered definitions as attributes and associations, and names only its own attributes in its correlate list |
| Integrity.MemberSize | definitions.go:41-50 | A member of a list of definitions is no larger than the list |
| Integrity.NestedSmaller | definitions.go:41-50 | A definition nested in d, at any depth, is strictly smaller than d |
| Integrity.FindIff | definitions.go:862-993 | Looking up a name returns position i exactly when entry i has that name |
| Integrity.TypeNamesUnique | definitions.go:862-993 | The registry has 130 entries, and their type names are pairwise distinct |
| Integrity.CorrelateNamesOwnAttribute | definitions.go:52-61 | Every correlate name of an entry is the type of one of that entry's own attributes |
| Integrity.CorrelateResolves | definitions.go:862-993 | Every correlate name of every entry is found by the lookup, and it names the registry entry found |
| Integrity.NestedIsRegistered | definitions.go:460-465 | Every definition nested, at any depth, in a registered definition is itself registered |
| Integrity.NestedRegistered | definitions.go:52-993 | Every attribute or association nested at any depth in a registry entry is equal, in every field, to some registry entry |
| Integrity.DataTypesDeclared | definitions.go:3-39 | The data type of every entry, and of every definition nested at any depth, is one of the declared constants |
| Integrity.NoSelfNesting | definitions.go:460-465 | No definition contains, at any depth, a definition with its own type name |

## Left out

- Date, date-time, UUID and URL validation. These delegate to Go's `time`, `github.com/google/uuid` and `net/url` packages, which are not part of this model.
- `GenerateSHA3256`. It is SHA3-256 as defined in FIPS 202, and every validator takes it as the parameter `hash`. Properties hold for any hash, so none says that different texts have different fingerprints.
- `ValidateRegEx`. Each pattern is written out as an explicit predicate instead.
- `rerror`, the gRPC status codes and the error messages. Errors are the three kinds `TypeMismatch`, `EmptyValue` and `FormatMismatch`.
- Byte strings. A Go string is a sequence of bytes; here a string is a sequence of Unicode characters, so text that is not valid UTF-8 is not modelled (Go's `strings.ToLower` would turn each invalid byte into U+FFFD). For valid UTF-8 the rune count `len([]rune(v))` that md5.go:16 branches on equals the length `|s|` of the modelled string.
- `strings.ToLower` beyond ASCII. Non-ASCII characters are kept unchanged, so Unicode case mappings such as U+212A KELVIN SIGN to 'k' are not modelled.
- The difference between a nil and an empty slice. `fileData` writes `Attributes: []Definition{}` where every other definition leaves the field nil; both are the empty sequence here, as both are copied alike and dropped alike by the JSON `omitempty` tag.
- The `Example` field of `Definition` (the entities it points to are not part of this model) and the JSON struct tags.
- Go kinds other than `string` and `int64`. They all become `Other`, since every validator rejects them the same way.
- ValidateMD5CaseInsensitive: no lemma works the concrete upper-case digest `D41D8CD98F00B204E9800998ECF8427E` through the validator. The same fact is proved for all inputs: texts equal up to case give the same outcome, and the value is the lower-case form.
- ValidateStringSensitiveDistinguishes: states that the values differ and that each fingerprint is the hash of its own value, but not that the fingerprints differ, since the hash is a parameter.
- ValidateIntegerDistinguishes: states that the hashed texts differ, not the fingerprints, for the same reason.
- The MIME pattern is modelled as written, not as media types are usually written:
  - the subtype class `[a-z+-.]` is a range and so admits ','.
  - digits are rejected, as are subtypes such as "a.b.c" whose separators are closer than three positions, and subtypes shorter than three characters such as "js".
