/** Shared vocabulary of the validators: the dynamically typed input, the
    outcome of one validation, and the fingerprint function. */
module Values {

  /** Bounds of Go's int64. */
  const Int64Min: int := -0x8000_0000_0000_0000
  const Int64Max: int := 0x7fff_ffff_ffff_ffff

  type Int64 = x: int | Int64Min <= x <= Int64Max

  /** The raw `interface{}` value a validator receives, reduced to the kinds
      the type assertions `value.(string)` and `value.(int64)` distinguish.
      Every other dynamic kind (float64, bool, int, nil, ...) is `Other`. */
  datatype Raw = Str(s: string) | Int(i: Int64) | Other

  /** Why a value was rejected. string.go, sha384.go, sha3-512.go, mime.go
      and integer.go report a type mismatch through rerror with status 400;
      md5.go and sha224.go return a plain error; a format mismatch is the
      error of the regular-expression helper. Only the kind is kept here. */
  datatype ValidationError =
    | TypeMismatch    // the type assertion failed
    | EmptyValue      // "value cannot be empty"
    | FormatMismatch  // the anchored pattern did not match

  /** Outcome of a validator: the canonical value and its fingerprint, or an
      error. A Go validator returns zero values next to a non-nil error; here
      the two cases cannot mix. */
  datatype Validated<T> = Valid(value: T, fingerprint: string) | Invalid(error: ValidationError)

  /** The fingerprint function, GenerateSHA3256 in the source. It is a
      parameter of every validator so that no property depends on how the
      digest is computed. */
  type Hasher = string -> string
}
