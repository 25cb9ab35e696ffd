/** The closed set of data-type names a definition may carry: the
    package-level string constants of definitions.go. */
module DataTypes {
  const Str: string := "Case-sensitive string"
  const Ip: string := "IP"
  const Email: string := "Email"
  const Fqdn: string := "FQDN"
  const Integer: string := "Integer"
  const Cidr: string := "CIDR"
  const City: string := "City"
  const Country: string := "Country"
  const Float: string := "Float"
  const Url: string := "URL"
  const Md5: string := "MD5"
  const Hexadecimal: string := "Hexadecimal"
  const Base64: string := "BASE64"
  const Date: string := "Date"
  const Mac: string := "MAC"
  const Mime: string := "MIME type"
  const Phone: string := "Phone"
  const Sha1: string := "SHA-1"
  const Sha224: string := "SHA-224"
  const Sha256: string := "SHA-256"
  const Sha384: string := "SHA-384"
  const Sha512: string := "SHA-512"
  const Sha3_224: string := "SHA3-224"
  const Sha3_256: string := "SHA3-256"
  const Sha3_384: string := "SHA3-384"
  const Sha3_512: string := "SHA3-512"
  const Sha512_224: string := "SHA512-224"
  const Sha512_256: string := "SHA512-256"
  const Datetime: string := "Datetime"
  const Uuid: string := "UUID"
  const Boolean: string := "Boolean"
  const IStr: string := "String"
  const Path: string := "Path"
  const Object: string := "UUID|MD5|SHA3-256"
  const Adversary: string := "Adversary"

  /** Every declared data-type constant, in declaration order. */
  const All: seq<string> := [
    Str,
    Ip,
    Email,
    Fqdn,
    Integer,
    Cidr,
    City,
    Country,
    Float,
    Url,
    Md5,
    Hexadecimal,
    Base64,
    Date,
    Mac,
    Mime,
    Phone,
    Sha1,
    Sha224,
    Sha256,
    Sha384,
    Sha512,
    Sha3_224,
    Sha3_256,
    Sha3_384,
    Sha3_512,
    Sha512_224,
    Sha512_256,
    Datetime,
    Uuid,
    Boolean,
    IStr,
    Path,
    Object,
    Adversary
  ]

  /** s is one of the declared data-type constants. */
  predicate IsDataType(s: string) {
    s in All
  }

  /** The constants are pairwise distinct strings, so a data type names
      exactly one kind of value. */
  lemma AllDistinct()
    ensures |All| == 35
    ensures forall i, j | 0 <= i < j < |All| :: All[i] != All[j]
  {
  }
}
