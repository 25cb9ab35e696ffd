/** The type taxonomy of definitions.go: one constant per definition and
    the ordered registry of all of them. */
module Catalogue {
  import opened DataTypes

  /** One entry of the taxonomy. Attributes and associations hold copies
      of other definitions, by value, so a definition is a finite tree. */
  datatype Definition = Definition(
    typeName: string,
    description: string,
    dataType: string,
    attributes: seq<Definition>,
    associations: seq<Definition>,
    tags: seq<string>,
    correlate: seq<string>)

  const file: Definition := Definition(
    "file",
    "Object identifying a file, the value can be a UUID or a SHA3-256 or MD5 checksum",
    Object,
    [fileData, hashSHA1, hashMD5, hashSHA256, hashSHA3256], [filename, filenamePattern],
    ["malware", "common-file", "system-file"], ["md5", "sha1", "sha256", "sha3-256", "file-data"])
  const payload: Definition := Definition(
    "payload",
    "SHA3-256 of a message sent in a network packet",
    Sha3_256,
    [hashSHA1, hashMD5, hashSHA256, hashSHA3256], [],
    [], [])
  const fileData: Definition := Definition(
    "file-data",
    "File or attachment URL",
    Url,
    [], [],
    [], [])
  const adversary: Definition := Definition(
    "adversary",
    "Object identifying a threat actor",
    Adversary,
    [], [],
    [], [])
  const aso: Definition := Definition(
    "aso",
    "Autonomous System Organization",
    IStr,
    [], [],
    [], [])
  const asn: Definition := Definition(
    "asn",
    "Autonomous System Organization Number",
    Integer,
    [], [],
    [], [])
  const malware: Definition := Definition(
    "malware",
    "Malware",
    IStr,
    [malwareFamily, malwareType], [],
    [], ["malware-family", "malware-type"])
  const objectDef: Definition := Definition(
    "object",
    "Generic entity composed of other entities, the value can be a UUID or a SHA3-256 or MD5 checksum",
    Object,
    [descriptor], [],
    [], [])
  const descriptor: Definition := Definition(
    "descriptor",
    "The object descriptor",
    IStr,
    [], [],
    [], [])
  const abaRtn: Definition := Definition(
    "aba-rtn",
    "ABA routing transit number",
    Integer,
    [], [],
    [], [])
  const latitude: Definition := Definition(
    "latitude",
    "GPS latitude",
    Float,
    [], [],
    [], [])
  const longitude: Definition := Definition(
    "longitude",
    "GPS longitude",
    Float,
    [], [],
    [], [])
  const country: Definition := Definition(
    "country",
    "Country name",
    Country,
    [], [],
    [], [])
  const cookie: Definition := Definition(
    "cookie",
    "HTTP cookie as often stored on the user web client. This can include authentication cookie or session cookie",
    Str,
    [], [value],
    [], [])
  const text: Definition := Definition(
    "text",
    "Any case insensitive text value",
    IStr,
    [], [],
    [], [])
  const value: Definition := Definition(
    "value",
    "Any case sensitive text value",
    Str,
    [], [],
    [], [])
  const password: Definition := Definition(
    "password",
    "Password",
    Str,
    [], [],
    [], [])
  const airport: Definition := Definition(
    "airport-name",
    "The airport name",
    IStr,
    [country, city], [],
    [], [])
  const profilePhoto: Definition := Definition(
    "profile-photo",
    "Profile photo URL",
    Url,
    [], [],
    [], [])
  const authentiHash: Definition := Definition(
    "authentihash",
    "Authenticode executable signature hash",
    Hexadecimal,
    [], [],
    [], [])
  const bankAccountNr: Definition := Definition(
    "bank-account-nr",
    "Bank account number without any routing number",
    Integer,
    [bic, bin], [],
    [], [])
  const bic: Definition := Definition(
    "bic",
    "Bank Identifier Code Number also known as SWIFT-BIC, SWIFT code or ISO 9362 code",
    IStr,
    [], [],
    [], [])
  const bin: Definition := Definition(
    "bin",
    "Bank Identification Number",
    Integer,
    [], [],
    [], [])
  const btc: Definition := Definition(
    "btc",
    "Bitcoin Address",
    Str,
    [], [],
    [], [])
  const ccNumber: Definition := Definition(
    "cc-number",
    "Credit-Card Number",
    Integer,
    [issuer], [],
    [], [])
  const issuer: Definition := Definition(
    "issuer",
    "Issuer name",
    IStr,
    [], [],
    [], [])
  const cdHash: Definition := Definition(
    "cdhash",
    "An Apple Code Directory Hash, identifying a code-signed Mach-O executable file",
    Hexadecimal,
    [], [],
    [], [])
  const certificateFingerprint: Definition := Definition(
    "certificate-fingerprint",
    "The fingerprint of a SSL/TLS certificate",
    Hexadecimal,
    [], [],
    [], [])
  const chromeExtension: Definition := Definition(
    "chrome-extension-id",
    "Chrome extension ID",
    Str,
    [], [],
    [], [])
  const subnet: Definition := Definition(
    "cidr",
    "A public network segment",
    Cidr,
    [country, city, latitude, longitude, asn, aso], [],
    [], [])
  const cpe: Definition := Definition(
    "cpe",
    "Common Platform Enumeration. Structured naming scheme for information technology systems, software, and packages",
    IStr,
    [], [],
    [], [])
  const cve: Definition := Definition(
    "cve",
    "",
    IStr,
    [], [],
    [], [])
  const dash: Definition := Definition(
    "dash",
    "Dash address",
    Str,
    [], [],
    [], [])
  const dkim: Definition := Definition(
    "dkim",
    "DKIM public key",
    Str,
    [], [],
    [], [])
  const dkimSignature: Definition := Definition(
    "dkim-signature",
    "DKIM signature",
    Str,
    [], [],
    [], [])
  const domain: Definition := Definition(
    "domain",
    "Internet domain",
    Fqdn,
    [whoIsRegistrant, whoIsRegistrar], [],
    [], [])
  const email: Definition := Definition(
    "email",
    "Email Message ID",
    Str,
    [emailBody, emailDisplayName, emailHeader, emailAddress, emailSubject], [file],
    [], [])
  const city: Definition := Definition(
    "city",
    "City name",
    City,
    [], [],
    [], [])
  const issuingCountry: Definition := Definition(
    "issuing-country",
    "Issuing country name",
    Country,
    [], [],
    [], [])
  const emailAddress: Definition := Definition(
    "email-address",
    "Sender email address",
    Email,
    [], [],
    [], [])
  const emailBody: Definition := Definition(
    "email-body",
    "Email body",
    IStr,
    [], [],
    [], [])
  const emailDisplayName: Definition := Definition(
    "email-display-name",
    "Sender display name",
    IStr,
    [], [],
    [], [])
  const emailHeader: Definition := Definition(
    "email-header",
    "Email header (all headers)",
    Str,
    [], [],
    [], [])
  const emailMimeBoundary: Definition := Definition(
    "email-mime-boundary",
    "MIME boundaries are strings of 7-bit US-ASCII text that define the boundaries between message parts in a MIME message. MIME boundaries are declared in a Content-Type message header for any message that encapsulates more than one message part and in part headers for those parts that encapsulate nested parts.",
    Str,
    [], [],
    [], [])
  const emailSubject: Definition := Definition(
    "email-subject",
    "The subject of the email",
    IStr,
    [], [],
    [], [])
  const emailThreadIndex: Definition := Definition(
    "email-thread-index",
    "The email thread index",
    Base64,
    [], [],
    [], [])
  const emailXMailer: Definition := Definition(
    "email-x-mailer",
    "Email x-mailer header",
    IStr,
    [], [],
    [], [])
  const eppn: Definition := Definition(
    "eppn",
    "The NetId of the person for the purposes of inter-institutional authentication. Should be stored in the form of user@univ.edu, where univ.edu is the name of the local security domain",
    Email,
    [], [],
    [], [])
  const facebookProfile: Definition := Definition(
    "facebook-profile",
    "Facebook profile",
    Url,
    [], [],
    [], [])
  const ffn: Definition := Definition(
    "ffn",
    "The frequent flyer number of a passanger",
    Str,
    [], [],
    [], [])
  const filename: Definition := Definition(
    "filename",
    "A filename or email attachment name",
    IStr,
    [], [],
    [], [])
  const sizeInBytes: Definition := Definition(
    "size-in-bytes",
    "The size in bytes of an element",
    Float,
    [], [],
    [], [])
  const filenamePattern: Definition := Definition(
    "filename-pattern",
    "A pattern in the name of a file",
    Str,
    [], [],
    [], [])
  const flight: Definition := Definition(
    "flight",
    "A flight number",
    Str,
    [], [],
    [], [])
  const gene: Definition := Definition(
    "gene",
    "Go Evtx sigNature Engine",
    Str,
    [], [],
    [], [])
  const gitHubOrganization: Definition := Definition(
    "github-organization",
    "Github organization",
    Url,
    [], [],
    [], [])
  const gitHubRepository: Definition := Definition(
    "github-repository",
    "Github repository",
    Url,
    [], [],
    [], [])
  const gitHubUser: Definition := Definition(
    "github-user",
    "Github user",
    Url,
    [], [],
    [], [])
  const link: Definition := Definition(
    "link",
    "External link for reference",
    Url,
    [], [],
    [], [])
  const datetime: Definition := Definition(
    "datetime",
    "Time with nanoseconds in the format 2006-01-02T15:04:05.999999999Z07:00",
    Datetime,
    [], [],
    [], [])
  const lastAnalysis: Definition := Definition(
    "last-analysis",
    "Time of last analysis. Format 2006-01-02T15:04:05.999999999Z",
    Datetime,
    [], [],
    [], [])
  const date: Definition := Definition(
    "date",
    "Date in format 2006-01-02",
    Date,
    [], [],
    [], [])
  const dateOfIssue: Definition := Definition(
    "date-of-issue",
    "Date in format 2006-01-02",
    Date,
    [], [],
    [], [])
  const expirationDate: Definition := Definition(
    "expiration-date",
    "Date in format 2006-01-02",
    Date,
    [], [],
    [], [])
  const malwareSample: Definition := Definition(
    "malware-sample",
    "Malware Sample URL",
    Url,
    [malware, file], [],
    [], [])
  const group: Definition := Definition(
    "group",
    "Adversaries group",
    IStr,
    [], [],
    [], [])
  const haSSHMD5: Definition := Definition(
    "hassh-md5",
    "Network fingerprinting standard which can be used to identify specific Client SSH implementations. The fingerprints can be easily stored, searched and shared in the form of an MD5 fingerprint",
    Md5,
    [], [],
    [], [])
  const haSSHServerMD5: Definition := Definition(
    "hasshserver-md5",
    "Network fingerprinting standard which can be used to identify specific Server SSH implementations. The fingerprints can be easily stored, searched and shared in the form of an MD5 fingerprint",
    Md5,
    [], [],
    [], [])
  const hexa: Definition := Definition(
    "hex",
    "A value in hexadecimal",
    Hexadecimal,
    [], [],
    [], [])
  const base64d: Definition := Definition(
    "base64",
    "A value in BASE64 format",
    Base64,
    [], [],
    [], [])
  const hostname: Definition := Definition(
    "hostname",
    "A full host/dnsname of an attacker",
    Fqdn,
    [], [],
    [], [])
  const iban: Definition := Definition(
    "iban",
    "International Bank Account Number",
    IStr,
    [], [],
    [], [])
  const idNumber: Definition := Definition(
    "id-number",
    "It can be an ID card, residence permit, etc.",
    Str,
    [issuer, dateOfIssue, expirationDate], [],
    [], [])
  const ipAddr: Definition := Definition(
    "ip",
    "IP Address",
    Ip,
    [subnet], [],
    [], [])
  const ja3Fingerprint: Definition := Definition(
    "ja3-fingerprint-md5",
    "JA3 is a method for creating SSL/TLS client fingerprints that should be easy to produce on any platform and can be easily shared for threat intelligence",
    Md5,
    [], [],
    [], [])
  const jabberID: Definition := Definition(
    "jabber-id",
    "Jabber ID",
    Email,
    [], [],
    [], [])
  const jarmFingerprint: Definition := Definition(
    "jarm-fingerprint",
    "JARM is a method for creating SSL/TLS server fingerprints",
    Hexadecimal,
    [], [],
    [], [])
  const macAddr: Definition := Definition(
    "mac-address",
    "Network interface hardware address",
    Mac,
    [], [],
    [], [])
  const malwareFamily: Definition := Definition(
    "malware-family",
    "Malware family",
    IStr,
    [], [],
    [], [])
  const malwareType: Definition := Definition(
    "malware-type",
    "Malware type",
    IStr,
    [], [],
    [], [])
  const hashMD5: Definition := Definition(
    "md5",
    "Hash MD5",
    Md5,
    [], [],
    [], [])
  const mimeType: Definition := Definition(
    "mime-type",
    "A media type (also MIME type and content type) is a two-part identifier",
    Mime,
    [], [],
    [], [])
  const mobileAppID: Definition := Definition(
    "mobile-app-id",
    "The ID of a mobile application",
    Str,
    [], [],
    [], [])
  const passport: Definition := Definition(
    "passport",
    "Passport number",
    Str,
    [issuingCountry, issuer, dateOfIssue, expirationDate], [],
    [], [])
  const pathD: Definition := Definition(
    "path",
    "Path to a file, folder or process, also a HTTP request path",
    Path,
    [], [],
    [], [])
  const patternInFile: Definition := Definition(
    "pattern-in-file",
    "Pattern inside a file",
    Str,
    [], [],
    [], [])
  const patternInMemory: Definition := Definition(
    "pattern-in-memory",
    "Pattern in memory",
    Str,
    [], [],
    [], [])
  const patternInTraffic: Definition := Definition(
    "pattern-in-traffic",
    "Pattern in traffic",
    Str,
    [], [],
    [], [])
  const pgpPrivateKey: Definition := Definition(
    "pgp-private-key",
    "PGP private key",
    Str,
    [], [],
    [], [])
  const pgpPublicKey: Definition := Definition(
    "pgp-public-key",
    "PGP public key",
    Str,
    [], [],
    [], [])
  const phone: Definition := Definition(
    "phone",
    "Phone number",
    Phone,
    [], [],
    [], [])
  const pnr: Definition := Definition(
    "pnr",
    "The Passenger Name Record Locator is a key under which the reservation for a trip is stored in the system. The PNR contains, among other data, the name, flight segments and address of the passenger. It is defined by a combination of five or six letters and numbers",
    Str,
    [], [],
    [], [])
  const process: Definition := Definition(
    "process",
    "A running process",
    IStr,
    [processState], [],
    [], [])
  const processState: Definition := Definition(
    "process-state",
    "State of a process",
    IStr,
    [], [],
    [], [])
  const pRtn: Definition := Definition(
    "prtn",
    "Premium-rate telephone number",
    IStr,
    [], [],
    [], [])
  const redress: Definition := Definition(
    "redress-number",
    "The Redress Control Number is the record identifier for people who apply for redress through the DHS Travel Redress Inquiry Program (DHS TRIP). DHS TRIP is for travelers who have been repeatedly identified for additional screening and who want to file an inquiry to have erroneous information corrected in DHS systems",
    Str,
    [], [],
    [], [])
  const regKey: Definition := Definition(
    "regkey",
    "Registry key",
    IStr,
    [], [],
    [], [])
  const hashSHA1: Definition := Definition(
    "sha1",
    "Hash SHA1",
    Sha1,
    [], [],
    [], [])
  const hashSHA224: Definition := Definition(
    "sha224",
    "Hash SHA224",
    Sha224,
    [], [],
    [], [])
  const hashSHA256: Definition := Definition(
    "sha256",
    "Hash SHA256",
    Sha256,
    [], [],
    [], [])
  const hashSHA384: Definition := Definition(
    "sha384",
    "Hash SHA384",
    Sha384,
    [], [],
    [], [])
  const hashSHA512: Definition := Definition(
    "sha512",
    "Hash SHA512",
    Sha512,
    [], [],
    [], [])
  const hashSHA3224: Definition := Definition(
    "sha3-224",
    "Hash SHA3-224",
    Sha3_224,
    [], [],
    [], [])
  const hashSHA3256: Definition := Definition(
    "sha3-256",
    "Hash SHA3-256",
    Sha3_256,
    [], [],
    [], [])
  const hashSHA3384: Definition := Definition(
    "sha3-384",
    "Hash SHA3-384",
    Sha3_384,
    [], [],
    [], [])
  const hashSHA3512: Definition := Definition(
    "sha3-512",
    "Hash SHA3-512",
    Sha3_512,
    [], [],
    [], [])
  const hashSHA512224: Definition := Definition(
    "sha512-224",
    "Hash SHA512-224",
    Sha512_224,
    [], [],
    [], [])
  const hashSHA512256: Definition := Definition(
    "sha512-256",
    "Hash SHA512-256",
    Sha512_256,
    [], [],
    [], [])
  const sshFingerprint: Definition := Definition(
    "ssh-fingerprint",
    "A fingerprint of SSH key material",
    Str,
    [], [],
    [], [])
  const ssr: Definition := Definition(
    "ssr",
    "A Special Service Request is a function to an airline to provide a particular facility for A Passenger or passengers",
    Str,
    [], [],
    [], [])
  const category: Definition := Definition(
    "category",
    "A category",
    IStr,
    [], [],
    [], [])
  const threat: Definition := Definition(
    "threat",
    "A cybersecurity threat",
    IStr,
    [], [],
    [], [])
  const tikTokProfile: Definition := Definition(
    "tiktok-profile",
    "TikTok user profile",
    Url,
    [], [],
    [], [])
  const twitterProfile: Definition := Definition(
    "twitter-profile",
    "A Twitter user profile",
    Url,
    [], [],
    [], [])
  const uri: Definition := Definition(
    "url",
    "URL",
    Url,
    [], [],
    [], [])
  const username: Definition := Definition(
    "username",
    "Username",
    IStr,
    [], [],
    [], [])
  const visa: Definition := Definition(
    "visa",
    "Visa number",
    Str,
    [], [],
    [], [])
  const whoIsRegistrant: Definition := Definition(
    "whois-registrant",
    "Who is registrant",
    IStr,
    [], [],
    [], [])
  const whoIsRegistrar: Definition := Definition(
    "whois-registrar",
    "whois-registrar",
    IStr,
    [], [],
    [], [])
  const windowsScheduledTask: Definition := Definition(
    "windows-scheduled-task",
    "A Windows scheduled task",
    IStr,
    [], [],
    [], [])
  const windowsServiceDisplayName: Definition := Definition(
    "windows-service-displayname",
    "A windows service’s displayname, not to be confused with the windows-service-name. This is the name that applications will generally display as the service’s name in applications",
    IStr,
    [], [],
    [], [])
  const windowsServiceName: Definition := Definition(
    "windows-service-name",
    "A windows service name. This is the name used internally by windows. Not to be confused with the windows-service-displayname",
    IStr,
    [], [],
    [], [])
  const xmr: Definition := Definition(
    "xmr",
    "Monero address",
    Str,
    [], [],
    [], [])
  const x509MD5: Definition := Definition(
    "x509-fingerprint-md5",
    "X509 fingerprint in MD5",
    Md5,
    [], [],
    [], [])
  const x509SHA1: Definition := Definition(
    "x509-fingerprint-sha1",
    "X509 fingerprint in SHA1",
    Sha1,
    [], [],
    [], [])
  const x509SHA256: Definition := Definition(
    "x509-fingerprint-sha256",
    "X509 fingerprint in SHA256",
    Sha256,
    [], [],
    [], [])
  const breach: Definition := Definition(
    "breach",
    "Security breach that resulted in a leak of PII or SPII",
    Uuid,
    [domain, link, breachDate, breachCount, breachDescription], [],
    [], [])
  const breachDate: Definition := Definition(
    "breach-date",
    "Day the breach occurred",
    Date,
    [], [],
    [], [])
  const breachCount: Definition := Definition(
    "breach-count",
    "Number of items leaked in the breach",
    Integer,
    [], [],
    [], [])
  const breachDescription: Definition := Definition(
    "breach-description",
    "Detailed description of the breach",
    Str,
    [], [],
    [], [])

  /** Number of registered definitions. */
  const Count: nat := 130

  /** The i-th registered definition, in registry order. The table is
      split into blocks of 8 entries. */
  function At(i: nat): Definition
    requires i < Count
  {
    if i < 8 then Block0(i - 0)
    else if i < 16 then Block1(i - 8)
    else if i < 24 then Block2(i - 16)
    else if i < 32 then Block3(i - 24)
    else if i < 40 then Block4(i - 32)
    else if i < 48 then Block5(i - 40)
    else if i < 56 then Block6(i - 48)
    else if i < 64 then Block7(i - 56)
    else if i < 72 then Block8(i - 64)
    else if i < 80 then Block9(i - 72)
    else if i < 88 then Block10(i - 80)
    else if i < 96 then Block11(i - 88)
    else if i < 104 then Block12(i - 96)
    else if i < 112 then Block13(i - 104)
    else if i < 120 then Block14(i - 112)
    else if i < 128 then Block15(i - 120)
    else Block16(i - 128)
  }

  /** Registry entries 0 to 7. */
  function Block0(j: nat): Definition
    requires j < 8
  {
    match j
    case 0 => breach
    case 1 => breachDate
    case 2 => breachCount
    case 3 => breachDescription
    case 4 => file
    case 5 => fileData
    case 6 => lastAnalysis
    case _ => adversary
  }

  /** Registry entries 8 to 15. */
  function Block1(j: nat): Definition
    requires j < 8
  {
    match j
    case 0 => aso
    case 1 => asn
    case 2 => malware
    case 3 => malwareFamily
    case 4 => malwareType
    case 5 => malwareSample
    case 6 => objectDef
    case _ => descriptor
  }

  /** Registry entries 16 to 23. */
  function Block2(j: nat): Definition
    requires j < 8
  {
    match j
    case 0 => abaRtn
    case 1 => latitude
    case 2 => longitude
    case 3 => country
    case 4 => cookie
    case 5 => text
    case 6 => value
    case _ => issuer
  }

  /** Registry entries 24 to 31. */
  function Block3(j: nat): Definition
    requires j < 8
  {
    match j
    case 0 => password
    case 1 => airport
    case 2 => profilePhoto
    case 3 => authentiHash
    case 4 => bankAccountNr
    case 5 => bic
    case 6 => bin
    case _ => btc
  }

  /** Registry entries 32 to 39. */
  function Block4(j: nat): Definition
    requires j < 8
  {
    match j
    case 0 => ccNumber
    case 1 => cdHash
    case 2 => certificateFingerprint
    case 3 => chromeExtension
    case 4 => subnet
    case 5 => cpe
    case 6 => cve
    case _ => dash
  }

  /** Registry entries 40 to 47. */
  function Block5(j: nat): Definition
    requires j < 8
  {
    match j
    case 0 => dkim
    case 1 => dkimSignature
    case 2 => domain
    case 3 => city
    case 4 => issuingCountry
    case 5 => emailAddress
    case 6 => emailBody
    case _ => emailDisplayName
  }

  /** Registry entries 48 to 55. */
  function Block6(j: nat): Definition
    requires j < 8
  {
    match j
    case 0 => emailHeader
    case 1 => emailMimeBoundary
    case 2 => emailSubject
    case 3 => emailThreadIndex
    case 4 => emailXMailer
    case 5 => email
    case 6 => eppn
    case _ => facebookProfile
  }

  /** Registry entries 56 to 63. */
  function Block7(j: nat): Definition
    requires j < 8
  {
    match j
    case 0 => ffn
    case 1 => filename
    case 2 => sizeInBytes
    case 3 => filenamePattern
    case 4 => flight
    case 5 => gene
    case 6 => gitHubOrganization
    case _ => gitHubRepository
  }

  /** Registry entries 64 to 71. */
  function Block8(j: nat): Definition
    requires j < 8
  {
    match j
    case 0 => gitHubUser
    case 1 => link
    case 2 => datetime
    case 3 => date
    case 4 => dateOfIssue
    case 5 => expirationDate
    case 6 => group
    case _ => haSSHMD5
  }

  /** Registry entries 72 to 79. */
  function Block9(j: nat): Definition
    requires j < 8
  {
    match j
    case 0 => haSSHServerMD5
    case 1 => hexa
    case 2 => base64d
    case 3 => hostname
    case 4 => iban
    case 5 => idNumber
    case 6 => ipAddr
    case _ => ja3Fingerprint
  }

  /** Registry entries 80 to 87. */
  function Block10(j: nat): Definition
    requires j < 8
  {
    match j
    case 0 => jabberID
    case 1 => jarmFingerprint
    case 2 => macAddr
    case 3 => hashMD5
    case 4 => mimeType
    case 5 => mobileAppID
    case 6 => passport
    case _ => pathD
  }

  /** Registry entries 88 to 95. */
  function Block11(j: nat): Definition
    requires j < 8
  {
    match j
    case 0 => patternInFile
    case 1 => patternInMemory
    case 2 => patternInTraffic
    case 3 => pgpPrivateKey
    case 4 => pgpPublicKey
    case 5 => phone
    case 6 => pnr
    case _ => process
  }

  /** Registry entries 96 to 103. */
  function Block12(j: nat): Definition
    requires j < 8
  {
    match j
    case 0 => processState
    case 1 => pRtn
    case 2 => redress
    case 3 => regKey
    case 4 => hashSHA1
    case 5 => hashSHA224
    case 6 => hashSHA256
    case _ => hashSHA384
  }

  /** Registry entries 104 to 111. */
  function Block13(j: nat): Definition
    requires j < 8
  {
    match j
    case 0 => hashSHA512
    case 1 => hashSHA3224
    case 2 => hashSHA3256
    case 3 => hashSHA3384
    case 4 => hashSHA3512
    case 5 => hashSHA512224
    case 6 => hashSHA512256
    case _ => sshFingerprint
  }

  /** Registry entries 112 to 119. */
  function Block14(j: nat): Definition
    requires j < 8
  {
    match j
    case 0 => ssr
    case 1 => category
    case 2 => threat
    case 3 => tikTokProfile
    case 4 => twitterProfile
    case 5 => uri
    case 6 => username
    case _ => visa
  }

  /** Registry entries 120 to 127. */
  function Block15(j: nat): Definition
    requires j < 8
  {
    match j
    case 0 => whoIsRegistrant
    case 1 => whoIsRegistrar
    case 2 => windowsScheduledTask
    case 3 => windowsServiceDisplayName
    case 4 => windowsServiceName
    case 5 => xmr
    case 6 => x509MD5
    case _ => x509SHA1
  }

  /** Registry entries 128 to 129. */
  function Block16(j: nat): Definition
    requires j < 2
  {
    match j
    case 0 => x509SHA256
    case _ => payload
  }

  /** The registry: every definition exactly once, in source order. */
  const Definitions: seq<Definition> := seq(Count, i requires 0 <= i < Count => At(i))
}
