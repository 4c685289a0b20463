/** What the service receives from the coronaqr library and from Go's
    standard library. Transport decoding, CBOR/COSE parsing, signature
    verification, SHA-256, time formatting and distinguished-name rendering
    all happen in code this model does not contain; they enter as function
    values (`Library`, `Foreign`) about which nothing is assumed unless a
    lemma says so. */
module Coronaqr {
  import opened Common

  /** A Go `error` value; only its text is observable. */
  datatype Error = Error(text: string)

  /** time.Time, as coronaqr builds it with time.Unix: seconds since the epoch. */
  datatype Time = Time(unixSeconds: int)

  /** A float64 dose count, kept as its IEEE-754 bit pattern: it is only ever copied. */
  datatype Float64 = Float64(bits: bv64)

  /** pkix.Name: the attribute type/value pairs of an X.509 subject or issuer. */
  datatype DistinguishedName = DistinguishedName(attributes: seq<(string, string)>)

  /** The parts of an x509.Certificate that the service reads. */
  datatype Certificate = Certificate(raw: seq<byte>, subject: DistinguishedName, issuer: DistinguishedName)

  /** The holder's name as the certificate carries it, with its standardised (`Std`) forms. */
  datatype PersonalName = PersonalName(familyName: string, familyNameStd: string, givenName: string, givenNameStd: string)

  datatype VaccineRecord = VaccineRecord(
    target: string,
    vaccine: string,
    product: string,
    manufacturer: string,
    doses: Float64,
    doseSeries: Float64,
    date: string,
    country: string,
    issuer: string,
    certificateID: string)

  datatype TestRecord = TestRecord(
    target: string,
    testType: string,
    name: string,
    manufacturer: string,
    sampleDatetime: string,
    testResult: string,
    testingCentre: string,
    country: string,
    issuer: string,
    certificateID: string)

  datatype RecoveryRecord = RecoveryRecord(
    target: string,
    country: string,
    issuer: string,
    firstPositiveTest: string,
    validFrom: string,
    validUntil: string,
    certificateID: string)

  /** coronaqr.CovidCert: the certificate payload. */
  datatype CovidCert = CovidCert(
    personalName: PersonalName,
    dateOfBirth: string,
    vaccineRecords: seq<VaccineRecord>,
    testRecords: seq<TestRecord>,
    recoveryRecords: seq<RecoveryRecord>)

  /** coronaqr.Decoded: a payload with its validity window, the envelope's
      key id (possibly empty) and, after verification, the signing certificate. */
  datatype Decoded = Decoded(
    cert: CovidCert,
    issuedAt: Time,
    expiration: Time,
    signedBy: Option<Certificate>,
    kid: seq<byte>)

  /** coronaqr.Unverified: a transport-decoded COSE_Sign1 envelope. */
  datatype Unverified = Unverified(protectedHeader: seq<byte>, payload: seq<byte>, signature: seq<byte>)

  /** A non-nil value of the interface type coronaqr.PublicKeyProvider: an
      opaque handle on a trust list. A typed nil pointer stored in the
      interface is such a value too, since the interface itself is then
      not nil. */
  datatype Provider = Provider(handle: nat)

  /** The 32 bytes of a SHA-256 digest (`sha256.Sum256` returns a `[32]byte`). */
  type Digest = d: seq<byte> | |d| == 32 witness seq(32, _ => 0)

  /** The three coronaqr entry points the service calls. `verify` stands for
      `Unverified.Verify` under the clock of the call being modelled. */
  datatype Library = Library(
    decode: string -> Result<Unverified, Error>,
    skipVerification: Unverified -> Decoded,
    verify: (Unverified, Option<Provider>) -> Result<Decoded, Error>)

  /** Go standard-library functions createMessage calls: `sha256.Sum256`,
      `time.Time.Format` and the `String` method of pkix.Name (what `%s` prints). */
  datatype Foreign = Foreign(
    sha256: seq<byte> -> Digest,
    format: (Time, string) -> string,
    nameString: DistinguishedName -> string)

  /** What one call of `trustlistmirror.NewCertificateProvider` returned,
      as seen after its provider result is converted to the interface type
      `coronaqr.PublicKeyProvider`: `provider` is `None` exactly when that
      interface value is nil. The call does network I/O, so each call of
      the service that makes it receives its outcome as an input. */
  datatype Construction = Construction(provider: Option<Provider>, err: Option<Error>)

  /** The usual Go convention: a nil error comes with a non-nil provider. */
  predicate Conventional(c: Construction)
  {
    c.err.None? ==> c.provider.Some?
  }

  /** A library whose SkipVerification never reports a signer. */
  ghost predicate SkipReportsNoSigner(lib: Library)
  {
    forall u :: lib.skipVerification(u).signedBy.None?
  }
}
