/** The parts of createMessage that src/main.go and main.go share word for
    word: the key-id rule, the signer fields, the holder's name, the date
    layout and the three claim lists. Each file's own `CreateMessage`
    assembles its message from these. */
module Projector {
  import opened Common
  import opened Coronaqr
  import opened Claims
  import Base64

  /** The layout createMessage passes to time.Time.Format. */
  const DateFormat := "2006-01-02 15:04:05 MST"

  /** How many leading bytes of the signer certificate's SHA-256 digest form a derived key id. */
  const DerivedKidLength := 8

  /** The key id createMessage encodes: the envelope's own when it has one,
      else the first eight bytes of the SHA-256 digest of the signing
      certificate, else nothing. */
  function ResolveKid(d: Decoded, fx: Foreign): (kid: seq<byte>)
    ensures |d.kid| > 0 ==> kid == d.kid
    ensures |d.kid| == 0 && d.signedBy.Some? ==>
      |kid| == DerivedKidLength && kid == fx.sha256(d.signedBy.value.raw)[..DerivedKidLength]
    ensures |kid| == 0 <==> |d.kid| == 0 && d.signedBy.None?
  {
    if |d.kid| == 0 && d.signedBy.Some? then fx.sha256(d.signedBy.value.raw)[..DerivedKidLength]
    else d.kid
  }

  /** The `kid` text: the standard base 64 form of the resolved key id. */
  function KidText(d: Decoded, fx: Foreign): (text: string)
    ensures Base64.Decode(text) == Some(ResolveKid(d, fx))
    ensures text == "" <==> |d.kid| == 0 && d.signedBy.None?
    ensures |d.kid| == 0 && d.signedBy.Some? ==> |text| == 12
  {
    var kid := ResolveKid(d, fx);
    Base64.DecodeEncode(kid);
    Base64.Encode(kid)
  }

  /** The `signed_by` text: the signer's subject, when there is a signer. */
  function SignedByText(d: Decoded, fx: Foreign): string
  {
    if d.signedBy.Some? then fx.nameString(d.signedBy.value.subject) else ""
  }

  /** The `issued_by` text: the signer's issuer, when there is a signer. */
  function IssuedByText(d: Decoded, fx: Foreign): string
  {
    if d.signedBy.Some? then fx.nameString(d.signedBy.value.issuer) else ""
  }

  /** `fmt.Sprintf("%s %s", given, family)` on the standardised name forms. */
  function FullName(n: PersonalName): string
  {
    n.givenNameStd + " " + n.familyNameStd
  }

  function Vaccinations(d: Decoded): seq<Vaccine>
  {
    AppendEach([], d.cert.vaccineRecords, ToVaccine)
  }

  function Tests(d: Decoded): seq<Test>
  {
    AppendEach([], d.cert.testRecords, ToTest)
  }

  function Recoveries(d: Decoded): seq<Recovery>
  {
    AppendEach([], d.cert.recoveryRecords, ToRecovery)
  }

  /** Two certificates give the same claim lists exactly when they carry the
      same claim records. */
  lemma ClaimListsLossless(d1: Decoded, d2: Decoded)
    ensures Vaccinations(d1) == Vaccinations(d2) <==> d1.cert.vaccineRecords == d2.cert.vaccineRecords
    ensures Tests(d1) == Tests(d2) <==> d1.cert.testRecords == d2.cert.testRecords
    ensures Recoveries(d1) == Recoveries(d2) <==> d1.cert.recoveryRecords == d2.cert.recoveryRecords
  {
    AppendEachLossless(d1.cert.vaccineRecords, d2.cert.vaccineRecords, ToVaccine);
    AppendEachLossless(d1.cert.testRecords, d2.cert.testRecords, ToTest);
    AppendEachLossless(d1.cert.recoveryRecords, d2.cert.recoveryRecords, ToRecovery);
  }
}
