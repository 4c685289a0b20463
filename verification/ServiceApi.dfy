/** src/main.go: the `Service` facade (Parse, Validate) and its
    `createMessage` projector, with the message fields `IssuedOn` and
    `ExpiresOn`. */
module ServiceApi {
  import opened Common
  import opened Coronaqr
  import opened Claims
  import opened Projector
  import opened Facade
  import Base64

  datatype Message = Message(
    name: string,
    dob: string,
    kid: string,
    issuedOn: string,
    expiresOn: string,
    issuedBy: string,
    signedBy: string,
    vaccinations: seq<Vaccine>,
    tests: seq<Test>,
    recoveries: seq<Recovery>)

  /** `Message{}` */
  const Zero := Message("", "", "", "", "", "", "", [], [], [])

  type Service = Facade.State

  /** createMessage */
  function CreateMessage(d: Decoded, fx: Foreign): (m: Message)
    ensures |m.vaccinations| == |d.cert.vaccineRecords|
    ensures forall i :: 0 <= i < |d.cert.vaccineRecords| ==> m.vaccinations[i] == ToVaccine(d.cert.vaccineRecords[i])
    ensures |m.tests| == |d.cert.testRecords|
    ensures forall i :: 0 <= i < |d.cert.testRecords| ==> m.tests[i] == ToTest(d.cert.testRecords[i])
    ensures |m.recoveries| == |d.cert.recoveryRecords|
    ensures forall i :: 0 <= i < |d.cert.recoveryRecords| ==> m.recoveries[i] == ToRecovery(d.cert.recoveryRecords[i])
    ensures m.kid == Base64.Encode(ResolveKid(d, fx))
    ensures Base64.Decode(m.kid) == Some(ResolveKid(d, fx))
    ensures m.kid == "" <==> |d.kid| == 0 && d.signedBy.None?
    ensures |d.kid| == 0 && d.signedBy.Some? ==> |m.kid| == 12
    ensures m.issuedOn == fx.format(d.issuedAt, DateFormat)
    ensures m.expiresOn == fx.format(d.expiration, DateFormat)
    ensures d.signedBy.None? ==> m.signedBy == "" && m.issuedBy == ""
    ensures d.signedBy.Some? ==>
      m.signedBy == fx.nameString(d.signedBy.value.subject) && m.issuedBy == fx.nameString(d.signedBy.value.issuer)
    ensures m.name == d.cert.personalName.givenNameStd + " " + d.cert.personalName.familyNameStd
    ensures m.dob == d.cert.dateOfBirth
  {
    Message(
      name := FullName(d.cert.personalName),
      dob := d.cert.dateOfBirth,
      kid := KidText(d, fx),
      issuedOn := fx.format(d.issuedAt, DateFormat),
      expiresOn := fx.format(d.expiration, DateFormat),
      issuedBy := IssuedByText(d, fx),
      signedBy := SignedByText(d, fx),
      vaccinations := Vaccinations(d),
      tests := Tests(d),
      recoveries := Recoveries(d))
  }

  /** (*Service).Parse: decode without verification and project; the
      receiver is neither read nor written. */
  function Parse(s: Service, lib: Library, fx: Foreign, code: string): (step: Step<Message>)
    ensures step.next == s
    ensures lib.decode(code).Failure? ==> step.reply == Reply(Zero, Some(lib.decode(code).error))
    ensures lib.decode(code).Success? ==>
      step.reply == Reply(CreateMessage(lib.skipVerification(lib.decode(code).value), fx), None)
  {
    Step(s, Respond(ParseUnverified(lib, code), d => CreateMessage(d, fx), Zero))
  }

  /** (*Service).Validate: parseNverify, then the zero message with the
      error, or the projection of the verified certificate. */
  function Validate(s: Service, lib: Library, fx: Foreign, code: string, init: Construction): (step: Step<Message>)
    ensures var a := ParseAndVerify(s, lib, code, init);
      && step.next == a.next
      && (a.result.Failure? ==> step.reply == Reply(Zero, Some(a.result.error)))
      && (a.result.Success? ==> step.reply == Reply(CreateMessage(a.result.value, fx), None))
  {
    var a := ParseAndVerify(s, lib, code, init);
    Step(a.next, Respond(a.result, d => CreateMessage(d, fx), Zero))
  }

  /** Parse's reply does not depend on the receiver. */
  lemma ParseIgnoresProvider(s1: Service, s2: Service, lib: Library, fx: Foreign, code: string)
    ensures Parse(s1, lib, fx, code).reply == Parse(s2, lib, fx, code).reply
  {
  }

  /** A code that does not decode fails Validate before the slot is looked
      at: whatever the receiver holds and whatever the constructor would
      return, the receiver is unchanged and the decode error is returned
      with the zero message. */
  lemma DecodeFailureShortCircuits(s: Service, lib: Library, fx: Foreign, code: string, init: Construction)
    requires lib.decode(code).Failure?
    ensures Validate(s, lib, fx, code, init) == Step(s, Reply(Zero, Some(lib.decode(code).error)))
  {
  }

  /** With a provider in the slot, Validate ignores the constructor. */
  lemma SetProviderIgnoresConstructor(s: Service, lib: Library, fx: Foreign, code: string, i1: Construction, i2: Construction)
    requires s.provider.Some?
    ensures Validate(s, lib, fx, code, i1) == Validate(s, lib, fx, code, i2)
    ensures Validate(s, lib, fx, code, i1).next == s
  {
  }

  /** Any error from Validate comes with the zero message. */
  lemma ValidateErrorGivesZero(s: Service, lib: Library, fx: Foreign, code: string, init: Construction)
    ensures var r := Validate(s, lib, fx, code, init).reply; r.err.Some? ==> r.message == Zero
  {
  }

  /** A second Validate of a code whose first Validate succeeded. Each call
      has its own `Library`, since Verify reads the clock and the provider
      may refresh its trust list between the calls; only decoding is the
      same. The second call leaves the receiver alone, makes no
      construction whatever the constructor would now return, and verifies
      against the provider the first call left in the slot. When that
      verification agrees with the first call's (at the same instant and
      with the same trust list) it returns the first call's reply. */
  lemma ValidateRepeatable(s: Service, lib: Library, lib2: Library, fx: Foreign, code: string, init: Construction, again: Construction)
    requires Conventional(init)
    requires lib2.decode(code) == lib.decode(code)
    requires Validate(s, lib, fx, code, init).reply.err.None?
    ensures var first := Validate(s, lib, fx, code, init);
      && lib.decode(code).Success?
      && first.next.provider.Some?
      && !Constructs(first.next, lib2, ValidateRequest(code, again))
      && Validate(first.next, lib2, fx, code, again).next == first.next
    ensures var first := Validate(s, lib, fx, code, init);
      var second := Validate(first.next, lib2, fx, code, again);
      lib.decode(code).Success? ==>
        var v := lib2.verify(lib.decode(code).value, first.next.provider);
        && (v.Failure? ==> second.reply == Reply(Zero, Some(v.error)))
        && (v.Success? ==> second.reply == Reply(CreateMessage(v.value, fx), None))
    ensures var first := Validate(s, lib, fx, code, init);
      var second := Validate(first.next, lib2, fx, code, again);
      lib.decode(code).Success? &&
      lib2.verify(lib.decode(code).value, first.next.provider) == lib.verify(lib.decode(code).value, first.next.provider) ==>
        second == Step(first.next, first.reply)
  {
  }

  /** On the unverified path there is no signer, so `signed_by` and
      `issued_by` stay empty (for a library whose SkipVerification reports
      no signer). */
  lemma ParseHasNoSigner(s: Service, lib: Library, fx: Foreign, code: string)
    requires SkipReportsNoSigner(lib)
    ensures var r := Parse(s, lib, fx, code).reply; r.message.signedBy == "" && r.message.issuedBy == ""
  {
    if lib.decode(code).Success? {
      assert lib.skipVerification(lib.decode(code).value).signedBy.None?;
    }
  }
}
