/** main.go: the `GreenPass` facade and its `createMessage`, the
    stand-alone server's copy of src/main.go. Its message names the validity
    fields `IssuedAt` and `ExpiresAt` and lists its fields in another order;
    the state machine is the shared one in `Facade`. */
module GreenPassApi {
  import opened Common
  import opened Coronaqr
  import opened Claims
  import opened Projector
  import opened Facade
  import Base64
  import ServiceApi

  datatype Message = Message(
    vaccinations: seq<Vaccine>,
    tests: seq<Test>,
    recoveries: seq<Recovery>,
    kid: string,
    issuedAt: string,
    issuedBy: string,
    signedBy: string,
    expiresAt: string,
    name: string,
    dob: string)

  /** `Message{}` */
  const Zero := Message([], [], [], "", "", "", "", "", "", "")

  type GreenPass = Facade.State

  /** main.go's message with the fields of src/main.go's: the formatted
      issue and expiry times move from `IssuedOn`/`ExpiresOn` to
      `IssuedAt`/`ExpiresAt`, and every other field keeps its value. */
  function FromService(m: ServiceApi.Message): Message
  {
    Message(
      vaccinations := m.vaccinations,
      tests := m.tests,
      recoveries := m.recoveries,
      kid := m.kid,
      issuedAt := m.issuedOn,
      issuedBy := m.issuedBy,
      signedBy := m.signedBy,
      expiresAt := m.expiresOn,
      name := m.name,
      dob := m.dob)
  }

  /** Replies of src/main.go's `Service` as main.go's `GreenPass` gives them. */
  function StepFromService(step: Step<ServiceApi.Message>): Step<Message>
  {
    Step(step.next, Reply(FromService(step.reply.message), step.reply.err))
  }

  /** createMessage: the same body as src/main.go's, writing the times into
      `IssuedAt`/`ExpiresAt`. */
  function CreateMessage(d: Decoded, fx: Foreign): (m: Message)
    ensures m.issuedAt == fx.format(d.issuedAt, DateFormat)
    ensures m.expiresAt == fx.format(d.expiration, DateFormat)
    ensures m.kid == "" <==> |d.kid| == 0 && d.signedBy.None?
    ensures d.signedBy.None? ==> m.signedBy == "" && m.issuedBy == ""
  {
    FromService(ServiceApi.CreateMessage(d, fx))
  }

  /** (*GreenPass).Parse */
  function Parse(g: GreenPass, lib: Library, fx: Foreign, code: string): (step: Step<Message>)
    ensures step.next == g
    ensures lib.decode(code).Failure? ==> step.reply == Reply(Zero, Some(lib.decode(code).error))
    ensures lib.decode(code).Success? ==>
      step.reply == Reply(CreateMessage(lib.skipVerification(lib.decode(code).value), fx), None)
  {
    StepFromService(ServiceApi.Parse(g, lib, fx, code))
  }

  /** (*GreenPass).Validate */
  function Validate(g: GreenPass, lib: Library, fx: Foreign, code: string, init: Construction): (step: Step<Message>)
    ensures var a := ParseAndVerify(g, lib, code, init);
      && step.next == a.next
      && (a.result.Failure? ==> step.reply == Reply(Zero, Some(a.result.error)))
      && (a.result.Success? ==> step.reply == Reply(CreateMessage(a.result.value, fx), None))
  {
    StepFromService(ServiceApi.Validate(g, lib, fx, code, init))
  }

  /** The two messages carry the same content: `IssuedAt`/`ExpiresAt` here
      hold what src/main.go stores in `IssuedOn`/`ExpiresOn`, and every
      other field is equal. */
  predicate SameContent(g: Message, s: ServiceApi.Message)
  {
    && g.vaccinations == s.vaccinations && g.tests == s.tests && g.recoveries == s.recoveries
    && g.kid == s.kid && g.issuedAt == s.issuedOn && g.expiresAt == s.expiresOn
    && g.issuedBy == s.issuedBy && g.signedBy == s.signedBy && g.name == s.name && g.dob == s.dob
  }

  /** The two copies of createMessage project every certificate alike. */
  lemma CreateMessageAgrees(d: Decoded, fx: Foreign)
    ensures SameContent(CreateMessage(d, fx), ServiceApi.CreateMessage(d, fx))
  {
  }

  /** The two servers answer every call alike: the same receiver afterwards,
      the same error, and messages with the same content. */
  lemma AgreesWithService(g: GreenPass, lib: Library, fx: Foreign, code: string, init: Construction)
    ensures var mine, theirs := Validate(g, lib, fx, code, init), ServiceApi.Validate(g, lib, fx, code, init);
      && mine.next == theirs.next
      && mine.reply.err == theirs.reply.err
      && SameContent(mine.reply.message, theirs.reply.message)
    ensures var mine, theirs := Parse(g, lib, fx, code), ServiceApi.Parse(g, lib, fx, code);
      && mine.next == theirs.next
      && mine.reply.err == theirs.reply.err
      && SameContent(mine.reply.message, theirs.reply.message)
  {
  }
}
