/** The state machine shared by `Service` (src/main.go) and `GreenPass`
    (main.go): one mutable slot holding the lazily created trust-list
    provider, read and written only by `parseNverify`. Calls are modelled
    one after another; the slot is not synchronised in the source. */
module Facade {
  import opened Common
  import opened Coronaqr

  /** The receiver struct: its only field is the provider slot. */
  datatype State = State(provider: Option<Provider>)

  /** `&Service{}` / `&GreenPass{}`: the slot starts empty. */
  const Initial := State(None)

  /** A `(Message, error)` return. */
  datatype Reply<M> = Reply(message: M, err: Option<Error>)

  /** The receiver after a call, and what the call returned. */
  datatype Step<M> = Step(next: State, reply: Reply<M>)

  /** The receiver after parseNverify, and its `(*Decoded, error)` return. */
  datatype Attempt = Attempt(next: State, result: Result<Decoded, Error>)

  /** parse: Decode, then SkipVerification; no receiver state is involved. */
  function ParseUnverified(lib: Library, code: string): Result<Decoded, Error>
  {
    match lib.decode(code)
    case Failure(e) => Failure(e)
    case Success(cert) => Success(lib.skipVerification(cert))
  }

  /** parseNverify: Decode; create the provider if the slot is empty (the
      slot takes whatever the constructor returned, error or not); then
      Verify against the provider in the slot. `init` is what the
      constructor returns if this call invokes it. */
  function ParseAndVerify(s: State, lib: Library, code: string, init: Construction): (a: Attempt)
    ensures lib.decode(code).Failure? ==> a == Attempt(s, Failure(lib.decode(code).error))
    ensures s.provider.Some? ==> a.next == s
    ensures s.provider.None? && lib.decode(code).Success? ==> a.next == State(init.provider)
    ensures s.provider.None? && lib.decode(code).Success? && init.err.Some? ==>
      a.result == Failure(init.err.value)
    ensures lib.decode(code).Success? && (s.provider.Some? || init.err.None?) ==>
      a.result == lib.verify(lib.decode(code).value, a.next.provider)
  {
    match lib.decode(code)
    case Failure(e) => Attempt(s, Failure(e))
    case Success(cert) =>
      if s.provider.None? then
        var created := State(init.provider);
        if init.err.Some? then Attempt(created, Failure(init.err.value))
        else Attempt(created, lib.verify(cert, created.provider))
      else Attempt(s, lib.verify(cert, s.provider))
  }

  /** The `(Message, error)` a facade method returns for an underlying result:
      the zero message with the error, or the projection with no error. */
  function Respond<M>(r: Result<Decoded, Error>, project: Decoded -> M, zero: M): Reply<M>
  {
    match r
    case Failure(e) => Reply(zero, Some(e))
    case Success(d) => Reply(project(d), None)
  }

  /** One call on the service: `Parse(code)` or `Validate(code)`; a
      validation carries the outcome the provider constructor would give. */
  datatype Request = ParseRequest(code: string) | ValidateRequest(code: string, init: Construction)

  /** Whether serving `req` in state `s` calls the provider constructor. */
  predicate Constructs(s: State, lib: Library, req: Request)
  {
    req.ValidateRequest? && s.provider.None? && lib.decode(req.code).Success?
  }

  /** The receiver after serving one request. */
  function Next(s: State, lib: Library, req: Request): (s': State)
    ensures !Constructs(s, lib, req) ==> s' == s
    ensures Constructs(s, lib, req) ==> s' == State(req.init.provider)
  {
    match req
    case ParseRequest(_) => s
    case ValidateRequest(code, init) => ParseAndVerify(s, lib, code, init).next
  }

  /** The receiver after a sequence of requests, and how many times the
      provider constructor was called on the way. */
  datatype Trace = Trace(last: State, constructions: nat)

  function Run(s: State, lib: Library, reqs: seq<Request>): Trace
    decreases |reqs|
  {
    if |reqs| == 0 then Trace(s, 0)
    else
      var t := Run(Next(s, lib, reqs[0]), lib, reqs[1..]);
      Trace(t.last, t.constructions + if Constructs(s, lib, reqs[0]) then 1 else 0)
  }

  /** Once the slot holds a provider, no sequence of calls re-creates or
      replaces it. */
  lemma {:induction false} ProviderIsReused(s: State, lib: Library, reqs: seq<Request>)
    requires s.provider.Some?
    ensures Run(s, lib, reqs) == Trace(s, 0)
    decreases |reqs|
  {
    if |reqs| > 0 {
      ProviderIsReused(Next(s, lib, reqs[0]), lib, reqs[1..]);
    }
  }

  /** When every constructor call hands back a provider (even together with
      an error), any sequence of calls constructs at most once, and never
      when the slot starts out filled. */
  lemma {:induction false} AtMostOneConstruction(s: State, lib: Library, reqs: seq<Request>)
    requires forall i :: 0 <= i < |reqs| && reqs[i].ValidateRequest? ==> reqs[i].init.provider.Some?
    ensures Run(s, lib, reqs).constructions <= 1
    ensures s.provider.Some? ==> Run(s, lib, reqs).constructions == 0
    decreases |reqs|
  {
    if |reqs| > 0 {
      var s' := Next(s, lib, reqs[0]);
      if s.provider.Some? {
        ProviderIsReused(s, lib, reqs);
      } else if Constructs(s, lib, reqs[0]) {
        ProviderIsReused(s', lib, reqs[1..]);
      } else {
        AtMostOneConstruction(s', lib, reqs[1..]);
      }
    }
  }

  /** Whether a request needs the provider: a validation of a decodable code. */
  predicate NeedsProvider(lib: Library, req: Request)
  {
    req.ValidateRequest? && lib.decode(req.code).Success?
  }

  /** From an empty slot, when every constructor call hands back a provider,
      a sequence of calls constructs exactly once if some call validates a
      decodable code, and never otherwise. */
  lemma {:induction false} ConstructsOnceFromEmpty(s: State, lib: Library, reqs: seq<Request>)
    requires s.provider.None?
    requires forall i :: 0 <= i < |reqs| && reqs[i].ValidateRequest? ==> reqs[i].init.provider.Some?
    ensures Run(s, lib, reqs).constructions == 1 <==> exists i :: 0 <= i < |reqs| && NeedsProvider(lib, reqs[i])
    ensures Run(s, lib, reqs).constructions == 0 <==> forall i :: 0 <= i < |reqs| ==> !NeedsProvider(lib, reqs[i])
    decreases |reqs|
  {
    if |reqs| > 0 {
      var s' := Next(s, lib, reqs[0]);
      if Constructs(s, lib, reqs[0]) {
        ProviderIsReused(s', lib, reqs[1..]);
        assert NeedsProvider(lib, reqs[0]);
      } else {
        ConstructsOnceFromEmpty(s', lib, reqs[1..]);
        assert !NeedsProvider(lib, reqs[0]);
        assert forall i :: 1 <= i < |reqs| ==> reqs[i] == reqs[1..][i - 1];
        if exists i :: 0 <= i < |reqs| && NeedsProvider(lib, reqs[i]) {
          var i :| 0 <= i < |reqs| && NeedsProvider(lib, reqs[i]);
          assert NeedsProvider(lib, reqs[1..][i - 1]);
        }
        if exists j :: 0 <= j < |reqs[1..]| && NeedsProvider(lib, reqs[1..][j]) {
          var j :| 0 <= j < |reqs[1..]| && NeedsProvider(lib, reqs[1..][j]);
          assert NeedsProvider(lib, reqs[j + 1]);
        }
      }
    }
  }

  /** A new receiver (`&Service{}` or `&GreenPass{}`) constructs the provider
      on its first validation of a decodable code, and only then, when every
      constructor call hands back a provider. */
  lemma FreshReceiverConstructsOnce(lib: Library, reqs: seq<Request>)
    requires forall i :: 0 <= i < |reqs| && reqs[i].ValidateRequest? ==> reqs[i].init.provider.Some?
    ensures Run(Initial, lib, reqs).constructions == 1 <==> exists i :: 0 <= i < |reqs| && NeedsProvider(lib, reqs[i])
    ensures Run(Initial, lib, reqs).constructions == 0 <==> forall i :: 0 <= i < |reqs| ==> !NeedsProvider(lib, reqs[i])
  {
    ConstructsOnceFromEmpty(Initial, lib, reqs);
  }

  /** Calls whose codes do not decode never reach the slot: the receiver is
      unchanged and the constructor is never called. */
  lemma {:induction false} UndecodableRequestsLeaveSlot(s: State, lib: Library, reqs: seq<Request>)
    requires forall i :: 0 <= i < |reqs| ==> lib.decode(reqs[i].code).Failure?
    ensures Run(s, lib, reqs) == Trace(s, 0)
    decreases |reqs|
  {
    if |reqs| > 0 {
      UndecodableRequestsLeaveSlot(s, lib, reqs[1..]);
    }
  }

  /** After a failed construction, the next validation of a decodable code
      calls the constructor again exactly when the interface value stored in
      the slot is nil. Otherwise the stored value is used as the provider
      from then on. If the constructor's result type is a concrete pointer,
      a nil pointer returned with the error still makes that interface
      value non-nil, so such a failure is never retried. */
  lemma RetryOnlyAfterNilProvider(s: State, lib: Library, code: string, init: Construction, later: Request)
    requires s.provider.None? && lib.decode(code).Success? && init.err.Some?
    requires later.ValidateRequest? && lib.decode(later.code).Success?
    ensures var s' := ParseAndVerify(s, lib, code, init).next;
      Constructs(s', lib, later) <==> init.provider.None?
  {
  }
}
