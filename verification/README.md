# covid-decoder: the Green Pass facade and projector, modelled in Dafny

covid-decoder is a small Go service over the `coronaqr` library. It turns
the text of an EU Digital COVID Certificate QR code into a flat `Message`:
the holder's name and date of birth, the key id (base 64), the issue and
expiry times, who signed and issued the certificate, and the vaccination,
test and recovery entries. It offers two operations. `Parse` decodes the
code without checking the signature. `Validate` decodes the code and
verifies it against a trust list. The trust-list provider is created on
first use and kept in the receiver struct.

This model covers what the repository itself contributes: the projector
`createMessage` with its three record converters, and the facade `Parse`,
`Validate`, `parse` and `parseNverify` as a state machine over the provider
slot. The repository has two near-identical copies. `src/main.go` defines
`Service`, whose message fields are `IssuedOn`/`ExpiresOn`. `main.go`
defines `GreenPass`, whose message fields are `IssuedAt`/`ExpiresAt`. Both
are modelled over one shared projector core and one shared state machine,
and a lemma shows that the two copies give the same answers.

Modules:

- `Common`: Go's byte, and `Option`/`Result` in place of nil and `(value, error)` pairs.
- `Base64`: the standard encoding of section 4 of RFC 4648, which `base64.StdEncoding` implements. It comes with a strict decoder and round-trip proofs in both directions.
- `Coronaqr`: the library's data types. The library calls (`Decode`, `SkipVerification`, `Verify`) and the Go standard-library calls (`sha256.Sum256`, `time.Time.Format`, `pkix.Name.String`) are function values that the model takes as parameters.
- `Claims`: `Vaccine`, `Test`, `Recovery`, the converters, and the append loop.
- `Projector`: the key-id rule and the other pieces that both `createMessage` copies share.
- `Facade`: the provider slot, `parse`/`parseNverify`, and runs of many calls.
- `ServiceApi` (src/main.go) and `GreenPassApi` (main.go): each file's `Message`, `createMessage`, `Parse` and `Validate`.

Each call to the provider constructor `trustlistmirror.NewCertificateProvider`
does network I/O, so its result is an input to `Validate`: a `Construction`
holding the returned provider and error. The slot is a field of the
receiver, so every facade function takes the receiver state and returns the
next one.

Two points where the code behaves differently from what one might expect:

- A failed provider construction is not always retried. src/main.go:115 stores the constructor's result in the slot before it checks the error. The slot is a `coronaqr.PublicKeyProvider` interface (src/main.go:81), so a later call constructs again only if the interface value stored there is nil. If the constructor's result type is a concrete pointer, a nil pointer returned together with the error still makes the interface non-nil. In that case the failure is never retried, and every later `Validate` verifies against that stored value. `Facade.RetryOnlyAfterNilProvider` states this, with `None` standing for the nil interface value.
- `Parse` encodes whatever key id `SkipVerification` returns (src/main.go:233-239). That library code is not part of this model, so the model makes no claim that the key id is empty on this path.

## Model

| member | source | states |
|---|---|---|
| `Base64.Encode` | src/main.go:239 | The standard base 64 text of n bytes has 4·⌈n/3⌉ characters. So an empty key id encodes to "" and an 8-byte derived key id encodes to 12 characters. |
| `Base64.DecodeEncode` | src/main.go:239 | Decoding an encoding gives back the original bytes, so the `kid` text loses no information. |
| `Base64.EncodeDecode` | src/main.go:239 | Every text the decoder accepts is the encoding of the bytes it decodes to. Together with `DecodeEncode`, encoding is a bijection onto canonical texts. |
| `Base64.EncodeInjective` | src/main.go:239 | Two key ids have the same text exactly when they are the same bytes. |
| `Base64.Rfc4648ShortVectors` | src/main.go:239 | The encoder reproduces the test vectors "", "f", "fo" and "foo" of section 10 of RFC 4648. |
| `Base64.Rfc4648LongVectors` | src/main.go:239 | The encoder reproduces the test vectors "foob", "fooba" and "foobar" of section 10 of RFC 4648. |
| `Claims.ToVaccine` | src/main.go:262-275 | Every field of a vaccination record is copied to the field of the same name, doses included. |
| `Claims.ToTest` | src/main.go:277-290 | Every field of a test record is copied to the field of the same name. For example, `Test.name` comes from the record's `name`. |
| `Claims.ToRecovery` | src/main.go:292-302 | Every field of a recovery record is copied to the field of the same name. |
| `Claims.ConvertersLossless` | src/main.go:262-302 | Each converter's output determines its input: two records give the same entry exactly when they are equal. |
| `Claims.AppendEach` | src/main.go:223-231 | The append loop keeps the list it started with. It then adds one entry per record, in record order, and entry i is the converter applied to record i. |
| `Claims.AppendEachLossless` | src/main.go:223-231 | With a lossless converter, two record lists give the same entry list exactly when the record lists are equal. |
| `Projector.ResolveKid` | src/main.go:233-237 | A non-empty envelope kid is used unchanged. An empty kid with a signer becomes exactly the first 8 bytes of SHA-256 over the signer's raw certificate. The result is empty exactly when the kid is empty and there is no signer. |
| `Projector.KidText` | src/main.go:233-239 | The `kid` text decodes back to the resolved key id. It is "" exactly when the kid is empty and there is no signer, and it has 12 characters when the kid was derived from the signer. |
| `Projector.ClaimListsLossless` | src/main.go:223-231 | Two certificates give the same vaccination, test or recovery list exactly when they carry the same records of that kind. |
| `Facade.ParseAndVerify` | src/main.go:108-122 | If Decode fails, its error is returned and the slot is unchanged. A filled slot is reused, never re-created. An empty slot takes whatever the constructor returned, even when the constructor also returns an error, and that error is returned. Otherwise Verify runs against the provider now in the slot. |
| `Facade.Next` | src/main.go:92-122 | A call changes the receiver only when it constructs a provider: a Validate of a decodable code while the slot is empty. The slot then holds the constructor's provider. |
| `Facade.ProviderIsReused` | src/main.go:114-121 | Once the slot holds a provider, no sequence of Parse/Validate calls changes it or calls the constructor. |
| `Facade.AtMostOneConstruction` | src/main.go:114-119 | If every constructor call returns a provider, any sequence of calls constructs at most once, and never when the slot starts filled. |
| `Facade.ConstructsOnceFromEmpty` | src/main.go:108-121 | From an empty slot, if every constructor call returns a provider, a sequence of calls constructs exactly once when some call validates a decodable code, and never otherwise. |
| `Facade.FreshReceiverConstructsOnce` | src/main.go:80-122 | A new `Service{}` (empty slot) constructs the provider exactly once over a sequence of calls that contains a Validate of a decodable code, and never over one that does not, when every constructor call returns a provider. |
| `Facade.UndecodableRequestsLeaveSlot` | src/main.go:108-113 | Calls whose codes fail to decode never read or write the slot and never call the constructor. |
| `Facade.RetryOnlyAfterNilProvider` | src/main.go:114-118 | After a failed construction, a later Validate of a decodable code constructs again exactly when the interface value the failed call stored in the slot is nil (`None`). Any non-nil value, including an interface holding a nil pointer, is kept and used as the provider. |
| `ServiceApi.CreateMessage` | src/main.go:220-254 | The claim lists match the records in length, order and content. `kid` is the base 64 of the resolved key id, and is "" only for an empty kid with no signer. `issued_on`/`expires_on` are the times formatted with the fixed layout. `signed_by`/`issued_by` are the signer's subject and issuer, and "" without a signer. `name` is the given name, a space, then the family name. `dob` is copied. |
| `ServiceApi.Parse` | src/main.go:92-106 | The receiver is unchanged. A Decode error gives the zero message together with that error. Otherwise the result is the projection of `SkipVerification`'s result, with no error. |
| `ServiceApi.Validate` | src/main.go:84-90 | The receiver afterwards is `parseNverify`'s. An error from it gives the zero message together with that error. Otherwise the result is the projection of the verified certificate, with no error. |
| `ServiceApi.ParseIgnoresProvider` | src/main.go:92-106 | Parse's reply does not depend on the provider slot. |
| `ServiceApi.DecodeFailureShortCircuits` | src/main.go:108-113 | A Decode failure makes Validate return the zero message and that error before the slot is inspected. The receiver is unchanged, whatever the constructor would return. |
| `ServiceApi.SetProviderIgnoresConstructor` | src/main.go:114-121 | With a provider in the slot, Validate's result does not depend on the constructor, and the receiver is unchanged. |
| `ServiceApi.ValidateErrorGivesZero` | src/main.go:84-90 | Every Validate error comes with the zero message. |
| `ServiceApi.ValidateRepeatable` | src/main.go:84-121 | After a successful Validate whose construction followed the Go convention (no error implies a provider), a second Validate of the same code, under its own clock and trust list, leaves the receiver unchanged and does not construct. It returns the projection or the error of Verify against the stored provider. At the same instant and with the same trust list, where that Verify gives the first call's result, it returns the first call's reply. |
| `ServiceApi.ParseHasNoSigner` | src/main.go:241-244 | On the Parse path `signed_by` and `issued_by` stay "", provided SkipVerification reports no signer. |
| `GreenPassApi.CreateMessage` | main.go:220-254 | The formatted issue and expiry times are stored in `IssuedAt`/`ExpiresAt`. `kid` is "" exactly when the envelope kid is empty and there is no signer, and the signer fields are "" without a signer. |
| `GreenPassApi.Parse` | main.go:97-111 | The receiver is unchanged. A Decode error gives the zero message with that error. Otherwise the result is the projection of the unverified certificate. |
| `GreenPassApi.Validate` | main.go:89-95 | The receiver afterwards is `parseNverify`'s. An error gives the zero message with that error. Otherwise the result is the projection of the verified certificate. |
| `GreenPassApi.CreateMessageAgrees` | main.go:220-254 | main.go's createMessage gives, for every certificate, the message of src/main.go's with `IssuedAt`/`ExpiresAt` holding `IssuedOn`/`ExpiresOn` and every other field equal. |
| `GreenPassApi.AgreesWithService` | main.go:240-246 | For the same inputs, `GreenPass` and `Service` end in the same receiver state and return the same error. Their messages hold the same content, with `IssuedAt`/`ExpiresAt` equal to `IssuedOn`/`ExpiresOn`. |

## Left out

- `coronaqr.Decode`, `SkipVerification`, `Verify` and `trustlistmirror.NewCertificateProvider` are library code outside this model. They do the base45 and zlib decoding, CBOR/COSE parsing and ECDSA/RSA signature checks. They appear only as parameters that may fail, with no assumed behaviour.
- The clock: `Verify` checks expiry against the current time. Each modelled call's `verify` stands for Verify at that call's time.
- SHA-256, `time.Time.Format` with its time-zone layout, and `pkix.Name.String` are foreign; their results are uninterpreted values. `fmt.Sprintf` with `%+v` or `%s` on a string is the string itself, and the model writes it that way.
- The HTTP layer (`RestController`, `Init`, `Start`, the three handlers), `messToBytes` JSON encoding, `getEnv`/`getPort`, `main` and the AWS Lambda adapter are I/O plumbing.
- Concurrency: the lazy provider creation is unsynchronised in the source. The model runs calls one after another and makes no claim about races.
- `float64` dose fields are kept as bit patterns and only copied. The Go difference between a nil slice and an empty slice, which only shows up as JSON `null` versus `[]`, is not modelled.
- `ServiceApi.ParseHasNoSigner`: this holds only under the hypothesis that SkipVerification reports no signer, because that library code is not part of this model.
- `Base64.Decode` is the canonical decoder of section 3.5 of RFC 4648, used as a partner for the encoder. Go's own, more lenient decoder is not used by the service and is not modelled.
- `trustlistmirror.NewCertificateProvider`'s result type is not part of this model. If it is a concrete pointer, every failed construction leaves a non-nil interface value in the slot. That value is then a `Some` provider that is never replaced, and what Verify does with it is left to the `verify` parameter.
