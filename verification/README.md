# Admin authentication guard of aode-relay, in Dafny

This project models the guard that protects the relay's administrative HTTP
endpoints (`src/extractors.rs`). A caller presents a secret in the
`x-api-token` header. The guard looks up the administrator configuration,
reads the header, asks bcrypt whether the token matches the stored hash, looks
up the database handle, and then either grants an `Admin` capability on that
handle or fails with one of five error kinds. A sixth kind, `BCryptHash`, comes
only from building the configuration at startup. Each error kind maps to an
HTTP status (400 or 500) and a fixed JSON message.

Modules:

- `Wrappers` (`wrappers.dfy`): Rust's `Option` and `Result`.
- `Extractors` (`extractors.dfy`): the modelled parts of the source file.
  - The token wrapper and its header codec.
  - `AdminConfig` and its `build`/`verify`.
  - The guard `AuthenticateAdmin`: `Admin::verify` with `AdminConfig::verify`
    in bcrypt's argument order. `AuthenticateAdmin(req, AsWrittenVerifier(verify))`
    is the guard as written.
  - The error taxonomy with `status_code` and `error_response`.
  - Lemmas saying which failure wins when several things are wrong.
- `GuardMachine` (`guard_machine.dfy`): the same guard written as an explicit
  state machine. It has five stages: config lookup, header extract, token
  check, db lookup, done. A run of the machine records the stages it passes
  through. This makes two things visible: which collaborators a request
  consulted, and in which order. It is proved to give the same answer as
  `AuthenticateAdmin` on every request.

Foreign code is passed in as parameters:

- bcrypt's `hash(password, cost)` is a function value of type `HashFn`.
- bcrypt's `verify(password, hash)` is a function value of type `VerifyFn`.
- `HeaderValue::from_str`'s validity check is a predicate on the text.
- The actix request is a record of three fields:
  - the registered `AdminConfig`, if any;
  - the outcome of reading the `x-api-token` header as text. The framework
    reports an error when the header is absent, unreadable or empty, so it
    never yields an empty token. The lemmas still cover that case.
  - the registered `Db`, if any.

`DEFAULT_COST` is bcrypt's constant 12.

What the code does and does not check:

- The code reads a single header value with `headers().get`
  (src/extractors.rs:176). It does not check whether the request carries
  several `x-api-token` headers. The model keeps the header-reading outcome
  abstract and claims nothing about duplicates.
- `status_code` maps `BCryptHash` to 500 like every other non-client error,
  although the guard itself never produces that kind. `StatusCode` does the
  same.
- Every response message is one of the six fixed display strings, the
  error kind's own. No primitive error text reaches the client.
  `ErrorResponse` proves this.

## Model

| member | source | states |
|---|---|---|
| `Extractors.NewToken` | src/extractors.rs:165-167 | `XApiToken::new` keeps the given string unchanged |
| `Extractors.TokenFromStr` | src/extractors.rs:191-193 | `from_str` never fails, and the token holds exactly the given string |
| `Extractors.ParseToken` | src/extractors.rs:175-177 | parsing succeeds exactly when the header could be read as text; the token is that text unchanged; a read failure is passed on unchanged |
| `Extractors.TokenIntoValue` | src/extractors.rs:183-185 | encoding succeeds exactly when the text is a valid header value, and then the header value carries the token's text unchanged |
| `Extractors.Message` | src/extractors.rs:119-137 | the display text of every error kind is one of the six fixed strings |
| `Extractors.MessageIdentifiesVariant` | src/extractors.rs:119-137 | two kinds have the same message exactly when they are the same variant, whatever sources they carry |
| `Extractors.StatusCode` | src/extractors.rs:140-145 | status is 400 exactly for `Invalid` and `ParseHeader`, and 500 for every other kind |
| `Extractors.ErrorResponse` | src/extractors.rs:147-150 | the response has the error's status, and its `msg` is the display text of the error's kind, one of the six fixed strings |
| `Extractors.ResponseDependsOnlyOnVariant` | src/extractors.rs:147-150 | errors of the same variant give identical responses, so nothing a source error carries reaches the client |
| `Extractors.BuildAdminConfig` | src/extractors.rs:28-32 | `build` succeeds exactly when hashing at the default cost succeeds and stores that hash; otherwise it fails with `BCryptHash` carrying the hash error |
| `Extractors.VerifyAgainstConfigAsWritten` | src/extractors.rs:34-36 | `verify` as written passes the stored hash as bcrypt's password and the token as bcrypt's hash; `Ok(b)` passes through, and a primitive error becomes `BCryptVerify` |
| `Extractors.VerifyAgainstConfig` | src/extractors.rs:34-36 | `verify` with the arguments in bcrypt's order: a mismatch is `Ok(false)`, not an error; only a primitive failure is an error, and it is `BCryptVerify` |
| `Extractors.DbRef` | src/extractors.rs:61-63 | `db_ref` returns the handle the capability was built with |
| `Extractors.AuthenticateAdmin` | src/extractors.rs:45-59 | the capability is granted exactly when the config is present, the header parses, verify returns `Ok(true)` and the db is present; its `db_ref` is the request's db; the guard never produces `BCryptHash`. This is `Admin::verify` with `AdminConfig::verify` in bcrypt's argument order; `AuthenticateAdmin(req, AsWrittenVerifier(verify))` is the guard as written |
| `Extractors.MissingConfigComesFirst` | src/extractors.rs:46-48 | without a config the answer is `MissingConfig` (500), whatever the header and the db |
| `Extractors.HeaderFailureSkipsVerifyAndDb` | src/extractors.rs:50 | config present and header unreadable gives `ParseHeader` with the parser's error (400); the answer is the same for any verifier and any db |
| `Extractors.VerifyErrorIsServerFault` | src/extractors.rs:52 | a verify primitive error gives `BCryptVerify` carrying that error (500), never `Invalid` |
| `Extractors.MismatchIsInvalidWhateverDb` | src/extractors.rs:52-58 | verify returning `false` gives `Invalid` (400), also when the db is missing |
| `Extractors.MatchWithoutDbIsMissingDb` | src/extractors.rs:53 | verify returning `true` without a db gives `MissingDb` (500) |
| `Extractors.ClientErrorsAreTheCallersFault` | src/extractors.rs:140-145 | a guard failure is a 400 exactly when the config is present and either the header is unreadable or verify returned `false` |
| `Extractors.AsWrittenGuardGrantsIff` | src/extractors.rs:34-59 | the guard as written grants the capability exactly when the config is present, the header parses, bcrypt's `verify` with the stored hash as password and the token as hash returns `Ok(true)`, and the db is present |
| `Extractors.AsWrittenVerifier` | src/extractors.rs:35 | `verify` with its arguments exchanged gives exactly the as-written `AdminConfig::verify`, so `AuthenticateAdmin` with it is the guard as written |
| `Extractors.AsWrittenRefusesConfiguredSecret` | src/extractors.rs:35 | if bcrypt's `verify` errors on a "hash" without a `$`, then the guard as written answers a request that presents the configured secret (itself without a `$`) with `BCryptVerify` (500), even with a db registered |
| `Extractors.AsWrittenRefusesS3cr3t` | src/extractors.rs:35 | concrete instance: the guard as written, configured with `s3cr3t`, answers 500 to a request presenting `s3cr3t` |
| `Extractors.ConfiguredSecretIsAdmitted` | src/extractors.rs:28-59 | with bcrypt's argument order, and if a hash verifies against its own password, a request presenting the configured secret with a db registered is granted the capability on that db |
| `GuardMachine.Step` | src/extractors.rs:45-59 | each step either finishes or moves strictly closer to the end; the header is extracted only after the config was found; the token is checked only with the parsed header's token; the db is looked up only after verify returned `Ok(true)` |
| `GuardMachine.Trace` | src/extractors.rs:45-59 | a run starts at its first stage and ends in exactly one final `Done` stage; each stage is the step of the one before it; ranks fall strictly, so the stage order is fixed and nothing is revisited |
| `GuardMachine.MachineAgreesWithGuard` | src/extractors.rs:45-59 | the state machine's answer equals `AuthenticateAdmin`'s on every request and every verifier |
| `GuardMachine.TokenCheckedIffConfigAndHeader` | src/extractors.rs:46-52 | the verifier is consulted exactly when the config is present and the header parsed, and then with the configured hash and the header's token |
| `GuardMachine.DbLookedUpIffTokenAccepted` | src/extractors.rs:52-53 | the db is consulted exactly when the config is present, the header parsed and verify returned `Ok(true)` |
| `GuardMachine.DbLookupDecidesOnlyStoreOutcomes` | src/extractors.rs:52-58 | a run that consults the db ends either with the capability or with `MissingDb` |

## Findings

| source | as written | input that shows it | evidently intended | confidence | as-written member | corrected member |
|---|---|---|---|---|---|---|
| src/extractors.rs:35 | `bcrypt::verify(&self.hashed_api_token, &token.0)` passes the stored hash as the password and the presented token as the hash. bcrypt's signature is `verify(password, hash)`. | Config built from `s3cr3t`; request with `x-api-token: s3cr3t`. bcrypt cannot split `s3cr3t` at `$` into the parts of a hash and returns an error, so the guard answers 500 `BCryptVerify` instead of granting access. | `bcrypt::verify(&token.0, &self.hashed_api_token)`: the configured secret is admitted | high (not executed; relies on bcrypt's `verify(password, hash)` argument order and its parsing of the hash at `$`) | `Extractors.AsWrittenRefusesConfiguredSecret` | `Extractors.ConfiguredSecretIsAdmitted` |

The as-written step is `Extractors.VerifyAgainstConfigAsWritten`.
`AuthenticateAdmin` given `AsWrittenVerifier(verify)` is the guard as written;
`AsWrittenVerifier`'s contract ties the two together. The corrected
`Extractors.VerifyAgainstConfig` is the one `AuthenticateAdmin` calls and
`GuardMachine` uses. The bcrypt behaviour these lemmas rely on is never assumed
globally. Each lemma takes only what it needs as a hypothesis:

- `RejectsNonHash`: `verify` errors on a "hash" containing no `$`, because it
  splits the hash at `$` into version, cost and salt-and-digest. The
  as-written lemmas need only this.
- `HashVerifiesOwnPassword`: a hash made by `hash` verifies against its own
  password. `ConfiguredSecretIsAdmitted` needs only this.

## Left out

- bcrypt itself (salting, the cost factor's effect, constant-time comparison)
  is not modelled. `hash` and `verify` are parameters.
- Two properties of bcrypt are not proved: "build(S) then verify(S) is true"
  and "a different secret verifies to false, not to an error". Only the first
  is used, and only as the hypothesis `HashVerifiesOwnPassword` above.
- Header lookup and decoding (`headers().get`, `from_one_raw_str`,
  `HeaderValue::from_str`) belong to the HTTP library. The model keeps them
  abstract: the request carries the outcome of reading the header as text, and
  encoding takes a validity predicate.
- Duplicate `x-api-token` headers are not modelled. The code reads a single
  value and nothing in it checks for more. No encode/decode round trip through
  the library is claimed either.
- `XApiToken::name` (the header name `x-api-token`) is not modelled. The
  request carries the header already read, so the model never looks a header
  up by name.
- `FromRequest for Admin` (src/extractors.rs:153-160) is left out. It only
  wraps `Admin::verify` in a ready future, and `Data<T>` reference counting is
  framework plumbing. `AuthenticateAdmin` is the whole decision.
- `SpanTrace::capture`, the tracing instrumentation and the `serde_json` body
  construction are not modelled. An error is just its kind, and a response is
  its status and `msg` string.
- The `Error::invalid`/`missing_config`/... constructors are not separate
  members. They become `Error(kind)` values directly.
- Offloading the bcrypt comparison to a worker pool is a concurrency concern
  and is not modelled. The code runs verification inline anyway.
- `AuthenticateAdmin`: Dafny cannot make `Admin` constructible only through
  the guard, as the Rust module privacy does. The model proves what the guard
  returns; it does not prove that no other code builds an `Admin`.
