/**
 * The admin-authentication guard of the relay's HTTP server: the `x-api-token`
 * header wrapper, the hashed administrator secret, the per-request guard that
 * turns a request into an `Admin` capability or a typed error, and the mapping
 * of that error onto an HTTP status and a JSON message.
 *
 * The foreign pieces are parameters: bcrypt's `hash` and `verify` are the
 * function values `HashFn` and `VerifyFn`, the header-value validity check of
 * the HTTP library is a predicate, and the application data the framework
 * attaches to a request is a record of optional fields.
 */
module Extractors {
  import opened Wrappers

  /** bcrypt's `DEFAULT_COST`, the work factor `build` hashes with. */
  const DefaultCost: nat := 12

  /** The HTTP statuses the guard can answer with. */
  const BadRequest: nat := 400
  const InternalServerError: nat := 500

  // ---------------------------------------------------------------------------
  // Foreign collaborators

  /** An error reported by the bcrypt primitives; its payload is opaque here. */
  datatype BcryptError = BcryptError(detail: string)

  /** An error of the framework's header parser; its payload is opaque here. */
  datatype ParseError = ParseError(detail: string)

  /** The error `HeaderValue::from_str` reports for text that is not a valid header value. */
  datatype InvalidHeaderValue = InvalidHeaderValue

  /** `bcrypt::hash(password, cost)`. */
  type HashFn = (string, nat) -> Result<string, BcryptError>

  /** `bcrypt::verify(password, hash)`: does `password` match the bcrypt `hash`? */
  type VerifyFn = (string, string) -> Result<bool, BcryptError>

  /** The data-store handle the capability hands out; only its identity matters here. */
  datatype Db = Db(id: nat)

  /** An encoded header value. */
  datatype HeaderValue = HeaderValue(text: string)

  /**
   * What the guard can see of an incoming request: the `AdminConfig` and `Db`
   * registered as application data (absent when the server was not given
   * them), and the outcome of the framework reading the `x-api-token` header
   * as text. That outcome is an error when the header is absent, is not
   * readable text, or is empty, so the framework never yields `Ok("")`; the
   * lemmas below range over every request, that one included.
   */
  datatype Request = Request(
    adminConfig: Option<AdminConfig>,
    tokenHeader: Result<string, ParseError>,
    db: Option<Db>)

  // ---------------------------------------------------------------------------
  // The token header

  /** The presented token, the header's text kept as it is. */
  datatype XApiToken = XApiToken(value: string)

  /** `XApiToken::new`: wraps the given string. */
  function NewToken(token: string): (t: XApiToken)
    ensures t.value == token
  {
    XApiToken(token)
  }

  /**
   * `XApiToken::from_str`. Its error type is `Infallible`, which has no values;
   * the unit type stands for it, and the contract says it never occurs.
   */
  function TokenFromStr(s: string): (r: Result<XApiToken, ()>)
    ensures r.Ok? && r.value.value == s
  {
    Ok(XApiToken(s))
  }

  /**
   * `XApiToken::parse`: the framework reads the header as text and builds the
   * token with `from_str`. A failure to read the header is passed on unchanged.
   */
  function ParseToken(req: Request): (r: Result<XApiToken, ParseError>)
    ensures r.Ok? <==> req.tokenHeader.Ok?
    ensures r.Ok? ==> r.value.value == req.tokenHeader.value
    ensures r.Err? ==> r.error == req.tokenHeader.error
  {
    match req.tokenHeader
    case Err(e) => Err(e)
    case Ok(s) => Ok(TokenFromStr(s).value)
  }

  /**
   * `try_into_value`: encodes the token as a header value, which succeeds
   * exactly when the library's check `isValid` accepts the text.
   */
  function TokenIntoValue(t: XApiToken, isValid: string -> bool): (r: Result<HeaderValue, InvalidHeaderValue>)
    ensures r.Ok? <==> isValid(t.value)
    ensures r.Ok? ==> r.value.text == t.value
  {
    if isValid(t.value) then Ok(HeaderValue(t.value)) else Err(InvalidHeaderValue)
  }

  // ---------------------------------------------------------------------------
  // Errors

  /** The kinds of authentication failure, with the sources some of them carry. */
  datatype ErrorKind =
    | Invalid
    | MissingConfig
    | MissingDb
    | BCryptVerify(verifyError: BcryptError)
    | BCryptHash(hashError: BcryptError)
    | ParseHeader(parseError: ParseError)

  /** The guard's error; the captured span trace is not modelled. */
  datatype Error = Error(kind: ErrorKind)

  /** The JSON error response: its status and the `msg` field of its body. */
  datatype ErrorBody = ErrorBody(status: nat, msg: string)

  /** The six display strings of the error kinds. */
  const Messages: set<string> :=
    {"Invalid API Token", "Missing Config", "Missing Db", "Verifying", "Hashing", "Parse Header"}

  /** Two kinds are the same variant, whatever sources they carry. */
  predicate SameVariant(k1: ErrorKind, k2: ErrorKind)
  {
    || (k1.Invalid? && k2.Invalid?)
    || (k1.MissingConfig? && k2.MissingConfig?)
    || (k1.MissingDb? && k2.MissingDb?)
    || (k1.BCryptVerify? && k2.BCryptVerify?)
    || (k1.BCryptHash? && k2.BCryptHash?)
    || (k1.ParseHeader? && k2.ParseHeader?)
  }

  /** The display text of a kind; a source error is never part of it. */
  function Message(k: ErrorKind): (m: string)
    ensures m in Messages
  {
    match k
    case Invalid => "Invalid API Token"
    case MissingConfig => "Missing Config"
    case MissingDb => "Missing Db"
    case BCryptVerify(_) => "Verifying"
    case BCryptHash(_) => "Hashing"
    case ParseHeader(_) => "Parse Header"
  }

  /** `status_code`: a bad credential or a bad header is the client's fault, all else the server's. */
  function StatusCode(e: Error): (code: nat)
    ensures code == BadRequest <==> (e.kind.Invalid? || e.kind.ParseHeader?)
    ensures code == InternalServerError <==> !(e.kind.Invalid? || e.kind.ParseHeader?)
  {
    match e.kind
    case Invalid | ParseHeader(_) => BadRequest
    case _ => InternalServerError
  }

  /** `error_response`: the status of the error and a body whose `msg` is the kind's display text. */
  function ErrorResponse(e: Error): (b: ErrorBody)
    ensures b.status == StatusCode(e)
    ensures b.msg == Message(e.kind) && b.msg in Messages
  {
    ErrorBody(StatusCode(e), Message(e.kind))
  }

  /** Distinct variants have distinct messages, so the message names the variant and nothing more. */
  lemma MessageIdentifiesVariant(k1: ErrorKind, k2: ErrorKind)
    ensures Message(k1) == Message(k2) <==> SameVariant(k1, k2)
  {
  }

  /**
   * The response depends on the variant alone: whatever a verify error, hash
   * error or parse error carries (bcrypt's error for an unusable hash quotes
   * the text it was given) never reaches the client.
   */
  lemma ResponseDependsOnlyOnVariant(e1: Error, e2: Error)
    requires SameVariant(e1.kind, e2.kind)
    ensures ErrorResponse(e1) == ErrorResponse(e2)
  {
  }

  // ---------------------------------------------------------------------------
  // The configured secret

  /** The administrator secret, kept only as a bcrypt hash. */
  datatype AdminConfig = AdminConfig(hashedApiToken: string)

  /** `AdminConfig::build`: hashes the secret at the default cost; a hashing failure is a `BCryptHash` error. */
  function BuildAdminConfig(apiToken: string, hash: HashFn): (r: Result<AdminConfig, Error>)
    ensures r.Ok? <==> hash(apiToken, DefaultCost).Ok?
    ensures r.Ok? ==> r.value.hashedApiToken == hash(apiToken, DefaultCost).value
    ensures r.Err? ==> r.error.kind == BCryptHash(hash(apiToken, DefaultCost).error)
  {
    match hash(apiToken, DefaultCost)
    case Ok(h) => Ok(AdminConfig(h))
    case Err(e) => Err(Error(BCryptHash(e)))
  }

  /**
   * `AdminConfig::verify` as intended: asks bcrypt whether the token (the
   * password) matches the stored hash. A mismatch is `Ok(false)`; only a
   * failure of the primitive is an error, and it is a `BCryptVerify` error.
   */
  function VerifyAgainstConfig(config: AdminConfig, token: XApiToken, verify: VerifyFn): (r: Result<bool, Error>)
    ensures r.Ok? <==> verify(token.value, config.hashedApiToken).Ok?
    ensures r.Ok? ==> r.value == verify(token.value, config.hashedApiToken).value
    ensures r.Err? ==> r.error.kind == BCryptVerify(verify(token.value, config.hashedApiToken).error)
  {
    match verify(token.value, config.hashedApiToken)
    case Ok(b) => Ok(b)
    case Err(e) => Err(Error(BCryptVerify(e)))
  }

  /**
   * `AdminConfig::verify` as written: the stored hash is passed where bcrypt
   * expects the password and the presented token where it expects the hash.
   */
  function VerifyAgainstConfigAsWritten(config: AdminConfig, token: XApiToken, verify: VerifyFn): (r: Result<bool, Error>)
    ensures r.Ok? <==> verify(config.hashedApiToken, token.value).Ok?
    ensures r.Ok? ==> r.value == verify(config.hashedApiToken, token.value).value
    ensures r.Err? ==> r.error.kind == BCryptVerify(verify(config.hashedApiToken, token.value).error)
  {
    match verify(config.hashedApiToken, token.value)
    case Ok(b) => Ok(b)
    case Err(e) => Err(Error(BCryptVerify(e)))
  }

  /**
   * A property of bcrypt, used only as a hypothesis: a hash made by `hash`
   * verifies against the password it was made from.
   */
  ghost predicate HashVerifiesOwnPassword(hash: HashFn, verify: VerifyFn)
  {
    forall p, c :: hash(p, c).Ok? ==> verify(p, hash(p, c).value) == Ok(true)
  }

  /**
   * A property of bcrypt, used only as a hypothesis: `verify` splits the hash
   * at `$` into version, cost and salt-and-digest, so text without a `$` is
   * not a hash it can read, and it answers with an error.
   */
  ghost predicate RejectsNonHash(verify: VerifyFn)
  {
    forall p, h :: '$' !in h ==> verify(p, h).Err?
  }

  /**
   * bcrypt's `verify` with its two arguments exchanged. `AdminConfig::verify`
   * as written calls `verify` this way, so `AuthenticateAdmin` given this
   * verifier is the guard as written.
   */
  function AsWrittenVerifier(verify: VerifyFn): (swapped: VerifyFn)
    ensures forall config, token ::
              VerifyAgainstConfig(config, token, swapped) == VerifyAgainstConfigAsWritten(config, token, verify)
  {
    (password, hash) => verify(hash, password)
  }

  // ---------------------------------------------------------------------------
  // The guard

  /** The capability handed to admin routes: a handle to the store. */
  datatype Admin = Admin(db: Db)

  /** `Admin::db_ref`: the store handle the capability was built with. */
  function DbRef(admin: Admin): (db: Db)
    ensures admin == Admin(db)
  {
    admin.db
  }

  /** The request carries a configuration, a readable header, and a token bcrypt accepts. */
  predicate PresentsValidToken(req: Request, verify: VerifyFn)
  {
    && req.adminConfig.Some?
    && req.tokenHeader.Ok?
    && verify(req.tokenHeader.value, req.adminConfig.value.hashedApiToken) == Ok(true)
  }

  /**
   * `Admin::verify`, with `AdminConfig::verify` calling bcrypt's `verify` in
   * bcrypt's own argument order; `AuthenticateAdmin(req, AsWrittenVerifier(verify))`
   * is the guard as written (see `AsWrittenGuardGrantsIff`). Look up the
   * configuration, parse the header, verify the token, look up the store,
   * build the capability; each step either goes on or ends the request with an
   * error. The capability is granted exactly when every step succeeds, and it
   * holds the store handle of the request.
   */
  function AuthenticateAdmin(req: Request, verify: VerifyFn): (r: Result<Admin, Error>)
    ensures r.Ok? <==> PresentsValidToken(req, verify) && req.db.Some?
    ensures r.Ok? ==> DbRef(r.value) == req.db.value
    ensures r.Err? ==> !r.error.kind.BCryptHash?
  {
    match req.adminConfig
    case None => Err(Error(MissingConfig))
    case Some(config) =>
      match ParseToken(req)
      case Err(e) => Err(Error(ParseHeader(e)))
      case Ok(token) =>
        match VerifyAgainstConfig(config, token, verify)
        case Err(e) => Err(e)
        case Ok(matches) =>
          if matches then
            match req.db
            case None => Err(Error(MissingDb))
            case Some(db) => Ok(Admin(db))
          else
            Err(Error(Invalid))
  }

  // ---------------------------------------------------------------------------
  // Which failure wins

  /** Without a configuration the answer is `MissingConfig` (500), whatever the header and the store. */
  lemma MissingConfigComesFirst(req: Request, verify: VerifyFn)
    requires req.adminConfig.None?
    ensures AuthenticateAdmin(req, verify) == Err(Error(MissingConfig))
    ensures StatusCode(AuthenticateAdmin(req, verify).error) == InternalServerError
  {
  }

  /**
   * With a configuration but an unreadable header the answer is `ParseHeader`
   * (400) carrying the parser's error, and neither the verifier nor the store
   * is consulted: any other verifier and any other store give the same answer.
   */
  lemma HeaderFailureSkipsVerifyAndDb(req: Request, verify: VerifyFn, otherVerify: VerifyFn, otherDb: Option<Db>)
    requires req.adminConfig.Some? && req.tokenHeader.Err?
    ensures AuthenticateAdmin(req, verify) == Err(Error(ParseHeader(req.tokenHeader.error)))
    ensures AuthenticateAdmin(req.(db := otherDb), otherVerify) == AuthenticateAdmin(req, verify)
    ensures StatusCode(AuthenticateAdmin(req, verify).error) == BadRequest
  {
  }

  /** A failing bcrypt primitive is a `BCryptVerify` error (500), never a bad credential. */
  lemma VerifyErrorIsServerFault(req: Request, verify: VerifyFn)
    requires req.adminConfig.Some? && req.tokenHeader.Ok?
    requires verify(req.tokenHeader.value, req.adminConfig.value.hashedApiToken).Err?
    ensures AuthenticateAdmin(req, verify)
         == Err(Error(BCryptVerify(verify(req.tokenHeader.value, req.adminConfig.value.hashedApiToken).error)))
    ensures StatusCode(AuthenticateAdmin(req, verify).error) == InternalServerError
  {
  }

  /**
   * A token bcrypt rejects is `Invalid` (400) even when the store is missing:
   * the store is looked up only after a successful verification.
   */
  lemma MismatchIsInvalidWhateverDb(req: Request, verify: VerifyFn, otherDb: Option<Db>)
    requires req.adminConfig.Some? && req.tokenHeader.Ok?
    requires verify(req.tokenHeader.value, req.adminConfig.value.hashedApiToken) == Ok(false)
    ensures AuthenticateAdmin(req, verify) == Err(Error(Invalid))
    ensures AuthenticateAdmin(req.(db := otherDb), verify) == Err(Error(Invalid))
    ensures StatusCode(AuthenticateAdmin(req, verify).error) == BadRequest
  {
  }

  /** A token bcrypt accepts, without a store, is `MissingDb` (500). */
  lemma MatchWithoutDbIsMissingDb(req: Request, verify: VerifyFn)
    requires PresentsValidToken(req, verify) && req.db.None?
    ensures AuthenticateAdmin(req, verify) == Err(Error(MissingDb))
    ensures StatusCode(AuthenticateAdmin(req, verify).error) == InternalServerError
  {
  }

  /**
   * The guard answers 400 exactly for what the caller controls (an unreadable
   * header, or a token bcrypt rejects) and 500 for every server-side fault.
   */
  lemma ClientErrorsAreTheCallersFault(req: Request, verify: VerifyFn)
    requires AuthenticateAdmin(req, verify).Err?
    ensures StatusCode(AuthenticateAdmin(req, verify).error) == BadRequest
        <==> req.adminConfig.Some?
             && (req.tokenHeader.Err?
                 || verify(req.tokenHeader.value, req.adminConfig.value.hashedApiToken) == Ok(false))
  {
  }

  // ---------------------------------------------------------------------------
  // The swapped verify arguments

  /**
   * The guard as written grants the capability exactly when bcrypt's `verify`,
   * given the stored hash as its password and the presented token as its
   * hash, answers `Ok(true)`, and the config, header and store are present.
   */
  lemma AsWrittenGuardGrantsIff(req: Request, verify: VerifyFn)
    ensures AuthenticateAdmin(req, AsWrittenVerifier(verify)).Ok? <==>
              && req.adminConfig.Some?
              && req.tokenHeader.Ok?
              && verify(req.adminConfig.value.hashedApiToken, req.tokenHeader.value) == Ok(true)
              && req.db.Some?
  {
  }

  /**
   * The guard as written refuses the very secret it was configured with:
   * bcrypt is asked to read the presented secret as a hash, which text without
   * a `$` cannot be, so the request fails with `BCryptVerify`, a 500, instead
   * of being granted the capability.
   */
  lemma AsWrittenRefusesConfiguredSecret(secret: string, hash: HashFn, verify: VerifyFn, db: Db)
    requires RejectsNonHash(verify)
    requires '$' !in secret
    requires BuildAdminConfig(secret, hash).Ok?
    ensures var r := AuthenticateAdmin(Request(Some(BuildAdminConfig(secret, hash).value), Ok(secret), Some(db)),
                                       AsWrittenVerifier(verify));
            r.Err? && r.error.kind.BCryptVerify? && StatusCode(r.error) == InternalServerError
  {
  }

  /** The concrete case: a server configured with `s3cr3t` answers 500 to a request presenting `s3cr3t`. */
  lemma AsWrittenRefusesS3cr3t(hash: HashFn, verify: VerifyFn, db: Db)
    requires RejectsNonHash(verify)
    requires BuildAdminConfig("s3cr3t", hash).Ok?
    ensures var r := AuthenticateAdmin(Request(Some(BuildAdminConfig("s3cr3t", hash).value), Ok("s3cr3t"), Some(db)),
                                       AsWrittenVerifier(verify));
            r.Err? && StatusCode(r.error) == InternalServerError
  {
    AsWrittenRefusesConfiguredSecret("s3cr3t", hash, verify, db);
  }

  /**
   * With the arguments in bcrypt's order, a request presenting the configured
   * secret, with a store registered, is granted the capability on that store.
   */
  lemma ConfiguredSecretIsAdmitted(secret: string, hash: HashFn, verify: VerifyFn, db: Db)
    requires HashVerifiesOwnPassword(hash, verify)
    requires BuildAdminConfig(secret, hash).Ok?
    ensures AuthenticateAdmin(Request(Some(BuildAdminConfig(secret, hash).value), Ok(secret), Some(db)), verify)
         == Ok(Admin(db))
  {
  }
}
