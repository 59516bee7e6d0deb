/**
 * The admin guard as an explicit state machine: configuration lookup, header
 * extraction, token check, store lookup, done. A run of the machine is the
 * sequence of stages it passes through, so it shows which collaborators a
 * request consulted and in which order. The lemmas below prove that the run
 * ends with exactly the answer of `Extractors.AuthenticateAdmin`, that the
 * stages come in their fixed order, and that the verifier and the store are
 * consulted only when every earlier step has succeeded.
 */
module GuardMachine {
  import opened Wrappers
  import opened Extractors

  /** The stages of one guard evaluation. */
  datatype Stage =
    | ConfigLookup
    | HeaderExtract(config: AdminConfig)
    | TokenCheck(config: AdminConfig, token: XApiToken)
    | DbLookup
    | Done(outcome: Result<Admin, Error>)

  /** How many steps a stage is from the end; it falls with every step. */
  function Rank(s: Stage): nat
  {
    match s
    case ConfigLookup => 4
    case HeaderExtract(_) => 3
    case TokenCheck(_, _) => 2
    case DbLookup => 1
    case Done(_) => 0
  }

  /** One transition: the step either moves to the next stage or ends with an answer. */
  function Step(s: Stage, req: Request, verify: VerifyFn): (next: Stage)
    ensures s.Done? ==> next == s
    ensures !s.Done? ==> Rank(next) < Rank(s)
    ensures next.HeaderExtract? ==> s == ConfigLookup && req.adminConfig == Some(next.config)
    ensures next.TokenCheck? ==> s.HeaderExtract? && next.config == s.config && ParseToken(req) == Ok(next.token)
    ensures next.DbLookup? ==> s.TokenCheck? && VerifyAgainstConfig(s.config, s.token, verify) == Ok(true)
  {
    match s
    case ConfigLookup =>
      (match req.adminConfig
       case None => Done(Err(Error(MissingConfig)))
       case Some(config) => HeaderExtract(config))
    case HeaderExtract(config) =>
      (match ParseToken(req)
       case Err(e) => Done(Err(Error(ParseHeader(e))))
       case Ok(token) => TokenCheck(config, token))
    case TokenCheck(config, token) =>
      (match VerifyAgainstConfig(config, token, verify)
       case Err(e) => Done(Err(e))
       case Ok(matches) => if matches then DbLookup else Done(Err(Error(Invalid))))
    case DbLookup =>
      (match req.db
       case None => Done(Err(Error(MissingDb)))
       case Some(db) => Done(Ok(Admin(db))))
    case Done(_) => s
  }

  /**
   * The stages a run starting at `s` passes through, ending with its first
   * `Done` stage; each stage is the step of the one before it, and the ranks
   * fall strictly, so no stage is ever revisited or taken out of order.
   */
  function Trace(s: Stage, req: Request, verify: VerifyFn): (t: seq<Stage>)
    ensures 1 <= |t| <= Rank(s) + 1
    ensures t[0] == s && t[|t| - 1].Done?
    ensures forall i :: 0 <= i < |t| - 1 ==> !t[i].Done? && t[i + 1] == Step(t[i], req, verify)
    ensures forall i, j :: 0 <= i < j < |t| ==> Rank(t[j]) < Rank(t[i])
    decreases Rank(s)
  {
    if s.Done? then [s] else [s] + Trace(Step(s, req, verify), req, verify)
  }

  /** The whole run for a request. */
  function Run(req: Request, verify: VerifyFn): seq<Stage>
  {
    Trace(ConfigLookup, req, verify)
  }

  /** The stage a run starting at `s` ends in. */
  function Final(s: Stage, req: Request, verify: VerifyFn): Stage
  {
    var t := Trace(s, req, verify);
    t[|t| - 1]
  }

  /** The answer a run ends with. */
  function Outcome(req: Request, verify: VerifyFn): Result<Admin, Error>
  {
    Final(ConfigLookup, req, verify).outcome
  }

  /** A run from a stage that is not done ends where the run from its successor ends. */
  lemma {:induction false} FinalOfStep(s: Stage, req: Request, verify: VerifyFn)
    requires !s.Done?
    ensures Final(s, req, verify) == Final(Step(s, req, verify), req, verify)
  {
  }

  /** A run that starts done stays where it is. */
  lemma FinalOfDone(outcome: Result<Admin, Error>, req: Request, verify: VerifyFn)
    ensures Final(Done(outcome), req, verify) == Done(outcome)
  {
  }

  /** The state machine and the guard's chain of early returns give the same answer on every request. */
  lemma {:induction false} MachineAgreesWithGuard(req: Request, verify: VerifyFn)
    ensures Outcome(req, verify) == AuthenticateAdmin(req, verify)
  {
    var answer := AuthenticateAdmin(req, verify);
    FinalOfStep(ConfigLookup, req, verify);
    FinalOfDone(answer, req, verify);
    match req.adminConfig
    case None =>
      assert Step(ConfigLookup, req, verify) == Done(answer);
    case Some(config) =>
      assert Step(ConfigLookup, req, verify) == HeaderExtract(config);
      FinalOfStep(HeaderExtract(config), req, verify);
      match ParseToken(req)
      case Err(_) =>
        assert Step(HeaderExtract(config), req, verify) == Done(answer);
      case Ok(token) =>
        assert Step(HeaderExtract(config), req, verify) == TokenCheck(config, token);
        FinalOfStep(TokenCheck(config, token), req, verify);
        if VerifyAgainstConfig(config, token, verify) == Ok(true) {
          assert Step(TokenCheck(config, token), req, verify) == DbLookup;
          FinalOfStep(DbLookup, req, verify);
          assert Step(DbLookup, req, verify) == Done(answer);
        } else {
          assert Step(TokenCheck(config, token), req, verify) == Done(answer);
        }
  }

  /** The run consults the verifier (reaches a token check). */
  predicate ChecksToken(req: Request, verify: VerifyFn)
  {
    exists s :: s in Run(req, verify) && s.TokenCheck?
  }

  /** The run consults the store (reaches the store lookup). */
  predicate LooksUpDb(req: Request, verify: VerifyFn)
  {
    DbLookup in Run(req, verify)
  }

  /**
   * The verifier is consulted exactly when a configuration is present and the
   * header parsed, and then on the configured hash and the header's token.
   */
  lemma {:induction false} TokenCheckedIffConfigAndHeader(req: Request, verify: VerifyFn)
    ensures ChecksToken(req, verify) <==> req.adminConfig.Some? && req.tokenHeader.Ok?
    ensures ChecksToken(req, verify) ==>
              TokenCheck(req.adminConfig.value, XApiToken(req.tokenHeader.value)) in Run(req, verify)
  {
  }

  /**
   * The store is consulted exactly when the configuration is present, the
   * header parsed and the verifier accepted the token.
   */
  lemma {:induction false} DbLookedUpIffTokenAccepted(req: Request, verify: VerifyFn)
    ensures LooksUpDb(req, verify) <==> PresentsValidToken(req, verify)
  {
    var t := Run(req, verify);
    if LooksUpDb(req, verify) {
      var i :| 0 <= i < |t| && t[i] == DbLookup;
      assert t[i - 1].TokenCheck? && t[i - 2].HeaderExtract? && t[i - 3] == ConfigLookup;
    }
    if PresentsValidToken(req, verify) {
      assert t[1] == HeaderExtract(req.adminConfig.value);
      assert t[2] == TokenCheck(req.adminConfig.value, XApiToken(req.tokenHeader.value));
      assert t[3] == DbLookup;
    }
  }

  /**
   * Every failure is decided before the store is consulted, except the
   * missing store itself: a run that looks up the store ends either with the
   * capability or with `MissingDb`.
   */
  lemma {:induction false} DbLookupDecidesOnlyStoreOutcomes(req: Request, verify: VerifyFn)
    requires LooksUpDb(req, verify)
    ensures Outcome(req, verify).Ok? || Outcome(req, verify) == Err(Error(MissingDb))
  {
    DbLookedUpIffTokenAccepted(req, verify);
    MachineAgreesWithGuard(req, verify);
  }
}
