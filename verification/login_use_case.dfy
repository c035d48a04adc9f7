/**
 * `LoginUseCase`: one credential check, then two gates (unknown or wrong
 * credentials, inactive account), then the token.  The steps it takes are
 * recorded so that "the token is only issued to an active user" is a
 * statement about the run.
 */
module LoginUseCase {
  import opened JsValues
  import opened Exceptions
  import opened UserModel
  import UserRepository
  import AuthService

  /** `LoginDto`. */
  datatype LoginDto = LoginDto(email: string, password: string)

  /** A call the use case makes into the authentication service. */
  datatype LoginStep = ValidateUserCall(email: string, password: string) | GenerateJwtCall(user: User)

  datatype LoginRun = LoginRun(outcome: Attempt<AuthService.LoginPayload>, steps: seq<LoginStep>)

  /** A token was requested somewhere in the run. */
  predicate IssuedToken(steps: seq<LoginStep>) {
    exists i :: 0 <= i < |steps| && steps[i].GenerateJwtCall?
  }

  /**
   * `execute(loginDto)`: `validateUser` is `authService.validateUser` and
   * `generateJwt` is `authService.generateJWT`; either may reject, and a
   * rejection reaches the caller unchanged.
   */
  function Execute(dto: LoginDto, validateUser: (string, string) -> Attempt<Option<User>>,
                   generateJwt: User -> Attempt<AuthService.LoginPayload>): (r: LoginRun)
    ensures |r.steps| == (if IssuedToken(r.steps) then 2 else 1)
    ensures r.steps[0] == ValidateUserCall(dto.email, dto.password)
    ensures IssuedToken(r.steps) <==>
              validateUser(dto.email, dto.password).Done? && validateUser(dto.email, dto.password).value.Some?
              && IsActive(validateUser(dto.email, dto.password).value.value)
    ensures validateUser(dto.email, dto.password).Raised? ==>
              r.outcome == Raised(validateUser(dto.email, dto.password).error)
    ensures validateUser(dto.email, dto.password) == Done(None) ==> r.outcome == Raised(Http(InvalidCredentials()))
    ensures validateUser(dto.email, dto.password).Done? && validateUser(dto.email, dto.password).value.Some? ==>
              var u := validateUser(dto.email, dto.password).value.value;
              && (!IsActive(u) ==> r.outcome == Raised(Http(InactiveUser())))
              && (IsActive(u) ==> r.outcome == generateJwt(u) && r.steps[1] == GenerateJwtCall(u))
  {
    var first := [ValidateUserCall(dto.email, dto.password)];
    match validateUser(dto.email, dto.password)
    case Raised(t) => LoginRun(Raised(t), first)
    case Done(None) => LoginRun(Raised(Http(InvalidCredentials())), first)
    case Done(Some(u)) =>
      if !IsActive(u) then LoginRun(Raised(Http(InactiveUser())), first)
      else
        var steps := first + [GenerateJwtCall(u)];
        assert steps[1].GenerateJwtCall?;
        LoginRun(generateJwt(u), steps)
  }

  /**
   * The whole login against a user store: the service's fault-tolerant
   * check over the repository, then the token over the configured signer.
   * `matches` stands for `bcrypt.compare`.
   */
  function LoginOnStore(store: UserRepository.Store, dto: LoginDto, matches: (string, string) -> bool,
                        cfg: AuthService.Config, sign: AuthService.Signer): LoginRun {
    Execute(dto,
            (e, p) => AuthService.ValidateUser(e, p, (e2, p2) => Done(UserRepository.ValidateCredentials(store, e2, p2, matches))).0,
            u => Done(AuthService.GenerateJwt(u, cfg, sign)))
  }

  /**
   * A token is issued exactly when the address is stored, the password
   * matches its hash and the account is active; it is signed over that
   * row's claims, and the user returned is that row without its password.
   */
  lemma TokenIssuedIffValidAndActive(store: UserRepository.Store, dto: LoginDto, matches: (string, string) -> bool,
                                     cfg: AuthService.Config, sign: AuthService.Signer)
    ensures var r := LoginOnStore(store, dto, matches, cfg, sign);
            r.outcome.Done? <==>
              dto.email in store && matches(dto.password, store[dto.email].password)
              && store[dto.email].idStatus == ACTIVE_STATUS
    ensures var r := LoginOnStore(store, dto, matches, cfg, sign);
            r.outcome.Done? ==>
              var e := store[dto.email];
              && r.outcome.value.accessToken
                 == sign(AuthService.AccessClaims(e.email, e.id, e.name, e.lastName, e.idRole, e.idStatus),
                         AuthService.SignOptions(cfg.jwtSecret, None))
              && r.outcome.value.user == ToPlainObject(FromEntity(e))
              && CopiesRow(r.outcome.value.user, e) && "password" !in r.outcome.value.user
  {
    var r := LoginOnStore(store, dto, matches, cfg, sign);
    if r.outcome.Done? {
      PlainObjectOfEntity(store[dto.email]);
    }
  }

  /**
   * An unknown address and a wrong password are indistinguishable: both
   * end in the same invalid-credentials exception, with no token requested.
   */
  lemma UnknownEmailAndWrongPasswordLookAlike(store: UserRepository.Store, dto: LoginDto,
                                              matches: (string, string) -> bool,
                                              cfg: AuthService.Config, sign: AuthService.Signer)
    requires dto.email !in store || !matches(dto.password, store[dto.email].password)
    ensures LoginOnStore(store, dto, matches, cfg, sign).outcome == Raised(Http(InvalidCredentials()))
    ensures !IssuedToken(LoginOnStore(store, dto, matches, cfg, sign).steps)
  {
  }

  /** Right credentials on an inactive account give the inactive-user exception and no token. */
  lemma InactiveAccountRefused(store: UserRepository.Store, dto: LoginDto, matches: (string, string) -> bool,
                               cfg: AuthService.Config, sign: AuthService.Signer)
    requires dto.email in store && matches(dto.password, store[dto.email].password)
    requires store[dto.email].idStatus != ACTIVE_STATUS
    ensures LoginOnStore(store, dto, matches, cfg, sign).outcome == Raised(Http(InactiveUser()))
    ensures LoginOnStore(store, dto, matches, cfg, sign).outcome.error.ex.status == HTTP_FORBIDDEN
    ensures !IssuedToken(LoginOnStore(store, dto, matches, cfg, sign).steps)
  {
  }

  /**
   * A repository that throws an error object during the credential check
   * is reported as invalid credentials (401), not as a server error.
   */
  lemma RepositoryFailureLooksLikeBadCredentials(dto: LoginDto, failure: Value,
                                                 generateJwt: User -> Attempt<AuthService.LoginPayload>)
    requires !Nullish(failure)
    ensures var validateUser := (e, p) => AuthService.ValidateUser(e, p, (e2, p2) => Raised(Raw(failure))).0;
            Execute(dto, validateUser, generateJwt).outcome == Raised(Http(InvalidCredentials()))
  {
  }

  /** A repository rejecting with `null` escapes as the `TypeError` of reading its message. */
  lemma NullRejectionEscapes(dto: LoginDto, generateJwt: User -> Attempt<AuthService.LoginPayload>)
    ensures var validateUser := (e, p) => AuthService.ValidateUser(e, p, (e2, p2) => Raised(Raw(Null))).0;
            Execute(dto, validateUser, generateJwt).outcome == Raised(MessageTypeError(Null))
  {
  }

  /**
   * A token generator that rejects, after a successful check of an active
   * account, makes the login reject with that same error; the credential
   * check ran once, before it.
   */
  lemma TokenFailurePropagates(dto: LoginDto, u: User, failure: Thrown)
    requires IsActive(u)
    ensures var r := Execute(dto, (e, p) => Done(Some(u)), v => Raised(failure));
            r.outcome == Raised(failure)
            && r.steps == [ValidateUserCall(dto.email, dto.password), GenerateJwtCall(u)]
  {
    var r := Execute(dto, (e, p) => Done(Some(u)), v => Raised(failure));
    assert IssuedToken(r.steps);
  }
}
