/**
 * `AuthService`: issuing the access token, the fault-tolerant credential
 * check used by login, and the forgot-password flow (look the user up,
 * check the role, mint a 15-minute reset token, send one e-mail through the
 * notification service and map its answer to a `Response`).
 *
 * The token signer, the notification service and the repository are
 * parameters; each flow returns, beside its outcome, the calls it made.
 */
module AuthService {
  import opened JsValues
  import opened GeneralCodes
  import opened Exceptions
  import opened ResponseModel
  import opened UserModel
  import Constants
  import UserRepository

  /** The claims handed to the token signer. */
  datatype Claims =
    | AccessClaims(email: string, sub: int, name: string, lastName: string, role: int, status: int)
    | ResetClaims(sub: int)

  /** `{ secret, expiresIn? }`; without `expiresIn` the module-wide default lifetime applies. */
  datatype SignOptions = SignOptions(secret: string, expiresIn: Option<string>)

  /** `jwtService.sign(payload, options)`. */
  type Signer = (Claims, SignOptions) -> string

  /** The values `configService.get` yields: the JWT secret, `FRONTEND_URL` and the notification base URL. */
  datatype Config = Config(jwtSecret: string, frontendUrl: string, notificationApi: string)

  /** `{ access_token, user }`. */
  datatype LoginPayload = LoginPayload(accessToken: string, user: map<string, Value>)

  /** One `logger.error(message, detail)` call. */
  datatype LogEntry = LogEntry(message: string, detail: Value)

  /** The claims an access token carries for a user. */
  function AccessClaimsOf(u: User): Claims {
    AccessClaims(u.email, u.id, u.name, u.lastName, u.idRole, u.idStatus)
  }

  /**
   * `generateJWT(user)`: the token is signed over the user's identity, role
   * and status with the configured secret; the user goes back as its plain
   * object, which has no password.
   */
  function GenerateJwt(u: User, cfg: Config, sign: Signer): (p: LoginPayload)
    ensures p.accessToken ==
            sign(AccessClaims(u.email, u.id, u.name, u.lastName, u.idRole, u.idStatus), SignOptions(cfg.jwtSecret, None))
    ensures p.user == ToPlainObject(u) && "password" !in p.user
  {
    LoginPayload(sign(AccessClaimsOf(u), SignOptions(cfg.jwtSecret, None)), ToPlainObject(u))
  }

  /** Every claim agrees with the field of the returned user object it was taken from. */
  lemma ClaimsAgreeWithPlainUser(u: User, cfg: Config, sign: Signer)
    ensures var c := AccessClaimsOf(u);
            var p := GenerateJwt(u, cfg, sign).user;
            && p["email"] == Str(c.email) && p["id"] == Num(c.sub)
            && p["name"] == Str(c.name) && p["lastName"] == Str(c.lastName)
            && p["idRole"] == Num(c.role) && p["idStatus"] == Num(c.status)
  {
  }

  /**
   * `validateUser(email, password)`: the repository's answer, or `null` and
   * one log entry when the repository throws.  Reading the message of a
   * `null` or `undefined` rejection is itself a `TypeError`, which escapes.
   */
  function ValidateUser(email: string, password: string,
                        validateCredentials: (string, string) -> Attempt<Option<User>>)
    : (r: (Attempt<Option<User>>, seq<LogEntry>))
    ensures validateCredentials(email, password).Done? ==> r == (validateCredentials(email, password), [])
    ensures validateCredentials(email, password).Raised? ==>
              var t := validateCredentials(email, password).error;
              if t.Raw? && Nullish(t.value) then r == (Raised(MessageTypeError(t.value)), [])
              else r.0 == Done(None) && |r.1| == 1 && r.1[0].message == "Error validating user"
                   && r.1[0].detail == ReadMessage(t).value
  {
    match validateCredentials(email, password)
    case Done(found) => (Done(found), [])
    case Raised(t) =>
      match ReadMessage(t)
      case Raised(typeError) => (Raised(typeError), [])
      case Done(message) => (Done(None), [LogEntry("Error validating user", message)])
  }

  /** The collaborator calls of the forgot-password flow. */
  datatype Effect =
    | FindUser(email: string)
    | SignToken(claims: Claims, options: SignOptions)
    | PostEmail(url: string, body: Value)

  /** What the notification request produced: an HTTP answer, or a thrown transport error. */
  datatype Delivery =
    | Delivered(status: int, data: Value)
    | TransportFailed(responseData: Value)   // `error?.response?.data`

  /** The result of `validateUserForPasswordReset`: a ready `Response` or the eligible user. */
  datatype ResetCheck = Refused(response: Response) | Eligible(user: User)

  /** `validateUserForPasswordReset`: unknown users, then non-platform users, are refused. */
  function CheckResetEligibility(found: Option<User>): (c: ResetCheck)
    ensures found.None? ==> c == Refused(FromCode(PklUserNotFound))
    ensures found.Some? && !HasRole(found.value, Constants.USER_PLATFORM) ==> c == Refused(FromCode(PklRoleNotAllowed))
    ensures found.Some? && HasRole(found.value, Constants.USER_PLATFORM) ==> c == Eligible(found.value)
  {
    match found
    case None => Refused(FromCode(PklUserNotFound))
    case Some(u) => if !HasRole(u, Constants.USER_PLATFORM) then Refused(FromCode(PklRoleNotAllowed)) else Eligible(u)
  }

  /** The reset token's claims and options: only the subject, with a 15-minute lifetime. */
  function ResetTokenRequest(userId: int, cfg: Config): (Claims, SignOptions) {
    (ResetClaims(userId), SignOptions(cfg.jwtSecret, Some(Constants.JWT_EXPIRES_IN_RESET)))
  }

  /** `buildResetUrl`: the front end's reset page with the token as query parameter. */
  function ResetUrl(cfg: Config, token: string): string {
    cfg.frontendUrl + "/reset-password?token=" + token
  }

  /** The notification request body for a reset e-mail. */
  function ResetEmailBody(u: User, resetUrl: string): Value {
    Obj(map[
      "to" := Str(u.email),
      "templateName" := Str(Constants.TEMPLATE_RESET),
      "variables" := Obj(map[
        "name" := Str(u.name),
        "action" := Str(Constants.ACTION_RESET),
        "resetUrl" := Str(resetUrl)])])
  }

  /** The URL the reset e-mail is posted to. */
  function NotificationUrl(cfg: Config): string {
    cfg.notificationApi + Constants.EMAIL_SEND_RESET
  }

  /**
   * How `sendPasswordResetEmail` maps the notification answer: 201 means
   * sent; any other status and any transport error mean failed, carrying the
   * answer's data or `{ error: ... }`.
   */
  function DeliveryResponse(d: Delivery): (r: Response)
    ensures d.Delivered? && d.status == 201 ==> r == FromCode(KhlEmailSent)
    ensures d.Delivered? && d.status != 201 ==> r == FromCodeWithData(KhlNotificationFailed, d.data)
    ensures d.TransportFailed? ==>
              r == FromCodeWithData(KhlNotificationFailed,
                                    Obj(map["error" := Coalesce(d.responseData, AsValue(Lookup(KhlNotificationFailed)))]))
  {
    match d
    case Delivered(status, data) =>
      if status == 201 then FromCode(KhlEmailSent) else FromCodeWithData(KhlNotificationFailed, data)
    case TransportFailed(responseData) =>
      FromCodeWithData(KhlNotificationFailed,
                       Obj(map["error" := Coalesce(responseData, AsValue(Lookup(KhlNotificationFailed)))]))
  }

  /** The e-mail counts as sent exactly when the notifier answered 201 Created; every other case is a failure. */
  lemma SentIffCreated(d: Delivery)
    ensures DeliveryResponse(d).code == Lookup(KhlEmailSent).code <==> d.Delivered? && d.status == 201
    ensures DeliveryResponse(d).code == Lookup(KhlNotificationFailed).code <==> !(d.Delivered? && d.status == 201)
  {
    assert |Lookup(KhlEmailSent).code| != |Lookup(KhlNotificationFailed).code|;
  }

  /** A run of the forgot-password flow: its outcome and the calls it made, in order. */
  datatype ForgotRun = ForgotRun(outcome: Attempt<Response>, effects: seq<Effect>)

  /** The run is complete with no e-mail sent. */
  predicate NoEmailSent(effects: seq<Effect>) {
    forall i :: 0 <= i < |effects| ==> !effects[i].PostEmail?
  }

  /**
   * `forgotPassword(email)`.  A failing lookup propagates; notifier
   * failures never do.
   */
  function ForgotPassword(email: string, cfg: Config, findByEmail: string -> Attempt<Option<User>>,
                          sign: Signer, post: (string, Value) -> Delivery): (r: ForgotRun)
    ensures |r.effects| >= 1 && r.effects[0] == FindUser(email)
    ensures findByEmail(email).Raised? ==> r == ForgotRun(Raised(findByEmail(email).error), [FindUser(email)])
    ensures findByEmail(email) == Done(None) ==>
              r.outcome == Done(FromCode(PklUserNotFound)) && NoEmailSent(r.effects)
    ensures findByEmail(email).Done? && findByEmail(email).value.Some?
            && !HasRole(findByEmail(email).value.value, Constants.USER_PLATFORM) ==>
              r.outcome == Done(FromCode(PklRoleNotAllowed)) && NoEmailSent(r.effects)
    ensures findByEmail(email).Done? && findByEmail(email).value.Some?
            && HasRole(findByEmail(email).value.value, Constants.USER_PLATFORM) ==>
              var u := findByEmail(email).value.value;
              var token := sign(ResetClaims(u.id), SignOptions(cfg.jwtSecret, Some("15m")));
              var url := cfg.notificationApi + "/email/send-test";
              var body := ResetEmailBody(u, cfg.frontendUrl + "/reset-password?token=" + token);
              && r.effects == [FindUser(email), SignToken(ResetClaims(u.id), SignOptions(cfg.jwtSecret, Some("15m"))),
                               PostEmail(url, body)]
              && r.outcome == Done(DeliveryResponse(post(url, body)))
  {
    match findByEmail(email)
    case Raised(t) => ForgotRun(Raised(t), [FindUser(email)])
    case Done(found) =>
      match CheckResetEligibility(found)
      case Refused(response) => ForgotRun(Done(response), [FindUser(email)])
      case Eligible(u) =>
        var (claims, options) := ResetTokenRequest(u.id, cfg);
        var resetUrl := ResetUrl(cfg, sign(claims, options));
        var url := NotificationUrl(cfg);
        var body := ResetEmailBody(u, resetUrl);
        ForgotRun(Done(DeliveryResponse(post(url, body))),
                  [FindUser(email), SignToken(claims, options), PostEmail(url, body)])
  }

  /** The forgot-password run on a concrete store, whose lookups never fail. */
  function ForgotPasswordOnStore(store: UserRepository.Store, email: string, cfg: Config,
                                 sign: Signer, post: (string, Value) -> Delivery): ForgotRun {
    ForgotPassword(email, cfg, e => Done(UserRepository.FindByEmail(store, e)), sign, post)
  }

  /**
   * Exactly one e-mail is posted when the address belongs to a platform
   * user, and none otherwise; the outcome is never a thrown error.
   */
  lemma EmailSentIffPlatformUser(store: UserRepository.Store, email: string, cfg: Config,
                                 sign: Signer, post: (string, Value) -> Delivery)
    ensures var r := ForgotPasswordOnStore(store, email, cfg, sign, post);
            && r.outcome.Done?
            && (!NoEmailSent(r.effects) <==> email in store && store[email].idRole == Constants.USER_PLATFORM)
            && (email !in store ==> r.outcome.value.code == Lookup(PklUserNotFound).code)
            && (email in store && store[email].idRole != Constants.USER_PLATFORM ==>
                  r.outcome.value.code == Lookup(PklRoleNotAllowed).code)
  {
    var r := ForgotPasswordOnStore(store, email, cfg, sign, post);
    if email in store && store[email].idRole == Constants.USER_PLATFORM {
      assert r.effects[2].PostEmail?;
    }
  }

  /** A notifier answering 201 yields the e-mail-sent response; a 500 carries its data back. */
  lemma NotifierStatusScenarios(data: Value)
    ensures DeliveryResponse(Delivered(201, data)).code == "KHL_EMAIL_SENT"
    ensures DeliveryResponse(Delivered(201, data)).status == Some(200)
    ensures DeliveryResponse(Delivered(500, data)).code == "KHL_NOTIFICATION_FAILED"
    ensures DeliveryResponse(Delivered(500, data)).data == data
    ensures DeliveryResponse(Delivered(500, data)).status == Some(502)
  {
  }

  /** A transport error without a response falls back to the failure entry itself as the error detail. */
  lemma TransportFailureFallback(responseData: Value)
    ensures var r := DeliveryResponse(TransportFailed(responseData));
            && r.code == Lookup(KhlNotificationFailed).code
            && r.data.Obj? && r.data.fields.Keys == {"error"}
            && (Nullish(responseData) ==> r.data.fields["error"] == AsValue(Lookup(KhlNotificationFailed)))
            && (!Nullish(responseData) ==> r.data.fields["error"] == responseData)
  {
  }
}
