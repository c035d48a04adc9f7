/**
 * Thrown values and the domain exceptions.  Every domain exception is a
 * Nest `HttpException` built from a code-table entry (possibly with its
 * message replaced) and an HTTP status; the status of the exception and the
 * `status` member inside its body are independent.
 */
module Exceptions {
  import opened JsValues
  import opened GeneralCodes

  const HTTP_BAD_REQUEST: int := 400
  const HTTP_UNAUTHORIZED: int := 401
  const HTTP_FORBIDDEN: int := 403
  const HTTP_CONFLICT: int := 409
  const HTTP_TOO_MANY_REQUESTS: int := 429

  /** The `response` an `HttpException` was built from: a code object or a plain string. */
  datatype ExceptionBody = EntryBody(entry: ResponseCode) | TextBody(text: string)

  /**
   * An `HttpException`: its body, its HTTP status and its `message`
   * property (the body's message unless it was overwritten afterwards).
   */
  datatype HttpException = HttpException(body: ExceptionBody, status: int, message: string)

  /** The `jsonwebtoken` error classes: `TokenExpiredError` and `NotBeforeError` extend `JsonWebTokenError`. */
  datatype JwtKind = TokenExpired | NotBefore | Malformed

  /** Anything a promise can reject with or an observable can error with. */
  datatype Thrown =
    | Http(ex: HttpException)
    | Jwt(kind: JwtKind, jwtMessage: string)
    | Raw(value: Value)   // Error objects, plain objects and primitives, null and undefined included

  /** A call of a collaborator that either returns or throws. */
  datatype Attempt<+T> = Done(value: T) | Raised(error: Thrown)

  /**
   * The `TypeError` JavaScript raises when `message` is read off `null` or
   * `undefined`, with the text the runtime gives it.
   */
  function MessageTypeError(v: Value): (t: Thrown)
    ensures t.Raw? && t.value.Obj? && t.value.fields.Keys == {"name", "message"}
    ensures t.value.fields["name"] == Str("TypeError")
    ensures t.value.fields["message"]
            == Str("Cannot read properties of " + (if v.Null? then "null" else "undefined") + " (reading 'message')")
  {
    var shown := if v.Null? then "null" else "undefined";
    Raw(Obj(map["name" := Str("TypeError"),
                "message" := Str("Cannot read properties of " + shown + " (reading 'message')")]))
  }

  /** The message a Nest `HttpException` derives from its body. */
  function BodyMessage(b: ExceptionBody): string {
    match b
    case EntryBody(e) => e.message
    case TextBody(t) => t
  }

  /** `new HttpException(body, status)`. */
  function NewHttpException(b: ExceptionBody, status: int): (x: HttpException)
    ensures x.body == b && x.status == status && x.message == BodyMessage(b)
  {
    HttpException(b, status, BodyMessage(b))
  }

  /** `{ ...entry, message }`: the entry with its message replaced. */
  function WithMessage(c: ResponseCode, m: string): ResponseCode {
    c.(message := m)
  }

  /** Reading `error.message` (or any property) of a thrown value. */
  function ReadMessage(t: Thrown): Attempt<Value> {
    match t
    case Http(ex) => Done(Str(ex.message))
    case Jwt(_, m) => Done(Str(m))
    case Raw(v) => if Nullish(v) then Raised(MessageTypeError(v)) else Done(Get(v, "message"))
  }

  /** Reading `error.status` of a thrown value that is not nullish. */
  function StatusOf(t: Thrown): Value
    requires !(t.Raw? && Nullish(t.value))
  {
    match t
    case Http(ex) => Num(ex.status)
    case Jwt(_, _) => Undefined
    case Raw(v) => Get(v, "status")
  }

  /** `InvalidCredentialsException`: the user-not-found entry, 401. */
  function InvalidCredentials(): (x: HttpException)
    ensures x.status == HTTP_UNAUTHORIZED && x.body == EntryBody(Lookup(PklUserNotFound))
  {
    NewHttpException(EntryBody(Lookup(PklUserNotFound)), HTTP_UNAUTHORIZED)
  }

  /** `InactiveUserException`: the role-not-allowed entry, 403. */
  function InactiveUser(): (x: HttpException)
    ensures x.status == HTTP_FORBIDDEN && x.body == EntryBody(Lookup(PklRoleNotAllowed))
  {
    NewHttpException(EntryBody(Lookup(PklRoleNotAllowed)), HTTP_FORBIDDEN)
  }

  /** `EmailAlreadyExistsException(email)`. */
  function EmailAlreadyExists(email: string): (x: HttpException)
    ensures x.status == HTTP_CONFLICT
    ensures x.body.EntryBody? && x.body.entry.code == Lookup(PklUserEmailExist).code
    ensures x.body.entry.status == Lookup(PklUserEmailExist).status
    ensures x.message == x.body.entry.message == "Email " + email + " is already registered"
  {
    NewHttpException(EntryBody(WithMessage(Lookup(PklUserEmailExist), "Email " + email + " is already registered")),
                     HTTP_CONFLICT)
  }

  /** `UsernameAlreadyExistsException(username)`. */
  function UsernameAlreadyExists(username: string): (x: HttpException)
    ensures x.status == HTTP_CONFLICT
    ensures x.body.EntryBody? && x.body.entry.code == Lookup(PklUserNameExist).code
    ensures x.body.entry.status == Lookup(PklUserNameExist).status
    ensures x.message == x.body.entry.message == "Username " + username + " is already in use"
  {
    NewHttpException(EntryBody(WithMessage(Lookup(PklUserNameExist), "Username " + username + " is already in use")),
                     HTTP_CONFLICT)
  }

  /** `ParkingEmailAlreadyExistsException(email)`: reuses the user e-mail entry. */
  function ParkingEmailAlreadyExists(email: string): (x: HttpException)
    ensures x.status == HTTP_CONFLICT
    ensures x.body.EntryBody? && x.body.entry.code == Lookup(PklUserEmailExist).code
    ensures x.body.entry.status == Some(400)
    ensures x.message == x.body.entry.message
    ensures x.message == "Email " + email + " is already registered for parking pre-enrollment"
  {
    NewHttpException(
      EntryBody(WithMessage(Lookup(PklUserEmailExist),
                            "Email " + email + " is already registered for parking pre-enrollment")),
      HTTP_CONFLICT)
  }

  /** `InvalidBusinessRuleException(message)`: the business-rule entry with the given message, 400. */
  function InvalidBusinessRule(message: string): (x: HttpException)
    ensures x.status == HTTP_BAD_REQUEST
    ensures x.body == EntryBody(ResponseCode(Lookup(PklBusinessRuleViolation).code, message,
                                             Lookup(PklBusinessRuleViolation).status))
    ensures x.message == message
  {
    NewHttpException(EntryBody(WithMessage(Lookup(PklBusinessRuleViolation), message)), HTTP_BAD_REQUEST)
  }

  /** Nest's `UnauthorizedException(entry)`: the entry object as body, 401. */
  function Unauthorized(c: ResponseCode): (x: HttpException)
    ensures x.status == HTTP_UNAUTHORIZED && x.body == EntryBody(c)
  {
    NewHttpException(EntryBody(c), HTTP_UNAUTHORIZED)
  }

  /** `ThrottlerException(text)` whose `message` property is then overwritten. */
  function Throttled(text: string, message: string): (x: HttpException)
    ensures x.status == HTTP_TOO_MANY_REQUESTS && x.body == TextBody(text) && x.message == message
  {
    NewHttpException(TextBody(text), HTTP_TOO_MANY_REQUESTS).(message := message)
  }

  /** Two strings built from one template are equal only for equal holes. */
  lemma {:induction false} TemplateInjective(pre: string, a: string, b: string, post: string)
    requires pre + a + post == pre + b + post
    ensures a == b
  {
    var s1 := pre + a + post;
    var s2 := pre + b + post;
    assert |a| == |b|;
    assert a == s1[|pre|..|pre| + |a|];
    assert b == s2[|pre|..|pre| + |b|];
  }

  /** The conflict message names the rejected address: different addresses, different exceptions. */
  lemma EmailConflictsDistinguishAddresses(e1: string, e2: string)
    requires EmailAlreadyExists(e1) == EmailAlreadyExists(e2)
    ensures e1 == e2
  {
    TemplateInjective("Email ", e1, e2, " is already registered");
  }

  /** The parking conflict differs from the user conflict in message and status body only. */
  lemma ParkingConflictSharesUserCode(e: string)
    ensures ParkingEmailAlreadyExists(e).body.entry.code == EmailAlreadyExists(e).body.entry.code
    ensures ParkingEmailAlreadyExists(e).status == EmailAlreadyExists(e).status
    ensures ParkingEmailAlreadyExists(e).message != EmailAlreadyExists(e).message
  {
    var m1 := ParkingEmailAlreadyExists(e).message;
    var m2 := EmailAlreadyExists(e).message;
    assert |m1| != |m2|;
  }
}
