/**
 * The service-wide table of response codes: every entry is a triple of a
 * machine-readable code string, a human message and an HTTP status.  The
 * table's key names and the code strings they hold are not always equal
 * (the general-error key holds a `PKU_` code).
 */
module GeneralCodes {
  import opened JsValues

  /** `IResponseCode`: the status member is optional in the interface. */
  datatype ResponseCode = ResponseCode(code: string, message: string, status: Option<int>)

  /** The keys of `CODES`. */
  datatype CodeKey =
    | PklGeneralError
    | PklDataNotFound
    | PklDataFound
    | PklUserCreateOk
    | PklParkingCreateOk
    | PklBadRequest
    | PklAccountDeletedError
    | PklAccountDeletedOk
    | PklUserEmailExist
    | PklUserNameExist
    | PklUserNotFound
    | PklRoleNotAllowed
    | KhlNotificationFailed
    | KhlEmailSent
    | PklJwtExpired
    | PklJwtInvalid
    | PklRateLimitLogin
    | PklRateLimitForgotPassword
    | PklRateLimitGeneral
    | PklBusinessRuleViolation

  /** The property name under which an entry is stored in `CODES`. */
  function KeyName(k: CodeKey): string {
    match k
    case PklGeneralError => "PKL_GENERAL_ERROR"
    case PklDataNotFound => "PKL_DATA_NOT_FOUND"
    case PklDataFound => "PKL_DATA_FOUND"
    case PklUserCreateOk => "PKL_USER_CREATE_OK"
    case PklParkingCreateOk => "PKL_PARKING_CREATE_OK"
    case PklBadRequest => "PKL_BAD_REQUEST"
    case PklAccountDeletedError => "PKL_ACCOUNT_DELETED_ERROR"
    case PklAccountDeletedOk => "PKL_ACCOUNT_DELETED_OK"
    case PklUserEmailExist => "PKL_USER_EMAIL_EXIST"
    case PklUserNameExist => "PKL_USER_NAME_EXIST"
    case PklUserNotFound => "PKL_USER_NOT_FOUND"
    case PklRoleNotAllowed => "PKL_ROLE_NOT_ALLOWED"
    case KhlNotificationFailed => "KHL_NOTIFICATION_FAILED"
    case KhlEmailSent => "KHL_EMAIL_SENT"
    case PklJwtExpired => "PKL_JWT_EXPIRED"
    case PklJwtInvalid => "PKL_JWT_INVALID"
    case PklRateLimitLogin => "PKL_RATE_LIMIT_LOGIN"
    case PklRateLimitForgotPassword => "PKL_RATE_LIMIT_FORGOT_PASSWORD"
    case PklRateLimitGeneral => "PKL_RATE_LIMIT_GENERAL"
    case PklBusinessRuleViolation => "PKL_BUSINESS_RULE_VIOLATION"
  }

  /** `CODES[k]`: the entry's code string, message and status. */
  function Lookup(k: CodeKey): ResponseCode {
    ResponseCode(CodeString(k), Message(k), Some(Status(k)))
  }

  /** The `code` member of `CODES[k]`. */
  function CodeString(k: CodeKey): string {
    match k
    case PklGeneralError => "PKU_GENERAL_ERROR"
    case PklDataNotFound => "PKU_DATA_NOT_FOUND"
    case PklDataFound => "PKU_DATA_FOUND"
    case PklUserCreateOk => "PKU_USER_CREATE_OK"
    case PklParkingCreateOk => "PKL_PARKING_CREATE_OK"
    case PklBadRequest => "PKU_BAD_REQUEST"
    case PklAccountDeletedError => "PKU_ACCOUNT_DELETED_ERROR"
    case PklAccountDeletedOk => "PKU_ACCOUNT_DELETED_OK"
    case PklUserEmailExist => "PKL_USER_EMAIL_EXIST"
    case PklUserNameExist => "PKL_USER_NAME_EXIST"
    case PklUserNotFound => "PKL_USER_NOT_FOUND"
    case PklRoleNotAllowed => "PKL_ROLE_NOT_ALLOWED"
    case KhlNotificationFailed => "KHL_NOTIFICATION_FAILED"
    case KhlEmailSent => "KHL_EMAIL_SENT"
    case PklJwtExpired => "PKL_JWT_EXPIRED"
    case PklJwtInvalid => "PKL_JWT_INVALID"
    case PklRateLimitLogin => "PKL_RATE_LIMIT_LOGIN"
    case PklRateLimitForgotPassword => "PKL_RATE_LIMIT_FORGOT_PASSWORD"
    case PklRateLimitGeneral => "PKL_RATE_LIMIT_GENERAL"
    case PklBusinessRuleViolation => "PKL_BUSINESS_RULE_VIOLATION"
  }

  /** The `message` member of `CODES[k]`. */
  function Message(k: CodeKey): string {
    match k
    case PklGeneralError => "General error, please try in a moment"
    case PklDataNotFound => "Data not found, verify the information entered"
    case PklDataFound => "Data found successfully"
    case PklUserCreateOk => "User create successfully"
    case PklParkingCreateOk => "Parking create successfully"
    case PklBadRequest => "The request is not in the correct format"
    case PklAccountDeletedError => "Error deleting user account"
    case PklAccountDeletedOk => "Successfully deleted account"
    case PklUserEmailExist => "User email, verify the information entered"
    case PklUserNameExist => "User name, verify the information entered"
    case PklUserNotFound => "Invalid email or password"
    case PklRoleNotAllowed => "Contact your administrator to change your password."
    case KhlNotificationFailed => "The notification could not be sent"
    case KhlEmailSent => "The mail was sent"
    case PklJwtExpired => "Token has expired. Please login again."
    case PklJwtInvalid => "Invalid token. Please login again."
    case PklRateLimitLogin => "Too many login attempts. Please try again later."
    case PklRateLimitForgotPassword => "Too many password reset requests. Please try again later."
    case PklRateLimitGeneral => "Too many requests. Please try again later."
    case PklBusinessRuleViolation => "Business rule violation"
  }

  /** The `status` member of `CODES[k]`. */
  function Status(k: CodeKey): int {
    match k
    case PklGeneralError => 500
    case PklDataNotFound => 400
    case PklDataFound => 200
    case PklUserCreateOk => 200
    case PklParkingCreateOk => 200
    case PklBadRequest => 400
    case PklAccountDeletedError => 400
    case PklAccountDeletedOk => 200
    case PklUserEmailExist => 400
    case PklUserNameExist => 400
    case PklUserNotFound => 401
    case PklRoleNotAllowed => 403
    case KhlNotificationFailed => 502
    case KhlEmailSent => 200
    case PklJwtExpired => 401
    case PklJwtInvalid => 401
    case PklRateLimitLogin => 429
    case PklRateLimitForgotPassword => 429
    case PklRateLimitGeneral => 429
    case PklBusinessRuleViolation => 400
  }

  /** A code entry as the plain object `{code, message, status}` it is at run time. */
  function AsValue(c: ResponseCode): Value {
    Obj(map["code" := Str(c.code), "message" := Str(c.message), "status" := OptNum(c.status)])
  }

  /** All three rate-limit entries answer 429 Too Many Requests. */
  lemma RateLimitStatuses()
    ensures Status(PklRateLimitLogin) == Status(PklRateLimitForgotPassword) == Status(PklRateLimitGeneral) == 429
  {
  }

  /** Both token entries, expired and invalid, answer 401 Unauthorized. */
  lemma JwtStatuses()
    ensures Status(PklJwtExpired) == Status(PklJwtInvalid) == 401
  {
  }

  /** The password-reset outcomes: not found 401, wrong role 403, notifier failure 502, sent 200. */
  lemma PasswordResetStatuses()
    ensures Status(PklUserNotFound) == 401
    ensures Status(PklRoleNotAllowed) == 403
    ensures Status(KhlNotificationFailed) == 502
    ensures Status(KhlEmailSent) == 200
  {
  }

  /** The general-error key is stored under a name that differs from the code string it holds. */
  lemma GeneralErrorKeyDiffersFromCode()
    ensures KeyName(PklGeneralError) == "PKL_GENERAL_ERROR"
    ensures CodeString(PklGeneralError) == "PKU_GENERAL_ERROR"
    ensures KeyName(PklGeneralError) != CodeString(PklGeneralError)
    ensures Status(PklGeneralError) == 500
  {
    assert KeyName(PklGeneralError)[2] != CodeString(PklGeneralError)[2];
  }
}
