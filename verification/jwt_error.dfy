/**
 * `JwtErrorInterceptor`: token-library errors become 401s carrying the
 * expired or invalid entry; every other outcome passes unchanged.  The
 * application installs it inside the error handler, so a handler's result
 * meets this interceptor first.
 */
module JwtError {
  import opened JsValues
  import opened GeneralCodes
  import opened Exceptions
  import ErrorHandler

  /** The `catchError` callback: `TokenExpiredError` first, then any `JsonWebTokenError`. */
  function MapError(t: Thrown): (r: Thrown)
    ensures t.Jwt? && t.kind == TokenExpired ==> r == Http(Unauthorized(Lookup(PklJwtExpired)))
    ensures t.Jwt? && t.kind != TokenExpired ==> r == Http(Unauthorized(Lookup(PklJwtInvalid)))
    ensures !t.Jwt? ==> r == t
  {
    match t
    case Jwt(kind, _) =>
      if kind == TokenExpired then Http(Unauthorized(Lookup(PklJwtExpired)))
      else Http(Unauthorized(Lookup(PklJwtInvalid)))
    case _ => t
  }

  /** `intercept(context, next)` applied to the handler's result. */
  function Intercept(result: Attempt<Value>): (r: Attempt<Value>)
    ensures result.Done? ==> r == result
    ensures result.Raised? ==> r == Raised(MapError(result.error))
  {
    match result
    case Done(_) => result
    case Raised(t) => Raised(MapError(t))
  }

  /** After this interceptor no token-library error is left, and a second pass changes nothing. */
  lemma InterceptIdempotent(result: Attempt<Value>)
    ensures Intercept(result).Raised? ==> !Intercept(result).error.Jwt?
    ensures Intercept(Intercept(result)) == Intercept(result)
  {
  }

  /** Expired tokens and every other token error are told apart; both answer 401. */
  lemma JwtErrorsAnswerUnauthorized(kind: JwtKind, message: string)
    ensures Intercept(Raised(Jwt(kind, message))).error.ex.status == HTTP_UNAUTHORIZED
    ensures Intercept(Raised(Jwt(kind, message))).error.ex.body.entry.code == "PKL_JWT_EXPIRED"
            <==> kind == TokenExpired
  {
  }

  /** A `NotBeforeError` is a `JsonWebTokenError`, so it reads as an invalid token. */
  lemma NotBeforeIsInvalid(message: string)
    ensures Intercept(Raised(Jwt(NotBefore, message))) == Raised(Http(Unauthorized(Lookup(PklJwtInvalid))))
  {
  }

  /** The two global interceptors as installed: the error handler outside, this one inside. */
  function Chain(req: ErrorHandler.Request, result: Attempt<Value>): ErrorHandler.Interception {
    ErrorHandler.Intercept(req, Intercept(result))
  }

  /**
   * Through the chain a token error reaches the client as its 401 (the
   * error handler re-throws it because it carries a status), whereas the
   * error handler alone would have turned it into the generic 500.
   */
  lemma ChainKeepsJwtUnauthorized(req: ErrorHandler.Request, kind: JwtKind, message: string)
    ensures Chain(req, Raised(Jwt(kind, message))).outcome == Intercept(Raised(Jwt(kind, message)))
    ensures |Chain(req, Raised(Jwt(kind, message))).logs| == 1
    ensures ErrorHandler.Intercept(req, Raised(Jwt(kind, message))).outcome
            == Raised(Raw(ErrorHandler.GeneralErrorObject()))
  {
  }
}
