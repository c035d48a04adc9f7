/**
 * `ErrorHandlerInterceptor`: every error leaving a handler is logged once,
 * with the request body's secrets redacted; an error that carries a truthy
 * `status` is re-thrown as it is, any other becomes the generic 500 object.
 */
module ErrorHandler {
  import opened JsValues
  import opened GeneralCodes
  import opened Exceptions

  const REDACTED: string := "[REDACTED]"

  /** The message that replaces the general entry's own one. */
  const UNEXPECTED_MESSAGE: string := "An unexpected error occurred"

  /** The members of the body that are redacted when truthy. */
  const SECRET_KEYS: set<string> := {"password", "token"}

  /** `{ ...s }` of a string: one member per character, keyed by its decimal index. */
  function StringSpread(s: string): map<string, Value>
    decreases |s|
  {
    if |s| == 0 then map[]
    else StringSpread(s[..|s| - 1])[NatToString(|s| - 1) := Str([s[|s| - 1]])]
  }

  /** A key made of decimal digits only, like every key of a spread string. */
  predicate IsIndexKey(k: string) {
    |k| >= 1 && forall i :: 0 <= i < |k| ==> '0' <= k[i] <= '9'
  }

  /** A spread string has only index keys, one per character, so no secret member. */
  lemma {:induction false} StringSpreadKeys(s: string)
    ensures forall k :: k in StringSpread(s) ==> IsIndexKey(k)
    ensures forall k :: k in StringSpread(s) ==> k !in SECRET_KEYS
    ensures |s| > 0 ==> NatToString(|s| - 1) in StringSpread(s)
    decreases |s|
  {
    if |s| > 0 {
      StringSpreadKeys(s[..|s| - 1]);
      assert !IsIndexKey("password") by { assert "password"[0] == 'p'; }
      assert !IsIndexKey("token") by { assert "token"[0] == 't'; }
    }
  }

  /** `{ ...body }` of a truthy body. */
  function Spread(body: Value): map<string, Value> {
    match body
    case Obj(f) => f
    case Str(s) => StringSpread(s)
    case _ => map[]   // numbers and `true` have no own enumerable members
  }

  /** `if (sanitized[key]) sanitized[key] = '[REDACTED]'`. */
  function Redact(m: map<string, Value>, key: string): (r: map<string, Value>)
    ensures r.Keys == m.Keys
    ensures key in m && Truthy(m[key]) ==> r[key] == Str(REDACTED)
    ensures forall k :: k in m && (k != key || !Truthy(m[k])) ==> r[k] == m[k]
  {
    if key in m && Truthy(m[key]) then m[key := Str(REDACTED)] else m
  }

  /** `sanitizeBody(body)`. */
  function SanitizeBody(body: Value): (r: Value)
    ensures !Truthy(body) ==> r == body
    ensures Truthy(body) ==> r.Obj? && r.fields.Keys == Spread(body).Keys
    ensures Truthy(body) ==>
              forall k :: k in r.fields ==>
                r.fields[k] == if k in SECRET_KEYS && Truthy(Spread(body)[k]) then Str(REDACTED) else Spread(body)[k]
  {
    if !Truthy(body) then body
    else Obj(Redact(Redact(Spread(body), "password"), "token"))
  }

  /** No truthy secret of the body survives sanitizing other than as the redaction marker. */
  lemma NoSecretSurvives(body: Value, k: string)
    requires Truthy(body) && k in SECRET_KEYS
    ensures k in SanitizeBody(body).fields && Truthy(SanitizeBody(body).fields[k]) ==>
              SanitizeBody(body).fields[k] == Str(REDACTED)
  {
  }

  /** Sanitizing a sanitized body changes nothing. */
  lemma SanitizeIdempotent(body: Value)
    ensures SanitizeBody(SanitizeBody(body)) == SanitizeBody(body)
  {
    if Truthy(body) {
      var once := SanitizeBody(body);
      assert Truthy(once);
      assert Spread(once) == once.fields;
      assert Truthy(Str(REDACTED));
      assert SanitizeBody(once).fields == once.fields;
    }
  }

  /** A string body is logged as its characters by index, with nothing to redact. */
  lemma StringBodyIsSpread(s: string)
    requires s != ""
    ensures SanitizeBody(Str(s)) == Obj(StringSpread(s))
  {
    StringSpreadKeys(s);
  }

  /** The request members the interceptor reads. */
  datatype Request = Request(httpMethod: string, url: string, body: Value)

  /** The one `logger.error` call: its text, the error's message and the sanitized body (stack and time left out). */
  datatype ErrorLog = ErrorLog(text: string, errorMessage: Value, body: Value)

  /** `{ ...CODES.PKL_GENERAL_ERROR, message: 'An unexpected error occurred', status: 500 }`. */
  function GeneralErrorObject(): (v: Value)
    ensures v.Obj? && v.fields.Keys == {"code", "message", "status"}
    ensures v.fields["code"] == Str(Lookup(PklGeneralError).code)
    ensures v.fields["message"] == Str(UNEXPECTED_MESSAGE) && v.fields["status"] == Num(500)
  {
    Obj(AsValue(Lookup(PklGeneralError)).fields["message" := Str(UNEXPECTED_MESSAGE)]["status" := Num(500)])
  }

  /** The handler's result as the interceptor passes it on, and what it logged. */
  datatype Interception = Interception(outcome: Attempt<Value>, logs: seq<ErrorLog>)

  /**
   * `intercept(context, next)` applied to the handler's result.  Reading
   * `error.message` of a `null` or `undefined` error throws a `TypeError`
   * before anything is logged.
   */
  function Intercept(req: Request, result: Attempt<Value>): (r: Interception)
    ensures result.Done? ==> r == Interception(result, [])
    ensures result.Raised? && result.error.Raw? && Nullish(result.error.value) ==>
              r == Interception(Raised(MessageTypeError(result.error.value)), [])
    ensures result.Raised? && !(result.error.Raw? && Nullish(result.error.value)) ==>
              && r.logs == [ErrorLog("Error in " + req.httpMethod + " " + req.url,
                                     ReadMessage(result.error).value, SanitizeBody(req.body))]
              && (Truthy(StatusOf(result.error)) ==> r.outcome == result)
              && (!Truthy(StatusOf(result.error)) ==> r.outcome == Raised(Raw(GeneralErrorObject())))
  {
    match result
    case Done(_) => Interception(result, [])
    case Raised(t) =>
      match ReadMessage(t)
      case Raised(typeError) => Interception(Raised(typeError), [])
      case Done(message) =>
        var log := ErrorLog("Error in " + req.httpMethod + " " + req.url, message, SanitizeBody(req.body));
        if Truthy(StatusOf(t)) then Interception(Raised(t), [log])
        else Interception(Raised(Raw(GeneralErrorObject())), [log])
  }

  /** The status an escaping error carries, when it can be read. */
  predicate CarriesStatus(t: Thrown) {
    !(t.Raw? && Nullish(t.value)) && Truthy(StatusOf(t))
  }

  /**
   * Every error the interceptor lets out carries a truthy status, except the
   * `TypeError` of a nullish error; and a second pass changes nothing.
   */
  lemma InterceptStable(req: Request, result: Attempt<Value>)
    requires result.Raised? && !(result.error.Raw? && Nullish(result.error.value))
    ensures Intercept(req, result).outcome.Raised?
    ensures CarriesStatus(Intercept(req, result).outcome.error)
    ensures Intercept(req, Intercept(req, result).outcome).outcome == Intercept(req, result).outcome
  {
  }

  /**
   * The escaping `TypeError` has no status: a second pass logs its message
   * and turns it into the generic 500.
   */
  lemma TypeErrorNotStable(req: Request, v: Value)
    requires Nullish(v)
    ensures Intercept(req, Raised(Raw(v))).outcome == Raised(MessageTypeError(v))
    ensures Intercept(req, Raised(MessageTypeError(v))).outcome == Raised(Raw(GeneralErrorObject()))
    ensures Intercept(req, Raised(MessageTypeError(v))).logs[0].errorMessage
            == MessageTypeError(v).value.fields["message"]
  {
  }

  /** A domain exception keeps its status and body; a plain `Error` becomes the generic 500. */
  lemma HttpExceptionsPassPlainErrorsMask(req: Request, ex: HttpException, message: string)
    requires ex.status != 0
    ensures Intercept(req, Raised(Http(ex))).outcome == Raised(Http(ex))
    ensures Intercept(req, Raised(Raw(Obj(map["message" := Str(message)])))).outcome
            == Raised(Raw(GeneralErrorObject()))
  {
  }
}
