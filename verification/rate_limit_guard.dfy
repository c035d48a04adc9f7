/**
 * The rejection shaper of `AuthRateLimitGuard`: called once the throttler's
 * counter says a client is over quota, it sets the rate-limit headers,
 * picks a tier by searching the request URL for the login and
 * forgot-password routes, and always throws a 429 with the tier's message.
 * The headers are the same for every tier except `Retry-After`.
 */
module RateLimitGuard {
  import opened JsValues
  import opened GeneralCodes
  import opened Exceptions
  import Text

  datatype Tier = Login | ForgotPassword | General

  const LOGIN_ROUTE: string := "/auth/login"
  const FORGOT_PASSWORD_ROUTE: string := "/auth/forgot-password"

  /** The reset header always points one minute ahead, whatever the tier. */
  const RESET_WINDOW_MS: int := 60000

  const LIMIT_HEADER: string := "X-RateLimit-Limit"
  const REMAINING_HEADER: string := "X-RateLimit-Remaining"
  const RESET_HEADER: string := "X-RateLimit-Reset"
  const RETRY_AFTER_HEADER: string := "Retry-After"

  /**
   * Ordered, case-sensitive substring search: the login route wins over the
   * forgot-password route, and anything else is general.
   */
  function Classify(url: string): (t: Tier)
    ensures t == Login <==> Text.Occurs(LOGIN_ROUTE, url)
    ensures t == ForgotPassword <==> !Text.Occurs(LOGIN_ROUTE, url) && Text.Occurs(FORGOT_PASSWORD_ROUTE, url)
    ensures t == General <==> !Text.Occurs(LOGIN_ROUTE, url) && !Text.Occurs(FORGOT_PASSWORD_ROUTE, url)
  {
    if Text.Includes(url, LOGIN_ROUTE) then Login
    else if Text.Includes(url, FORGOT_PASSWORD_ROUTE) then ForgotPassword
    else General
  }

  /** The code-table entry whose message a tier's exception carries. */
  function TierCode(t: Tier): CodeKey {
    match t
    case Login => PklRateLimitLogin
    case ForgotPassword => PklRateLimitForgotPassword
    case General => PklRateLimitGeneral
  }

  /** The wait announced after the entry's message. */
  function WaitSuffix(t: Tier): string {
    match t
    case Login => " Try again in 60 seconds."
    case ForgotPassword => " Try again in 5 minutes."
    case General => " Try again in 1 second."
  }

  /** The final `Retry-After` value of a tier, in seconds. */
  function RetryAfter(t: Tier): string {
    match t
    case Login => "60"
    case ForgotPassword => "300"
    case General => "1"
  }

  /** One `response.setHeader(name, value)` call. */
  datatype HeaderWrite = HeaderWrite(name: string, value: string)

  /** The headers a sequence of writes leaves on the response: a later write replaces an earlier one. */
  function Headers(writes: seq<HeaderWrite>): map<string, string> {
    if |writes| == 0 then map[]
    else Headers(writes[..|writes| - 1])[writes[|writes| - 1].name := writes[|writes| - 1].value]
  }

  /** The value `Headers` gives a name is the value of the last write to that name. */
  lemma {:induction false} HeadersLastWriteWins(writes: seq<HeaderWrite>, name: string)
    ensures name in Headers(writes) <==> exists i :: 0 <= i < |writes| && writes[i].name == name
    ensures name in Headers(writes) ==>
              exists i :: 0 <= i < |writes| && writes[i].name == name && Headers(writes)[name] == writes[i].value
                          && forall j :: i < j < |writes| ==> writes[j].name != name
    decreases |writes|
  {
    if |writes| > 0 {
      var init := writes[..|writes| - 1];
      var last := writes[|writes| - 1];
      HeadersLastWriteWins(init, name);
      assert forall i :: 0 <= i < |init| ==> init[i] == writes[i];
      if last.name == name {
        assert writes[|writes| - 1].name == name;
      } else if name in Headers(writes) {
        var i :| 0 <= i < |init| && init[i].name == name && Headers(init)[name] == init[i].value
                 && forall j :: i < j < |init| ==> init[j].name != name;
        assert writes[i].name == name;
      }
    }
  }

  /** A write appended to a sequence of writes overrides only its own name. */
  lemma HeadersSnoc(writes: seq<HeaderWrite>, w: HeaderWrite)
    ensures Headers(writes + [w]) == Headers(writes)[w.name := w.value]
  {
    assert (writes + [w])[..|writes|] == writes;
  }

  /** The four writes made before the tier is known. */
  function CommonWrites(reset: string): seq<HeaderWrite> {
    [ HeaderWrite(LIMIT_HEADER, "5"),
      HeaderWrite(REMAINING_HEADER, "0"),
      HeaderWrite(RESET_HEADER, reset),
      HeaderWrite(RETRY_AFTER_HEADER, "60") ]
  }

  lemma CommonHeaders(reset: string)
    ensures Headers(CommonWrites(reset))
            == map[LIMIT_HEADER := "5", REMAINING_HEADER := "0", RESET_HEADER := reset, RETRY_AFTER_HEADER := "60"]
  {
    var w := CommonWrites(reset);
    HeadersSnoc([], w[0]);
    assert [w[0]] == [] + [w[0]];
    HeadersSnoc([w[0]], w[1]);
    assert w[..2] == [w[0]] + [w[1]];
    HeadersSnoc(w[..2], w[2]);
    assert w[..3] == w[..2] + [w[2]];
    HeadersSnoc(w[..3], w[3]);
    assert w == w[..3] + [w[3]];
  }

  /** The outcome of a throttling rejection: the header writes made, then the throw. */
  datatype Rejection = Rejection(writes: seq<HeaderWrite>, outcome: Attempt<()>)

  /**
   * `throwThrottlingException`.  `now` is `Date.now()` and `isoDate` is
   * `new Date(ms).toISOString()`; both are outside the model.
   */
  function ThrowThrottlingException(url: string, now: int, isoDate: int -> string): (r: Rejection)
    ensures r.outcome.Raised? && r.outcome.error.Http?
    ensures r.outcome.error.ex.status == HTTP_TOO_MANY_REQUESTS
    ensures r.outcome.error.ex.message
            == Lookup(TierCode(Classify(url))).message + WaitSuffix(Classify(url))
    ensures r.outcome.error.ex.body == TextBody(Lookup(TierCode(Classify(url))).message)
    ensures Headers(r.writes) == map[
              LIMIT_HEADER := "5",
              REMAINING_HEADER := "0",
              RESET_HEADER := isoDate(now + RESET_WINDOW_MS),
              RETRY_AFTER_HEADER := RetryAfter(Classify(url))]
  {
    var common := CommonWrites(isoDate(now + RESET_WINDOW_MS));
    CommonHeaders(isoDate(now + RESET_WINDOW_MS));
    if Text.Includes(url, LOGIN_ROUTE) then
      Rejection(common, Raised(Http(Throttled(
        Lookup(PklRateLimitLogin).message,
        Lookup(PklRateLimitLogin).message + " Try again in 60 seconds."))))
    else if Text.Includes(url, FORGOT_PASSWORD_ROUTE) then
      var retry := HeaderWrite(RETRY_AFTER_HEADER, "300");
      HeadersSnoc(common, retry);
      Rejection(common + [retry], Raised(Http(Throttled(
        Lookup(PklRateLimitForgotPassword).message,
        Lookup(PklRateLimitForgotPassword).message + " Try again in 5 minutes."))))
    else
      var retry := HeaderWrite(RETRY_AFTER_HEADER, "1");
      HeadersSnoc(common, retry);
      Rejection(common + [retry], Raised(Http(Throttled(
        Lookup(PklRateLimitGeneral).message,
        Lookup(PklRateLimitGeneral).message + " Try again in 1 second."))))
  }

  /** The full login-tier message: the entry's message, then the 60-second wait. */
  lemma LoginTierMessage()
    ensures Lookup(TierCode(Login)).message + WaitSuffix(Login)
            == "Too many login attempts. Please try again later." + " Try again in 60 seconds."
  {
  }

  /** The full forgot-password-tier message: the entry's message, then the 5-minute wait. */
  lemma ForgotPasswordTierMessage()
    ensures Lookup(TierCode(ForgotPassword)).message + WaitSuffix(ForgotPassword)
            == "Too many password reset requests. Please try again later." + " Try again in 5 minutes."
  {
  }

  /** The full general-tier message: the entry's message, then the 1-second wait. */
  lemma GeneralTierMessage()
    ensures Lookup(TierCode(General)).message + WaitSuffix(General)
            == "Too many requests. Please try again later." + " Try again in 1 second."
  {
  }

  /** Whatever surrounds it (an API prefix, a version, a query string), the login route selects the login tier. */
  lemma LoginRouteAnywhere(prefix: string, suffix: string)
    ensures Classify(prefix + LOGIN_ROUTE + suffix) == Login
  {
    Text.OccursBetween(prefix, LOGIN_ROUTE, suffix);
  }

  /**
   * Whatever surrounds it, the forgot-password route selects its tier,
   * unless the login route also occurs, which takes precedence.
   */
  lemma ForgotPasswordRouteAnywhere(prefix: string, suffix: string)
    ensures Text.Occurs(LOGIN_ROUTE, prefix + FORGOT_PASSWORD_ROUTE + suffix) ==>
              Classify(prefix + FORGOT_PASSWORD_ROUTE + suffix) == Login
    ensures !Text.Occurs(LOGIN_ROUTE, prefix + FORGOT_PASSWORD_ROUTE + suffix) ==>
              Classify(prefix + FORGOT_PASSWORD_ROUTE + suffix) == ForgotPassword
  {
    Text.OccursBetween(prefix, FORGOT_PASSWORD_ROUTE, suffix);
  }

  /** The bare and the prefixed login route select the login tier. */
  lemma ClassifyLoginExamples()
    ensures Classify("/auth/login") == Login
    ensures Classify("/api/auth/login") == Login
  {
    assert Text.OccursAt(LOGIN_ROUTE, "/auth/login", 0);
    assert Text.OccursAt(LOGIN_ROUTE, "/api/auth/login", 4);
  }

  /** The prefixed forgot-password route selects its tier. */
  lemma ClassifyForgotPasswordExample()
    ensures Classify("/api/auth/forgot-password") == ForgotPassword
  {
    Text.MissingCharNoOccurrence(LOGIN_ROUTE, "/api/auth/forgot-password", 'l');
    assert Text.OccursAt(FORGOT_PASSWORD_ROUTE, "/api/auth/forgot-password", 4);
  }

  /** A URL holding both routes is a login URL. */
  lemma ClassifyBothRoutes()
    ensures Classify(LOGIN_ROUTE + "?next=" + FORGOT_PASSWORD_ROUTE) == Login
  {
    LoginRouteAnywhere("", "?next=" + FORGOT_PASSWORD_ROUTE);
    assert "" + LOGIN_ROUTE + ("?next=" + FORGOT_PASSWORD_ROUTE) == LOGIN_ROUTE + "?next=" + FORGOT_PASSWORD_ROUTE;
  }

  /** Matching is case-sensitive: the upper-case login route falls to the general tier. */
  lemma ClassifyUpperCaseLogin()
    ensures Classify("/AUTH/LOGIN") == General
  {
    Text.MissingCharNoOccurrence(LOGIN_ROUTE, "/AUTH/LOGIN", 'a');
    Text.MissingCharNoOccurrence(FORGOT_PASSWORD_ROUTE, "/AUTH/LOGIN", 'a');
  }

  /** Matching is case-sensitive: the mixed-case forgot-password route falls to the general tier. */
  lemma ClassifyMixedCaseForgotPassword()
    ensures Classify("/Auth/Forgot-Password") == General
  {
    Text.MissingCharNoOccurrence(LOGIN_ROUTE, "/Auth/Forgot-Password", 'l');
    Text.MissingCharNoOccurrence(FORGOT_PASSWORD_ROUTE, "/Auth/Forgot-Password", 'f');
  }

  /** The empty URL, the root and a bare `/auth` are general. */
  lemma ClassifyShortUrls()
    ensures Classify("") == General
    ensures Classify("/") == General
    ensures Classify("/auth") == General
  {
  }

  /** A route of another module is general. */
  lemma ClassifyOtherRoute()
    ensures Classify("/parking/pre-enroll") == General
  {
    Text.MissingCharNoOccurrence(LOGIN_ROUTE, "/parking/pre-enroll", 'u');
    Text.MissingCharNoOccurrence(FORGOT_PASSWORD_ROUTE, "/parking/pre-enroll", 'f');
  }
}
