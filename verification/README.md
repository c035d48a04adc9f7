# Kahua login API — a Dafny model of its decision logic

The service is a NestJS back end for sign-in, registration, password reset
and parking pre-enrollment. Its logic sits between the framework and the
ORM as a set of small decision functions. This project models those
functions as total Dafny functions over immutable datatypes:

- the rate-limit rejection shaper of `AuthRateLimitGuard`;
- the login use case with `AuthService.validateUser` and `generateJWT`;
- the forgot-password flow of `AuthService`;
- the registration and pre-enrollment use cases;
- the user, parking and `Response` models;
- the `CODES` table and the domain exceptions built from it;
- the two global interceptors (error handler and JWT error mapping).

Every collaborator is a function parameter: the user store, bcrypt, the JWT
signer, the HTTP notifier, `randomUUID` and the clock.

Each flow returns its outcome and the list of collaborator calls it made, in
order. So "the token generator is never invoked" or "`create` is called once
with this record" are statements about that list.

- A thrown value is an `Exceptions.Thrown`:
  - a Nest `HttpException`;
  - a `jsonwebtoken` error;
  - any other JavaScript value, `null` and `undefined` included.
- A call that may throw returns an `Exceptions.Attempt`.
- JavaScript values (`JsValues.Value`) are modelled with truthiness, `??` and property reads. Reading a property of `null` or `undefined` is a `TypeError`. The model keeps that `TypeError` wherever the source reads `error.message` of a caught value.

Module layout (one file each): `JsValues`, `Text` (substring search),
`Validation` (the e-mail and phone patterns), `GeneralCodes`,
`ResponseModel`, `Exceptions`, `Constants`, `UserModel`, `ParkingModel`,
`UserRepository`, `AuthService`, `LoginUseCase`, `RegisterUseCase`,
`PreEnrollUseCase`, `RateLimitGuard`, `ErrorHandler`, `JwtError`.

## Model

| member | source | states |
|---|---|---|
| Text.Includes | src/infrastructure/guards/auth-rate-limit.guard.ts:26 | `url.includes(p)` holds exactly when `p` occurs at some offset of `url` |
| RateLimitGuard.Classify | src/infrastructure/guards/auth-rate-limit.guard.ts:26-41 | the tier is Login iff the URL contains `/auth/login`; ForgotPassword iff it lacks that but contains `/auth/forgot-password`; General iff it contains neither |
| RateLimitGuard.ThrowThrottlingException | src/infrastructure/guards/auth-rate-limit.guard.ts:11-49 | every path throws a 429 whose message is the tier entry's message plus the tier's wait; the final headers are exactly Limit "5", Remaining "0", Reset = now + 60000 ms, and Retry-After "60", "300" or "1" by tier |
| RateLimitGuard.HeadersLastWriteWins | src/infrastructure/guards/auth-rate-limit.guard.ts:18-47 | a header is present iff some write set it, and its value is that of the last write to it |
| RateLimitGuard.CommonHeaders | src/infrastructure/guards/auth-rate-limit.guard.ts:18-24 | the four writes made before the tier test leave Limit "5", Remaining "0", the reset date and Retry-After "60" |
| RateLimitGuard.LoginTierMessage | src/infrastructure/guards/auth-rate-limit.guard.ts:30 | the login tier's full message text |
| RateLimitGuard.ForgotPasswordTierMessage | src/infrastructure/guards/auth-rate-limit.guard.ts:38 | the forgot-password tier's full message text |
| RateLimitGuard.GeneralTierMessage | src/infrastructure/guards/auth-rate-limit.guard.ts:46 | the general tier's full message text |
| RateLimitGuard.LoginRouteAnywhere | src/infrastructure/guards/auth-rate-limit.guard.spec.ts:170-272 | any prefix (`/api`, `/v1`) or suffix (a query string) around the login route still selects Login |
| RateLimitGuard.ForgotPasswordRouteAnywhere | src/infrastructure/guards/auth-rate-limit.guard.ts:34-41 | any text around the forgot-password route selects ForgotPassword, unless the login route also occurs, which then wins |
| RateLimitGuard.ClassifyLoginExamples | src/infrastructure/guards/auth-rate-limit.guard.ts:26 | `/auth/login` and `/api/auth/login` are Login |
| RateLimitGuard.ClassifyForgotPasswordExample | src/infrastructure/guards/auth-rate-limit.guard.ts:34 | `/api/auth/forgot-password` is ForgotPassword |
| RateLimitGuard.ClassifyBothRoutes | src/infrastructure/guards/auth-rate-limit.guard.ts:26-41 | a URL holding both routes is Login, because the login test comes first |
| RateLimitGuard.ClassifyUpperCaseLogin | src/infrastructure/guards/auth-rate-limit.guard.spec.ts:170-272 | `/AUTH/LOGIN` falls to General |
| RateLimitGuard.ClassifyMixedCaseForgotPassword | src/infrastructure/guards/auth-rate-limit.guard.spec.ts:170-272 | `/Auth/Forgot-Password` falls to General |
| RateLimitGuard.ClassifyShortUrls | src/infrastructure/guards/auth-rate-limit.guard.spec.ts:274-284 | `""`, `"/"` and `"/auth"` are General |
| RateLimitGuard.ClassifyOtherRoute | src/infrastructure/guards/auth-rate-limit.guard.ts:43-48 | a route of another module is General |
| GeneralCodes.RateLimitStatuses | src/config/general.codes.ts:106-120 | all three rate-limit entries have status 429 |
| GeneralCodes.JwtStatuses | src/config/general.codes.ts:96-105 | the expired- and invalid-token entries have status 401 |
| GeneralCodes.PasswordResetStatuses | src/config/general.codes.ts:76-95 | user-not-found 401, role-not-allowed 403, notification-failed 502, e-mail-sent 200 |
| GeneralCodes.GeneralErrorKeyDiffersFromCode | src/config/general.codes.ts:26-30 | the general-error key holds the code `PKU_GENERAL_ERROR` and status 500, so key and code differ |
| ResponseModel.Make | src/domain/models/response.model.ts:4-15 | the data is kept as passed; an entry argument supplies code, message and status; a string code keeps the arguments as given |
| ResponseModel.EntryOverridesArguments | src/domain/models/response.model.ts:10-14 | with an entry argument the message and status arguments have no effect |
| ResponseModel.TextCodeStoresArguments | src/domain/models/response.model.ts:4-9 | with a string code all four members are stored exactly as passed, omitted ones undefined |
| ResponseModel.Success | src/domain/models/response.model.ts:17-19 | code (default `SUCCESS`) and data as given, message and status undefined |
| ResponseModel.Error | src/domain/models/response.model.ts:21-23 | data is `null`; code, message and status as given |
| ResponseModel.ToJsonRoundTrip | src/domain/models/response.model.ts:25-32 | the JSON form has exactly the four members and the instance can be rebuilt from it |
| Validation.EmailCheckMatchesPattern | src/domain/models/user.model.ts:42-43 | the direct condition (no whitespace, one `@`, non-empty local part, a domain with an inner dot) accepts exactly the strings the anchored e-mail pattern accepts |
| Validation.EmailAcceptsPlainAddress | src/domain/models/pre-enrolled-parking.model.ts:38-41 | `a@b.co` passes |
| Validation.EmailRejectsMissingParts | src/domain/models/pre-enrolled-parking.model.ts:38-41 | a domain without a dot and an empty local part fail |
| Validation.EmailRejectsTwoAts | src/domain/models/pre-enrolled-parking.model.ts:38-41 | a second `@` fails |
| Validation.EmailRejectsSpaceAndLeadingDot | src/domain/models/pre-enrolled-parking.model.ts:38-41 | a space fails, and so does a dot right after the `@` |
| Validation.PhoneExamples | src/domain/models/pre-enrolled-parking.model.ts:43-46 | ten digits pass; eleven digits, the empty string and a `-` fail |
| UserModel.PredicatesReadPlainObject | src/domain/models/user.model.ts:20-29 | `isActive` iff status id 1; `hasRole(r)` iff role id `r` |
| UserModel.FullName | src/domain/models/user.model.ts:34-36 | the name, one space, then the last name |
| UserModel.EmailRuleIsPattern | src/domain/models/user.model.ts:41-44 | the user's e-mail check is the anchored pattern |
| UserModel.PlainObjectOfEntity | src/domain/models/user.model.ts:49-76 | loading a row and flattening it gives exactly the eight members id, name, lastName, email, phone, userName, idRole, idStatus, each copied from the row; the password never appears |
| UserModel.PlainObjectRoundTrip | src/domain/models/user.model.ts:65-76 | every field of the model is recovered from its plain object |
| ParkingModel.PredicatesReadPlainObject | src/domain/models/pre-enrolled-parking.model.ts:26-32 | `isActive` iff status 1; multiple branches iff branches declared and more than one |
| ParkingModel.MultipleBranchesThreshold | src/domain/models/pre-enrolled-parking.model.ts:30-32 | one declared branch is not multiple; two are |
| ParkingModel.FullAddress | src/domain/models/pre-enrolled-parking.model.ts:34-36 | the address, `", "`, then the neighborhood |
| ParkingModel.EmailRuleIsPattern | src/domain/models/pre-enrolled-parking.model.ts:38-41 | the parking e-mail check is the same anchored pattern as the user's |
| ParkingModel.EntityRoundTrip | src/domain/models/pre-enrolled-parking.model.ts:48-90 | loading a row and flattening it reproduces all seventeen columns |
| Exceptions.InvalidCredentials | src/domain/exceptions/auth.exceptions.ts:7-11 | the user-not-found entry as body, HTTP 401 |
| Exceptions.InactiveUser | src/domain/exceptions/auth.exceptions.ts:16-20 | the role-not-allowed entry as body, HTTP 403 |
| Exceptions.EmailAlreadyExists | src/domain/exceptions/auth.exceptions.ts:25-35 | the e-mail-exists code and status, message `Email <e> is already registered`, HTTP 409 |
| Exceptions.UsernameAlreadyExists | src/domain/exceptions/auth.exceptions.ts:40-50 | the user-name-exists code and status, message `Username <u> is already in use`, HTTP 409 |
| Exceptions.EmailConflictsDistinguishAddresses | src/domain/exceptions/auth.exceptions.ts:28-31 | two e-mail conflicts are equal only for the same address |
| Exceptions.ParkingEmailAlreadyExists | src/domain/exceptions/parking.exceptions.ts:7-16 | the user e-mail-exists code with body status 400, the pre-enrollment message, HTTP 409 |
| Exceptions.ParkingConflictSharesUserCode | src/domain/exceptions/parking.exceptions.ts:9-14 | same code and HTTP status as the user conflict, a different message |
| Exceptions.InvalidBusinessRule | src/domain/exceptions/parking.exceptions.ts:22-32 | the business-rule code and status with the given message, HTTP 400 |
| UserRepository.FindByEmail | src/infrastructure/repositories/user.repository.ts:21-24 | a user comes back iff a row has that address, and it is that row's model |
| UserRepository.ValidateCredentials | src/infrastructure/repositories/user.repository.ts:58-74 | a user comes back iff the address is stored and the password matches its hash, and it is that row's model |
| AuthService.GenerateJwt | src/application/services/auth.service.ts:30-49 | the token is signed over email, sub = id, name, lastName, role = idRole, status = idStatus with the configured secret; the user returned is the plain object, without password |
| AuthService.ClaimsAgreeWithPlainUser | src/application/services/auth.service.ts:33-47 | every claim equals the returned user object's corresponding member |
| AuthService.ValidateUser | src/application/services/auth.service.ts:51-61 | the repository's answer passes through; a thrown error gives `null` and exactly one log entry, `Error validating user` with the error's `message`; a `null`/`undefined` rejection escapes as a `TypeError` |
| AuthService.CheckResetEligibility | src/application/services/auth.service.ts:79-89 | an unknown user gives the user-not-found response; a non-platform role gives role-not-allowed; otherwise the user goes on |
| AuthService.DeliveryResponse | src/application/services/auth.service.ts:125-134 | 201 gives the e-mail-sent response; any other status gives the failed response carrying the answer's data; a transport error gives the failed response carrying `{error: data ?? entry}` |
| AuthService.SentIffCreated | src/application/services/auth.service.ts:125-129 | the response has the e-mail-sent code iff the notifier answered 201, and the failed code in every other case |
| AuthService.ForgotPassword | src/application/services/auth.service.ts:71-135 | lookup first; refusals make no notifier call; an eligible user gets one token over `{sub}` with `15m` and one POST of the reset body to the notification URL; a failing lookup propagates |
| AuthService.EmailSentIffPlatformUser | src/application/services/auth.service.ts:71-89 | on a store, the flow never throws and posts an e-mail iff the address belongs to a platform-role user |
| AuthService.NotifierStatusScenarios | src/application/services/auth.service.ts:125-129 | 201 gives the sent code with status 200; 500 gives the failed code with status 502 and the answer's data |
| AuthService.TransportFailureFallback | src/application/services/auth.service.ts:130-134 | the failure data is `{error}` holding the response data, or the failed entry when that is nullish |
| LoginUseCase.Execute | src/application/use-cases/login.use-case.ts:13-30 | `validateUser` is called exactly once, first, with the DTO's credentials; `generateJWT` is called once iff it returned an active user, and never otherwise; null gives invalid credentials, inactive gives inactive user; a rejection of either call is the outcome unchanged |
| LoginUseCase.TokenFailurePropagates | src/application/use-cases/login.use-case.spec.ts:164-174 | a rejecting token generator after an active user's check makes the login reject with that error, after exactly the two calls |
| LoginUseCase.TokenIssuedIffValidAndActive | src/application/use-cases/login.use-case.ts:13-30 | on a store, login succeeds iff the address is stored, the password matches and the status is 1; the token is over that row's claims and the user object copies the row's eight non-secret columns, without password |
| LoginUseCase.UnknownEmailAndWrongPasswordLookAlike | src/application/use-cases/login.use-case.ts:21-23 | unknown address and wrong password give the same 401 and no token |
| LoginUseCase.InactiveAccountRefused | src/application/use-cases/login.use-case.ts:25-27 | right credentials on an inactive account give the 403 and no token |
| LoginUseCase.RepositoryFailureLooksLikeBadCredentials | src/application/services/auth.service.ts:55-60 | a repository error object during login surfaces as the invalid-credentials 401 |
| LoginUseCase.NullRejectionEscapes | src/application/services/auth.service.ts:58 | a `null` rejection surfaces as the `TypeError` of reading `message` off `null` |
| RegisterUseCase.Execute | src/application/use-cases/register.use-case.ts:15-45 | the lookup is first; a same-e-mail match is the e-mail conflict; otherwise a same-name match is the name conflict; otherwise `genSalt`, `hash` of the password with that salt, and one create of the record with the hash and status 1, whose result is returned; a rejection of the lookup, `genSalt` or `hash` ends the run with that error after exactly the calls made so far |
| RegisterUseCase.CreatesIffNotBlocked | src/application/use-cases/register.use-case.ts:21-44 | a user is created iff the lookup succeeded and found nobody sharing e-mail or user name and both bcrypt calls succeeded; the create is last, so at most one, and carries the hash, the status 1, the e-mail, the name and the role |
| RegisterUseCase.BcryptFailurePropagates | src/application/use-cases/register.use-case.spec.ts:262-278 | a rejecting `genSalt` or `hash` makes the registration reject with that error and nothing is created |
| RegisterUseCase.EmailConflictTakesPrecedence | src/application/use-cases/register.use-case.ts:21-24 | a match on both fields reports the e-mail conflict |
| PreEnrollUseCase.Execute | src/application/use-cases/pre-enroll-parking.use-case.ts:15-51 | the lookup is first; a taken address, then the branch rule, refuse with no create; otherwise the create is the last call, whose result is returned, preceded by a UUID draw iff no internal id, so two calls with an internal id and three without |
| PreEnrollUseCase.RecordWrittenIffAccepted | src/application/use-cases/pre-enroll-parking.use-case.ts:26-50 | a record is written iff the address is free and the branch rule holds, and only by the last call, so exactly once; it copies the twelve fields, has no files and status 1 |
| PreEnrollUseCase.IdentifierExclusivity | src/application/use-cases/pre-enroll-parking.use-case.ts:47-48 | the internal id is copied; the external id is present, and is the drawn UUID, iff the internal id is absent or empty |
| PreEnrollUseCase.EmptyInternalIdGetsExternalId | src/application/use-cases/pre-enroll-parking.use-case.ts:48 | an empty internal id is stored and a UUID is generated beside it |
| PreEnrollUseCase.DuplicateEmailCheckedFirst | src/application/use-cases/pre-enroll-parking.use-case.ts:18-30 | a taken address is reported even when the branch rule is also broken |
| ErrorHandler.StringSpreadKeys | src/infrastructure/interceptors/error-handler.interceptor.ts:49 | spreading a string gives only decimal index keys, so never `password` or `token` |
| ErrorHandler.Redact | src/infrastructure/interceptors/error-handler.interceptor.ts:50-55 | the keys stay the same; a truthy member becomes `[REDACTED]`; all other members are unchanged |
| ErrorHandler.SanitizeBody | src/infrastructure/interceptors/error-handler.interceptor.ts:46-58 | a falsy body is returned unchanged; otherwise the copy has the body's keys, truthy `password`/`token` redacted and every other member unchanged |
| ErrorHandler.NoSecretSurvives | src/infrastructure/interceptors/error-handler.interceptor.ts:50-55 | a truthy `password` or `token` in the sanitized body is the redaction marker |
| ErrorHandler.SanitizeIdempotent | src/infrastructure/interceptors/error-handler.interceptor.ts:46-58 | sanitizing twice is sanitizing once |
| ErrorHandler.StringBodyIsSpread | src/infrastructure/interceptors/error-handler.interceptor.ts:49 | a non-empty string body is logged as its characters by index |
| ErrorHandler.GeneralErrorObject | src/infrastructure/interceptors/error-handler.interceptor.ts:37-41 | exactly `code` (the general entry's), `message` "An unexpected error occurred" and `status` 500 |
| ErrorHandler.Intercept | src/infrastructure/interceptors/error-handler.interceptor.ts:20-44 | results pass; each error is logged once with the sanitized body and re-thrown when its status is truthy, else replaced by the generic 500; a nullish error escapes as a `TypeError` with no log |
| ErrorHandler.InterceptStable | src/infrastructure/interceptors/error-handler.interceptor.ts:33-41 | every error let out carries a truthy status, and a second pass changes nothing |
| ErrorHandler.TypeErrorNotStable | src/infrastructure/interceptors/error-handler.interceptor.ts:26-27 | a nullish error escapes as the `TypeError` of reading its `message`; that error has no status, so a second pass logs its message and makes it the 500 |
| ErrorHandler.HttpExceptionsPassPlainErrorsMask | src/infrastructure/interceptors/error-handler.interceptor.ts:33-41 | a domain exception is re-thrown as it is; a plain error object becomes the generic 500 |
| JwtError.MapError | src/infrastructure/interceptors/jwt-error.interceptor.ts:22-30 | expired token gives the 401 with the expired entry; every other token error the 401 with the invalid entry; anything else unchanged |
| JwtError.Intercept | src/infrastructure/interceptors/jwt-error.interceptor.ts:19-33 | results pass unchanged; errors are mapped |
| JwtError.InterceptIdempotent | src/infrastructure/interceptors/jwt-error.interceptor.ts:19-33 | no token error is left, and a second pass changes nothing |
| JwtError.JwtErrorsAnswerUnauthorized | src/infrastructure/interceptors/jwt-error.interceptor.ts:22-28 | every token error answers 401, with the expired code iff the token expired |
| JwtError.NotBeforeIsInvalid | src/infrastructure/interceptors/jwt-error.interceptor.ts:26-28 | a not-before error is reported as an invalid token |
| JwtError.ChainKeepsJwtUnauthorized | src/main.ts:25-28 | with the interceptors installed as they are, a token error reaches the client as its 401 with one log entry; the error handler alone would make it the 500 |

## Left out

- The throttler's counting window (`ThrottlerGuard`, the module's limits): only the rejection shaper is modelled. The forgot-password route is declared with a different limit, yet the shaper always announces limit 5 and a 60-second reset. The model keeps those literal values.
- Collaborators are parameters: bcrypt (`compare`, `genSalt`, `hash`), the JWT signer, `randomUUID`, the HTTP notifier, `Date.now()` and `toISOString`. The use cases take `generateJWT`, `genSalt`, `hash`, the lookups and the creates as calls that may reject.
- AuthService.GenerateJwt: the signer it calls is a total function, so a throwing `jwtService.sign` is not modelled inside the service; `LoginUseCase.Execute` takes `generateJWT` as a call that may reject, which covers its propagation. `ForgotPassword` likewise signs with a total signer.
- UserRepository.ValidateCredentials: `bcrypt.compare` is a total predicate; a rejecting comparison is covered only as a rejecting `validateCredentials` call in `AuthService.ValidateUser`.
- `configService.get` values are modelled as strings that are always present; an undefined secret or URL is not modelled.
- Numbers are mathematical integers; `NaN` and fractional values are not modelled.
- Strings are sequences of Unicode characters, not of UTF-16 code units, so `ErrorHandler.StringSpread` gives one index key where JavaScript gives two for a character outside the Basic Multilingual Plane. `JsValues.Value` has no arrays, so an array request body (spread into index keys as well) is not modelled.
- The `TypeError` text is the one Node's V8 engine produces (`Cannot read properties of null (reading 'message')`); other engines word it differently.
- The logger's `stack` and `timestamp` members and the logger implementation itself (console output) are not modelled; a log entry keeps its text, the error message and the sanitized body.
- `src/domain/entities/user.entity.ts` is not part of this model; the row is taken to have the model's columns plus `password`.
- The ORM: the stores are maps keyed by e-mail address. `findByEmailOrUserName`, the parking lookup and both `create`s are parameters, so which of two matching rows the ORM returns is not modelled.
- The unused `findByEmail`/`findUserById` pass-through methods of `AuthService`, the legacy `src/modules` tree, controllers, Nest modules, Passport strategies, decorators, DTO validation and Swagger metadata are not modelled.
- The error handler's copy of a body is a fresh object, so the input is never mutated; values are immutable here, so this holds trivially and is not stated separately.
