/**
 * `RegisterUseCase`: refuse a duplicate e-mail address, then a duplicate
 * user name, and otherwise store a new active account whose password is
 * the salted hash of the given one.
 */
module RegisterUseCase {
  import opened JsValues
  import opened Exceptions
  import opened UserModel

  /** `CreateUserDto`. */
  datatype RegisterDto = RegisterDto(
    name: string,
    lastName: string,
    email: string,
    phone: Option<string>,
    userName: string,
    password: string,
    idRole: int)

  /** The object handed to `userRepository.create`: no id yet, the hash in place of the password. */
  datatype NewUser = NewUser(
    name: string,
    lastName: string,
    email: string,
    phone: Option<string>,
    userName: string,
    password: string,
    idRole: int,
    idStatus: int)

  /** The calls the use case makes. */
  datatype RegisterStep =
    | FindExisting(email: string, userName: string)   // `findByEmailOrUserName`
    | GenSalt                                          // `bcrypt.genSalt()`
    | HashPassword(plain: string, salt: string)       // `bcrypt.hash(plain, salt)`
    | CreateUser(data: NewUser)                        // `userRepository.create`

  datatype RegisterRun = RegisterRun(outcome: Attempt<User>, steps: seq<RegisterStep>)

  /** A user was written to the store somewhere in the run. */
  predicate Created(steps: seq<RegisterStep>) {
    exists i :: 0 <= i < |steps| && steps[i].CreateUser?
  }

  /** The existing user, if any, blocks registration: it shares the e-mail or the user name. */
  predicate Blocks(existing: Option<User>, dto: RegisterDto) {
    existing.Some? && (existing.value.email == dto.email || existing.value.userName == dto.userName)
  }

  /**
   * `execute(createUserDto)`.  `genSalt` is what `bcrypt.genSalt()` yields
   * and `hash` is `bcrypt.hash`; the lookup, both bcrypt calls and the
   * create may reject, and a rejection reaches the caller unchanged.
   */
  function Execute(dto: RegisterDto, findByEmailOrUserName: (string, string) -> Attempt<Option<User>>,
                   genSalt: Attempt<string>, hash: (string, string) -> Attempt<string>,
                   create: NewUser -> Attempt<User>)
    : (r: RegisterRun)
    ensures |r.steps| >= 1 && r.steps[0] == FindExisting(dto.email, dto.userName)
    ensures findByEmailOrUserName(dto.email, dto.userName).Raised? ==>
              r == RegisterRun(Raised(findByEmailOrUserName(dto.email, dto.userName).error), r.steps[..1])
    ensures findByEmailOrUserName(dto.email, dto.userName).Done? ==>
              var existing := findByEmailOrUserName(dto.email, dto.userName).value;
              && (existing.Some? && existing.value.email == dto.email ==>
                    r.outcome == Raised(Http(EmailAlreadyExists(dto.email))) && |r.steps| == 1)
              && (existing.Some? && existing.value.email != dto.email && existing.value.userName == dto.userName ==>
                    r.outcome == Raised(Http(UsernameAlreadyExists(dto.userName))) && |r.steps| == 1)
              && (!Blocks(existing, dto) && genSalt.Raised? ==>
                    r == RegisterRun(Raised(genSalt.error), [FindExisting(dto.email, dto.userName), GenSalt]))
              && (!Blocks(existing, dto) && genSalt.Done? && hash(dto.password, genSalt.value).Raised? ==>
                    r == RegisterRun(Raised(hash(dto.password, genSalt.value).error),
                                     [FindExisting(dto.email, dto.userName), GenSalt,
                                      HashPassword(dto.password, genSalt.value)]))
              && (!Blocks(existing, dto) && genSalt.Done? && hash(dto.password, genSalt.value).Done? ==>
                    var data := NewUser(dto.name, dto.lastName, dto.email, dto.phone, dto.userName,
                                        hash(dto.password, genSalt.value).value, dto.idRole, ACTIVE_STATUS);
                    && r.steps == [FindExisting(dto.email, dto.userName), GenSalt,
                                   HashPassword(dto.password, genSalt.value), CreateUser(data)]
                    && r.outcome == create(data))
  {
    var first := [FindExisting(dto.email, dto.userName)];
    match findByEmailOrUserName(dto.email, dto.userName)
    case Raised(t) => RegisterRun(Raised(t), first)
    case Done(existing) =>
      if existing.Some? && existing.value.email == dto.email then
        RegisterRun(Raised(Http(EmailAlreadyExists(dto.email))), first)
      else if existing.Some? && existing.value.userName == dto.userName then
        RegisterRun(Raised(Http(UsernameAlreadyExists(dto.userName))), first)
      else
        match genSalt
        case Raised(t) => RegisterRun(Raised(t), first + [GenSalt])
        case Done(salt) =>
          match hash(dto.password, salt)
          case Raised(t) => RegisterRun(Raised(t), first + [GenSalt, HashPassword(dto.password, salt)])
          case Done(hashed) =>
            var data := NewUser(dto.name, dto.lastName, dto.email, dto.phone, dto.userName, hashed, dto.idRole,
                                ACTIVE_STATUS);
            RegisterRun(create(data), first + [GenSalt, HashPassword(dto.password, salt), CreateUser(data)])
  }

  /** Both bcrypt steps succeeded and yielded this hash of the password. */
  predicate HashedTo(dto: RegisterDto, genSalt: Attempt<string>, hash: (string, string) -> Attempt<string>,
                     hashed: string) {
    genSalt.Done? && hash(dto.password, genSalt.value) == Done(hashed)
  }

  /**
   * Exactly the unblocked registrations whose salt and hash succeed reach
   * the store, and then once, as the last step, with the hashed password,
   * the given role and the active status.
   */
  lemma CreatesIffNotBlocked(dto: RegisterDto, findByEmailOrUserName: (string, string) -> Attempt<Option<User>>,
                             genSalt: Attempt<string>, hash: (string, string) -> Attempt<string>,
                             create: NewUser -> Attempt<User>)
    ensures var r := Execute(dto, findByEmailOrUserName, genSalt, hash, create);
            Created(r.steps) <==>
              findByEmailOrUserName(dto.email, dto.userName).Done?
              && !Blocks(findByEmailOrUserName(dto.email, dto.userName).value, dto)
              && genSalt.Done? && hash(dto.password, genSalt.value).Done?
    ensures var r := Execute(dto, findByEmailOrUserName, genSalt, hash, create);
            forall i :: 0 <= i < |r.steps| && r.steps[i].CreateUser? ==>
              i == |r.steps| - 1 && HashedTo(dto, genSalt, hash, r.steps[i].data.password)
              && r.steps[i].data.idStatus == ACTIVE_STATUS && r.steps[i].data.email == dto.email
              && r.steps[i].data.userName == dto.userName && r.steps[i].data.idRole == dto.idRole
  {
    var r := Execute(dto, findByEmailOrUserName, genSalt, hash, create);
    if findByEmailOrUserName(dto.email, dto.userName).Done?
       && !Blocks(findByEmailOrUserName(dto.email, dto.userName).value, dto)
       && genSalt.Done? && hash(dto.password, genSalt.value).Done? {
      assert r.steps[3].CreateUser?;
    }
  }

  /** A rejecting `genSalt` or `hash` ends the run with its error, before anything is stored. */
  lemma BcryptFailurePropagates(dto: RegisterDto, salt: string, failure: Thrown, create: NewUser -> Attempt<User>)
    ensures var r := Execute(dto, (e, u) => Done(None), Raised(failure), (p, s) => Done(p), create);
            r.outcome == Raised(failure) && !Created(r.steps)
    ensures var r := Execute(dto, (e, u) => Done(None), Done(salt), (p, s) => Raised(failure), create);
            r.outcome == Raised(failure) && !Created(r.steps)
  {
  }

  /** When the found user shares both fields, the e-mail conflict is the one reported. */
  lemma EmailConflictTakesPrecedence(dto: RegisterDto, existing: User, genSalt: Attempt<string>,
                                     hash: (string, string) -> Attempt<string>, create: NewUser -> Attempt<User>)
    requires existing.email == dto.email && existing.userName == dto.userName
    ensures var r := Execute(dto, (e, u) => Done(Some(existing)), genSalt, hash, create);
            r.outcome.Raised? && r.outcome.error.Http?
            && r.outcome.error.ex.message == "Email " + dto.email + " is already registered"
            && r.outcome.error.ex.status == HTTP_CONFLICT
  {
  }
}
