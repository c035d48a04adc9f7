/**
 * `UserModel`: the domain view of a stored user.  It never holds the
 * password hash; the stored row (`UserEntity`) does.
 */
module UserModel {
  import opened JsValues
  import Validation

  /** Status id of an active account. */
  const ACTIVE_STATUS: int := 1

  datatype User = User(
    id: int,
    name: string,
    lastName: string,
    email: string,
    phone: Option<string>,   // `string | null`
    userName: string,
    idRole: int,
    idStatus: int)

  /** A user row as the ORM loads it, password hash included. */
  datatype UserEntity = UserEntity(
    id: int,
    name: string,
    lastName: string,
    email: string,
    phone: Option<string>,
    userName: string,
    password: string,
    idRole: int,
    idStatus: int)

  /** `isActive()`. */
  predicate IsActive(u: User) {
    u.idStatus == ACTIVE_STATUS
  }

  /** `hasRole(roleId)`. */
  predicate HasRole(u: User, roleId: int) {
    u.idRole == roleId
  }

  /** `getFullName()`: the name, one space, the last name. */
  function FullName(u: User): (r: string)
    ensures |r| == |u.name| + 1 + |u.lastName|
    ensures r[..|u.name|] == u.name && r[|u.name|] == ' ' && r[|u.name| + 1..] == u.lastName
  {
    u.name + " " + u.lastName
  }

  /** `isValidEmail()`: the shared e-mail pattern applied to the user's address. */
  predicate HasValidEmail(u: User) {
    Validation.IsValidEmail(u.email)
  }

  /** `UserModel.fromEntity(entity)`: every column but the password. */
  function FromEntity(e: UserEntity): User {
    User(e.id, e.name, e.lastName, e.email, e.phone, e.userName, e.idRole, e.idStatus)
  }

  /** `toPlainObject()`. */
  function ToPlainObject(u: User): map<string, Value> {
    map[
      "id" := Num(u.id),
      "name" := Str(u.name),
      "lastName" := Str(u.lastName),
      "email" := Str(u.email),
      "phone" := NullableStr(u.phone),
      "userName" := Str(u.userName),
      "idRole" := Num(u.idRole),
      "idStatus" := Num(u.idStatus)]
  }

  /** `m` holds the row's eight non-secret columns, unchanged, under their names. */
  predicate CopiesRow(m: map<string, Value>, e: UserEntity) {
    CopiesIdentity(m, e) && CopiesAccount(m, e)
  }

  predicate CopiesIdentity(m: map<string, Value>, e: UserEntity) {
    && "id" in m && m["id"] == Num(e.id)
    && "name" in m && m["name"] == Str(e.name)
    && "lastName" in m && m["lastName"] == Str(e.lastName)
    && "email" in m && m["email"] == Str(e.email)
  }

  predicate CopiesAccount(m: map<string, Value>, e: UserEntity) {
    && "phone" in m && m["phone"] == NullableStr(e.phone)
    && "userName" in m && m["userName"] == Str(e.userName)
    && "idRole" in m && m["idRole"] == Num(e.idRole)
    && "idStatus" in m && m["idStatus"] == Num(e.idStatus)
  }

  /** The plain object's members are the eight model fields. */
  lemma PlainObjectKeys(u: User)
    ensures ToPlainObject(u).Keys == {"id", "name", "lastName", "email", "phone", "userName", "idRole", "idStatus"}
  {
  }

  lemma PlainCopiesIdentity(e: UserEntity)
    ensures CopiesIdentity(ToPlainObject(FromEntity(e)), e)
  {
  }

  lemma PlainCopiesAccount(e: UserEntity)
    ensures CopiesAccount(ToPlainObject(FromEntity(e)), e)
  {
  }

  /**
   * Loading a row and flattening it gives exactly the row's eight
   * non-secret columns, copied unchanged; the password never appears.
   */
  lemma PlainObjectOfEntity(e: UserEntity)
    ensures CopiesRow(ToPlainObject(FromEntity(e)), e)
    ensures ToPlainObject(FromEntity(e)).Keys
            == {"id", "name", "lastName", "email", "phone", "userName", "idRole", "idStatus"}
    ensures "password" !in ToPlainObject(FromEntity(e))
  {
    PlainCopiesIdentity(e);
    PlainCopiesAccount(e);
    PlainObjectKeys(FromEntity(e));
  }

  /** Reads a plain user object back into a model, when it has that shape. */
  function FromPlainObject(m: map<string, Value>): Option<User> {
    if && "id" in m && m["id"].Num?
       && "name" in m && m["name"].Str?
       && "lastName" in m && m["lastName"].Str?
       && "email" in m && m["email"].Str?
       && "phone" in m && (m["phone"].Null? || m["phone"].Str?)
       && "userName" in m && m["userName"].Str?
       && "idRole" in m && m["idRole"].Num?
       && "idStatus" in m && m["idStatus"].Num?
    then
      Some(User(m["id"].n, m["name"].s, m["lastName"].s, m["email"].s,
                if m["phone"].Null? then None else Some(m["phone"].s),
                m["userName"].s, m["idRole"].n, m["idStatus"].n))
    else
      None
  }

  /** `toPlainObject()` keeps every field of the model. */
  lemma PlainObjectRoundTrip(u: User)
    ensures FromPlainObject(ToPlainObject(u)) == Some(u)
  {
  }

  /** The status and role predicates read the same fields the plain object exposes. */
  lemma PredicatesReadPlainObject(u: User, roleId: int)
    ensures IsActive(u) <==> ToPlainObject(u)["idStatus"] == Num(ACTIVE_STATUS)
    ensures HasRole(u, roleId) <==> ToPlainObject(u)["idRole"] == Num(roleId)
  {
  }

  /** The user's e-mail check is the anchored pattern `^[^\s@]+@[^\s@]+\.[^\s@]+$`. */
  lemma EmailRuleIsPattern(u: User)
    ensures HasValidEmail(u) <==> Validation.MatchesEmailPattern(u.email)
  {
    Validation.EmailCheckMatchesPattern(u.email);
  }
}
