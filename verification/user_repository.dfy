/**
 * The user store as the authentication flow sees it: rows keyed by their
 * (unique) e-mail address, and the credential check that compares a
 * plaintext password against the stored hash.  The hash comparison itself
 * (bcrypt) is a parameter.
 */
module UserRepository {
  import opened JsValues
  import opened UserModel

  type Store = map<string, UserEntity>

  /** `findByEmail(email)`: the model of the row with that address, if any. */
  function FindByEmail(store: Store, email: string): (r: Option<User>)
    ensures r.Some? <==> email in store
    ensures r.Some? ==> r.value == FromEntity(store[email])
  {
    if email in store then Some(FromEntity(store[email])) else None
  }

  /**
   * `validateCredentials(email, password)`: no row and a hash mismatch both
   * give `null`; `matches(plain, hash)` stands for `bcrypt.compare`.
   */
  function ValidateCredentials(store: Store, email: string, password: string,
                               matches: (string, string) -> bool): (r: Option<User>)
    ensures r.Some? <==> email in store && matches(password, store[email].password)
    ensures r.Some? ==> r.value == FromEntity(store[email])
  {
    if email !in store then None
    else if !matches(password, store[email].password) then None
    else Some(FromEntity(store[email]))
  }
}
