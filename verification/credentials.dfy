/**
  The credential store and the two endpoints that use it: `register` inserts
  a password hash under a new username, `login` checks a password against the
  stored hash and issues an access token. The store is an explicit map value
  instead of the process-wide dictionary; the bcrypt hasher is a `Hasher`
  passed in, and its random salt is a parameter.
 */
module Credentials {
  import opened Responses
  import opened Tokens

  type Password = string

  /** A bcrypt hash string; it embeds the salt and the cost factor. */
  type Digest = string

  /** The random salt bcrypt draws for one call of `hash`. */
  type Salt = string

  /** The request body of both endpoints. */
  datatype User = User(username: Username, password: Password)

  /** `pwd_context.hash` (with the salt made explicit) and `pwd_context.verify`. */
  datatype Hasher = Hasher(hash: (Password, Salt) -> Digest, verify: (Password, Digest) -> bool)

  /** The one assumption about the hasher: a password verifies against any hash of itself. */
  ghost predicate HashVerifies(hasher: Hasher)
  {
    forall p, salt :: hasher.verify(p, hasher.hash(p, salt))
  }

  /** Username to password hash; at most one record per username by construction. */
  type Store = map<Username, Digest>

  /** The store after a registration, and the endpoint's answer. */
  datatype Registration = Registration(store: Store, response: Response<string>)

  const RegisteredMessage: string := "User registered successfully"

  /**
    `register`: an existing username is refused with `UserExists` and the
    store is left as it was. Otherwise the store gains exactly the new
    username, mapped to a hash of the password, and every other record is
    unchanged.
   */
  function Register(db: Store, user: User, hasher: Hasher, salt: Salt): (r: Registration)
    ensures r.response.Err? <==> user.username in db
    ensures r.response.Err? ==> r.response.failure == UserExists && r.store == db
    ensures r.response.Ok? ==> r.store.Keys == db.Keys + {user.username}
    ensures r.response.Ok? ==> r.store[user.username] == hasher.hash(user.password, salt)
    ensures forall u :: u in db ==> u in r.store && r.store[u] == db[u]
  {
    if user.username in db then
      Registration(db, Err(UserExists))
    else
      Registration(db[user.username := hasher.hash(user.password, salt)], Ok(RegisteredMessage))
  }

  /**
    `login`: succeeds, with a token issued now for the username, exactly when
    the username has a record and the password verifies against it. An
    unknown user and a wrong password fail with the same `InvalidCredentials`.
   */
  function Login(db: Store, user: User, hasher: Hasher, signer: Signer, now: int): (r: Response<Token>)
    ensures r.Ok? <==> user.username in db && hasher.verify(user.password, db[user.username])
    ensures r.Ok? ==> r.value == CreateAccessToken(signer, user.username, now)
    ensures r.Err? ==> r.failure == InvalidCredentials
  {
    if user.username !in db then
      Err(InvalidCredentials)
    else if !hasher.verify(user.password, db[user.username]) then
      Err(InvalidCredentials)
    else
      Ok(CreateAccessToken(signer, user.username, now))
  }

  /**
    Registering a username that is already taken, with any password and salt,
    fails and keeps the hash stored by the first registration.
   */
  lemma RegisterTwice(db: Store, first: User, second: User, hasher: Hasher, salt1: Salt, salt2: Salt)
    requires first.username == second.username
    requires Register(db, first, hasher, salt1).response.Ok?
    ensures var db1 := Register(db, first, hasher, salt1).store;
            && Register(db1, second, hasher, salt2).response == Err(UserExists)
            && Register(db1, second, hasher, salt2).store[second.username] == hasher.hash(first.password, salt1)
  {
  }

  /**
    The two causes of a failed login cannot be told apart: an unknown username
    and a known one with a wrong password get the identical answer.
   */
  lemma LoginFailuresIndistinguishable(db: Store, unknown: User, wrong: User, hasher: Hasher, signer: Signer, now: int)
    requires unknown.username !in db
    requires wrong.username in db && !hasher.verify(wrong.password, db[wrong.username])
    ensures Login(db, unknown, hasher, signer, now) == Login(db, wrong, hasher, signer, now)
    ensures Login(db, unknown, hasher, signer, now) == Err(InvalidCredentials)
  {
  }

  /**
    The credential round trip: after a successful registration, logging in
    with the same password succeeds, and the token it returns authenticates
    the username at the auth gate for the next 30 minutes and no longer.
   */
  lemma RegisterThenLogin(db: Store, user: User, hasher: Hasher, salt: Salt, signer: Signer, now: int, later: int)
    requires HashVerifies(hasher) && DecodesOwnTokens(signer)
    requires Register(db, user, hasher, salt).response.Ok?
    ensures var login := Login(Register(db, user, hasher, salt).store, user, hasher, signer, now);
            && login.Ok?
            && (later < now + 30 * 60 ==> GetCurrentUser(signer, login.value, later) == Ok(user.username))
            && (later >= now + 30 * 60 ==> GetCurrentUser(signer, login.value, later) == Err(InvalidToken))
  {
  }

  /**
    Registering one username does not change the outcome of logging in as any
    other username: the other records are untouched.
   */
  lemma RegisterKeepsOtherLogins(db: Store, user: User, other: User, hasher: Hasher, salt: Salt, signer: Signer, now: int)
    requires other.username != user.username
    ensures Login(Register(db, other, hasher, salt).store, user, hasher, signer, now) ==
            Login(db, user, hasher, signer, now)
  {
  }
}
