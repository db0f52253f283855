/** UserService (app/services/user_service.py): registration, password
    authentication, lookups, and the claims of the access token.

    Password hashing, password verification and token signing are calls into
    a security library; they are parameters here: `hash` maps a password to
    its stored credential, `verify(password, credential)` checks one, and
    `encode` signs a claims map into a token. */
module Users {
  import opened Wrappers
  import opened Http
  import opened Text
  import RegistryService
  import opened UserRepository

  const EmailAlreadyRegistered := BadRequest("Email already registered")

  /** UserResponse: what the API shows of a user, never the password hash. */
  datatype UserResponse = UserResponse(id: int, email: string, role: UserRole)

  function Response(u: User): UserResponse
  {
    UserResponse(u.id, u.email, u.role)
  }

  /** create_user: a taken email is refused with 400; otherwise the row is
      created with hash(password) as its credential. */
  ghost function RegisterSpec(t: UserRows, data: UserCreate, hash: string -> string): (Result<UserResponse, HttpError>, UserRows)
  {
    if UserWithEmail(t.users, data.email).Some? then (Failure(EmailAlreadyRegistered), t)
    else
      var (created, t') := InsertUser(t, data, hash(data.password));
      match created
      case Success(u) => (Success(Response(u)), t')
      case Failure(_) => (Failure(RegistryService.ServerError), t')
  }

  /** authenticate_user: the user with this email, provided the password verifies. */
  ghost function AuthenticateSpec(t: UserRows, email: string, password: string, verify: (string, string) -> bool): Option<UserResponse>
  {
    match UserWithEmail(t.users, email)
    case None => None
    case Some(u) => if verify(password, u.passwordHash) then Some(Response(u)) else None
  }

  /** The access token's claims: `sub` is the id as text, `email` the email. */
  function TokenClaims(user: UserResponse): map<string, string>
  {
    map["sub" := IntToString(user.id), "email" := user.email]
  }

  /** Registering a taken email answers 400 "Email already registered" and
      adds no user. */
  lemma RegisterRejectsTakenEmail(t: UserRows, data: UserCreate, hash: string -> string, id: int)
    requires id in t.users && t.users[id].email == data.email
    ensures RegisterSpec(t, data, hash) == (Failure(EmailAlreadyRegistered), t)
    ensures EmailAlreadyRegistered.StatusCode() == 400
  {
  }

  /** Registering a free email succeeds: the new row, at the next id, holds
      the email, the role and hash(password) as its credential; get_by_email
      then finds it, and the answer shows it without the credential. */
  lemma RegisterStoresHash(t: UserRows, data: UserCreate, hash: string -> string)
    requires UsersWellFormed(t)
    requires forall id :: id in t.users ==> t.users[id].email != data.email
    ensures var (r, t') := RegisterSpec(t, data, hash);
      && r == Success(UserResponse(t.nextId, data.email, data.role))
      && UsersWellFormed(t')
      && t'.users == t.users[t.nextId := User(t.nextId, data.email, hash(data.password), data.role)]
      && UserWithEmail(t'.users, data.email) == Some(User(t.nextId, data.email, hash(data.password), data.role))
  {
    InsertUserEffect(t, data, hash(data.password));
  }

  /** Registration keeps the users table well formed in every case. */
  lemma RegisterKeepsWellFormed(t: UserRows, data: UserCreate, hash: string -> string)
    requires UsersWellFormed(t)
    ensures UsersWellFormed(RegisterSpec(t, data, hash).1)
    ensures RegisterSpec(t, data, hash).0.Success? <==> !EmailTaken(t.users, data.email)
  {
    InsertUserEffect(t, data, hash(data.password));
  }

  /** authenticate_user answers None for an unknown email and for a password
      that does not verify, and the user otherwise. */
  lemma AuthenticateOutcome(t: UserRows, email: string, password: string, verify: (string, string) -> bool)
    requires UsersWellFormed(t)
    ensures !EmailTaken(t.users, email) ==> AuthenticateSpec(t, email, password, verify) == None
    ensures forall id :: id in t.users && t.users[id].email == email ==>
      AuthenticateSpec(t, email, password, verify) ==
        if verify(password, t.users[id].passwordHash) then Some(Response(t.users[id])) else None
  {
    forall id | id in t.users && t.users[id].email == email
      ensures AuthenticateSpec(t, email, password, verify) ==
        if verify(password, t.users[id].passwordHash) then Some(Response(t.users[id])) else None
    {
      EmailLookupUnique(t.users, email, id);
    }
  }

  /** After registering, the same email and password authenticate as the new
      user whenever the verifier accepts a password against its own hash, and
      a password the verifier rejects does not. */
  lemma RegisterThenAuthenticate(t: UserRows, data: UserCreate, hash: string -> string,
                                 verify: (string, string) -> bool, password: string)
    requires UsersWellFormed(t)
    requires !EmailTaken(t.users, data.email)
    ensures var (r, t') := RegisterSpec(t, data, hash);
      && (verify(data.password, hash(data.password)) ==> AuthenticateSpec(t', data.email, data.password, verify) == Some(r.value))
      && (!verify(password, hash(data.password)) ==> AuthenticateSpec(t', data.email, password, verify) == None)
  {
    RegisterStoresHash(t, data, hash);
  }

  /** The claims hold exactly `sub` and `email`, and they identify the user:
      two users with the same claims have the same id and email. */
  lemma TokenClaimsIdentify(a: UserResponse, b: UserResponse)
    ensures TokenClaims(a).Keys == {"sub", "email"}
    ensures TokenClaims(a)["sub"] == IntToString(a.id) && TokenClaims(a)["email"] == a.email
    ensures TokenClaims(a) == TokenClaims(b) ==> a.id == b.id && a.email == b.email
  {
    if TokenClaims(a) == TokenClaims(b) {
      assert TokenClaims(a)["sub"] == TokenClaims(b)["sub"];
      IntToStringInjective(a.id, b.id);
    }
  }

  class UserService {
    const db: UserDatabase

    constructor (db: UserDatabase)
      ensures this.db == db
    {
      this.db := db;
    }

    method CreateUser(data: UserCreate, hash: string -> string) returns (r: Result<UserResponse, HttpError>)
      requires db.Valid()
      modifies db
      ensures db.Valid()
      ensures (r, db.Rows()) == RegisterSpec(old(db.Rows()), data, hash)
    {
      RegisterKeepsWellFormed(db.Rows(), data, hash);
      var existing := db.GetByEmail(data.email);
      if existing.Some? {
        return Failure(EmailAlreadyRegistered);
      }
      var passwordHash := hash(data.password);
      var created := db.Create(data, passwordHash);
      if created.Failure? {
        return Failure(RegistryService.ServerError);
      }
      r := Success(Response(created.value));
    }

    method AuthenticateUser(email: string, password: string, verify: (string, string) -> bool) returns (r: Option<UserResponse>)
      requires db.Valid()
      ensures r == AuthenticateSpec(db.Rows(), email, password, verify)
    {
      var user := db.GetByEmail(email);
      if user.None? {
        return None;
      }
      if !verify(password, user.value.passwordHash) {
        return None;
      }
      r := Some(Response(user.value));
    }

    /** get_user_by_id: the user with this id, or None. */
    method GetUserById(userId: int) returns (r: Option<UserResponse>)
      requires db.Valid()
      ensures r.None? <==> userId !in db.users
      ensures r.Some? ==> r.value.id == userId && r.value == Response(db.users[userId])
    {
      var user := db.GetById(userId);
      if user.None? {
        return None;
      }
      r := Some(Response(user.value));
    }

    /** get_user_by_email: the user with this email, or None. */
    method GetUserByEmail(email: string) returns (r: Option<UserResponse>)
      requires db.Valid()
      ensures r.None? <==> !EmailTaken(db.users, email)
      ensures r.Some? ==> r.value.email == email && exists id :: id in db.users && r.value == Response(db.users[id])
    {
      var user := db.GetByEmail(email);
      if user.None? {
        return None;
      }
      r := Some(Response(user.value));
    }

    /** create_access_token_for_user: the signed claims. */
    method CreateAccessTokenForUser(user: UserResponse, encode: map<string, string> -> string) returns (token: string)
      ensures token == encode(TokenClaims(user))
    {
      token := encode(map["sub" := IntToString(user.id), "email" := user.email]);
    }
  }
}
