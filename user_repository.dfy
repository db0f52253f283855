/** The users table and UserRepository (app/repositories/user_repository.py,
    app/models/user.py), with the registration body of app/schemas/user.py.
    Email is a unique column, so a lookup by email finds at most one row. */
module UserRepository {
  import opened Wrappers
  import opened Http
  import ModelRepository

  /** UserRole, a string enum stored by value. */
  datatype UserRole = RegularUser | Admin

  function RoleValue(r: UserRole): string
  {
    match r
    case RegularUser => "user"
    case Admin => "admin"
  }

  function ParseRole(s: string): Option<UserRole>
  {
    if s == "user" then Some(RegularUser)
    else if s == "admin" then Some(Admin)
    else None
  }

  /** Parsing accepts exactly the two stored values, each naming its role. */
  lemma RoleValues(r: UserRole, s: string)
    ensures ParseRole(RoleValue(r)) == Some(r)
    ensures ParseRole(s).Some? <==> s in {"user", "admin"}
    ensures ParseRole(s).Some? ==> RoleValue(ParseRole(s).value) == s
  {
  }

  /** Column default of users.role and field default of UserCreate.role. */
  const DefaultRole: UserRole := RegularUser

  const MinPasswordLength := 8

  /** The registration body: email, plain password, role. */
  datatype UserCreate = UserCreate(email: string, password: string, role: UserRole)

  /** Body validation: a password of at least eight characters and, when given,
      a role that names one; the role defaults to "user". */
  function ParseUserCreate(email: string, password: string, role: Option<string>): (r: Result<UserCreate, HttpError>)
    ensures r.Success? <==> |password| >= MinPasswordLength && (role.None? || ParseRole(role.value).Some?)
    ensures r.Success? ==> r.value.email == email && r.value.password == password
    ensures r.Success? ==> r.value.role == (if role.None? then RegularUser else ParseRole(role.value).value)
    ensures r.Failure? ==> r.error.Unprocessable?
  {
    if |password| < MinPasswordLength then Failure(Unprocessable("password"))
    else if role.None? then Success(UserCreate(email, password, DefaultRole))
    else match ParseRole(role.value)
      case None => Failure(Unprocessable("role"))
      case Some(parsed) => Success(UserCreate(email, password, parsed))
  }

  datatype User = User(id: int, email: string, passwordHash: string, role: UserRole)

  /** The users table keyed by id, with the next value of its id sequence. */
  datatype UserRows = UserRows(users: map<int, User>, nextId: int)

  predicate EmailsUnique(users: map<int, User>)
  {
    forall a, b :: a in users && b in users && a != b ==> users[a].email != users[b].email
  }

  /** What the database enforces: the primary key matches the row, ids come
      from the sequence, and email is unique. */
  predicate UsersWellFormed(t: UserRows)
  {
    && (forall id :: id in t.users ==> t.users[id].id == id && id < t.nextId)
    && EmailsUnique(t.users)
  }

  predicate EmailTaken(users: map<int, User>, email: string)
  {
    exists id :: id in users && users[id].email == email
  }

  /** The row whose email is exactly `email`, if there is one. */
  ghost function UserWithEmail(users: map<int, User>, email: string): (r: Option<User>)
    ensures r.None? <==> !EmailTaken(users, email)
    ensures r.Some? ==> r.value in users.Values && r.value.email == email
  {
    if EmailTaken(users, email) then
      var id :| id in users && users[id].email == email;
      Some(users[id])
    else None
  }

  /** With unique emails the lookup finds the one row that has it. */
  lemma EmailLookupUnique(users: map<int, User>, email: string, id: int)
    requires EmailsUnique(users)
    requires id in users && users[id].email == email
    ensures UserWithEmail(users, email) == Some(users[id])
  {
    var found := UserWithEmail(users, email).value;
    var other :| other in users && users[other] == found;
    assert users[other].email == users[id].email;
  }

  /** create: a row with the given email, password hash and role at the next
      id; an email already in the table breaks the unique constraint. */
  function InsertUser(t: UserRows, data: UserCreate, passwordHash: string): (Result<User, ModelRepository.DbError>, UserRows)
  {
    if EmailTaken(t.users, data.email) then (Failure(ModelRepository.IntegrityError("users.email")), t)
    else
      var u := User(t.nextId, data.email, passwordHash, data.role);
      (Success(u), UserRows(t.users[u.id := u], t.nextId + 1))
  }

  /** update: commits a row changed in place; the new email must not belong to another row. */
  function ReplaceUser(t: UserRows, u: User): (Result<User, ModelRepository.DbError>, UserRows)
  {
    if exists id :: id in t.users && id != u.id && t.users[id].email == u.email then
      (Failure(ModelRepository.IntegrityError("users.email")), t)
    else (Success(u), t.(users := t.users[u.id := u]))
  }

  /** create stores exactly the given email, hash and role under a fresh id,
      keeps the table well formed, and get_by_email then finds the new row;
      a taken email changes nothing. */
  lemma InsertUserEffect(t: UserRows, data: UserCreate, passwordHash: string)
    requires UsersWellFormed(t)
    ensures var (r, t') := InsertUser(t, data, passwordHash);
      && UsersWellFormed(t')
      && (r.Success? <==> !EmailTaken(t.users, data.email))
      && (r.Failure? ==> t' == t)
      && (r.Success? ==>
            && r.value == User(t.nextId, data.email, passwordHash, data.role)
            && t.nextId !in t.users
            && t'.users == t.users[t.nextId := r.value]
            && UserWithEmail(t'.users, data.email) == Some(r.value))
  {
    var (r, t') := InsertUser(t, data, passwordHash);
    if r.Success? {
      var u := r.value;
      forall a, b | a in t'.users && b in t'.users && a != b
        ensures t'.users[a].email != t'.users[b].email
      {
        if a == u.id {
          assert t'.users[b] == t.users[b];
        } else if b == u.id {
          assert t'.users[a] == t.users[a];
        }
      }
      EmailLookupUnique(t'.users, data.email, u.id);
    }
  }

  /** update keeps the table well formed, changes only the given row, and
      refuses an email another row holds. */
  lemma ReplaceUserEffect(t: UserRows, u: User)
    requires UsersWellFormed(t) && u.id in t.users
    ensures var (r, t') := ReplaceUser(t, u);
      && UsersWellFormed(t')
      && t'.nextId == t.nextId
      && (r.Success? <==> forall id :: id in t.users && id != u.id ==> t.users[id].email != u.email)
      && (r.Success? ==> t'.users == t.users[u.id := u] && t'.users.Keys == t.users.Keys)
      && (r.Failure? ==> t' == t)
  {
    var (r, t') := ReplaceUser(t, u);
    if r.Success? {
      forall a, b | a in t'.users && b in t'.users && a != b
        ensures t'.users[a].email != t'.users[b].email
      {
        if a == u.id {
          assert t'.users[b] == t.users[b];
        } else if b == u.id {
          assert t'.users[a] == t.users[a];
        }
      }
    }
  }

  class UserDatabase {
    var users: map<int, User>
    var nextId: int

    function Rows(): UserRows
      reads this
    {
      UserRows(users, nextId)
    }

    ghost predicate Valid()
      reads this
    {
      UsersWellFormed(Rows())
    }

    /** An empty table; the id sequence starts at 1. */
    constructor ()
      ensures Valid()
      ensures users == map[] && nextId == 1
    {
      users, nextId := map[], 1;
    }

    /** get_by_id: the row with exactly this id, or none. */
    method GetById(userId: int) returns (u: Option<User>)
      ensures u.Some? <==> userId in users
      ensures u.Some? ==> u.value == users[userId]
      ensures Valid() && u.Some? ==> u.value.id == userId
    {
      u := if userId in users then Some(users[userId]) else None;
    }

    /** get_by_email: the row with exactly this email, or none. */
    method GetByEmail(email: string) returns (u: Option<User>)
      requires Valid()
      ensures u == UserWithEmail(users, email)
      ensures u.None? <==> forall id :: id in users ==> users[id].email != email
      ensures u.Some? ==> u.value in users.Values && u.value.email == email
    {
      if id :| id in users && users[id].email == email {
        EmailLookupUnique(users, email, id);
        u := Some(users[id]);
      } else {
        u := None;
      }
    }

    method Create(data: UserCreate, passwordHash: string) returns (r: Result<User, ModelRepository.DbError>)
      requires Valid()
      modifies this
      ensures Valid()
      ensures (r, Rows()) == InsertUser(old(Rows()), data, passwordHash)
    {
      InsertUserEffect(Rows(), data, passwordHash);
      if exists id :: id in users && users[id].email == data.email {
        return Failure(ModelRepository.IntegrityError("users.email"));
      }
      var u := User(nextId, data.email, passwordHash, data.role);
      users := users[u.id := u];
      nextId := nextId + 1;
      r := Success(u);
    }

    method Update(u: User) returns (r: Result<User, ModelRepository.DbError>)
      requires Valid() && u.id in users
      modifies this
      ensures Valid()
      ensures (r, Rows()) == ReplaceUser(old(Rows()), u)
    {
      ReplaceUserEffect(Rows(), u);
      if exists id :: id in users && id != u.id && users[id].email == u.email {
        return Failure(ModelRepository.IntegrityError("users.email"));
      }
      users := users[u.id := u];
      r := Success(u);
    }
  }
}
