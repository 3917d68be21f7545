/**
 * The identity service's `/auth` routes (services/rest-api/routes/auth.js): registration into the
 * in-memory user list and login against it. Fresh ids and timestamps are inputs; signing is the
 * abstract `Signer` of the token library.
 */
module AuthRoutes {
  import opened Wrappers
  import opened Lists
  import opened Jwt

  /** A stored account; passwords are kept as given. */
  datatype User = User(
    id: string,
    name: string,
    email: string,
    age: int,
    password: string,
    role: string,
    createdAt: string,
    updatedAt: string)

  /** The body of `POST /auth/register`, as it leaves the validation middleware. */
  datatype RegisterBody = RegisterBody(name: string, email: string, age: int, password: string)

  /** What a registration reveals about the new account. */
  datatype PublicUser = PublicUser(id: string, name: string, email: string)

  datatype AuthResponse =
    | UserCreated(message: string, user: PublicUser)    // 201
    | LoginSucceeded(message: string, token: Token)     // 200
    | AuthError(status: int, error: string)

  const ROLE_USER: string := "user"
  const EMAIL_EXISTS: string := "Email already exists"
  const INVALID_CREDENTIALS: string := "Invalid credentials"
  const SIGN_FAILED: string := "Internal server error while signing token."
  const USER_CREATED: string := "User created successfully"
  const LOGIN_SUCCESSFUL: string := "Login successful"

  /** Tokens are signed with RS256 and expire after one hour. */
  const LOGIN_SIGN_OPTIONS: SignOptions := SignOptions(RS256, 3600)

  /** `users.find(u => u.email === email)`, as an index. */
  function FindByEmail(users: seq<User>, email: string): (r: Option<nat>)
    ensures r.Some? ==> r.value < |users| && users[r.value].email == email
    ensures r.Some? ==> forall j :: 0 <= j < r.value ==> users[j].email != email
    ensures r.None? <==> forall j :: 0 <= j < |users| ==> users[j].email != email
  {
    IndexWhere(users, (u: User) => u.email == email)
  }

  /** No two accounts share an email. */
  predicate UniqueEmails(users: seq<User>) {
    forall i, j :: 0 <= i < j < |users| ==> users[i].email != users[j].email
  }

  /** The account the service starts with. */
  function SeedUsers(now: string): (users: seq<User>)
    ensures UniqueEmails(users)
  {
    [User("1", "John Doe", "john@example.com", 30, "password123", "admin", now, now)]
  }

  /** The claims a login token carries: the account's id, email, name and role. */
  function PayloadOf(user: User): Payload {
    Payload(user.id, user.email, user.name, user.role)
  }

  /**
   * `POST /auth/login`: an unknown email and a wrong password get the same 401 answer; a match
   * gets a token over the account's payload, signed with RS256 for one hour; a signing failure
   * gets 500.
   */
  function Login(users: seq<User>, email: string, password: string, sign: Signer): (r: AuthResponse)
    ensures r.LoginSucceeded? || r.AuthError?
    ensures r.AuthError? ==> r == AuthError(401, INVALID_CREDENTIALS) || r == AuthError(500, SIGN_FAILED)
    ensures r == AuthError(401, INVALID_CREDENTIALS) <==>
      FindByEmail(users, email).None? || users[FindByEmail(users, email).value].password != password
    ensures r.LoginSucceeded? ==>
      var user := users[FindByEmail(users, email).value];
      && user.email == email && user.password == password
      && sign(PayloadOf(user), LOGIN_SIGN_OPTIONS) == Some(r.token)
      && r.message == LOGIN_SUCCESSFUL
    ensures FindByEmail(users, email).Some? && users[FindByEmail(users, email).value].password == password ==>
      var token := sign(PayloadOf(users[FindByEmail(users, email).value]), LOGIN_SIGN_OPTIONS);
      && (token.Some? ==> r == LoginSucceeded(LOGIN_SUCCESSFUL, token.value))
      && (token.None? ==> r == AuthError(500, SIGN_FAILED))
  {
    match FindByEmail(users, email)
    case None => AuthError(401, INVALID_CREDENTIALS)
    case Some(i) =>
      if password != users[i].password then AuthError(401, INVALID_CREDENTIALS)
      else
        match sign(PayloadOf(users[i]), LOGIN_SIGN_OPTIONS)
        case None => AuthError(500, SIGN_FAILED)
        case Some(token) => LoginSucceeded(LOGIN_SUCCESSFUL, token)
  }

  /** With unique emails, login succeeds only for the one account holding that email and password. */
  lemma LoginMatchesUniqueAccount(users: seq<User>, email: string, password: string, sign: Signer, k: nat)
    requires UniqueEmails(users) && k < |users| && users[k].email == email
    ensures Login(users, email, password, sign).LoginSucceeded? ==> users[k].password == password
    ensures Login(users, email, password, sign).LoginSucceeded? ==>
      sign(PayloadOf(users[k]), LOGIN_SIGN_OPTIONS) == Some(Login(users, email, password, sign).token)
  {
    var i := FindByEmail(users, email).value;
    assert i == k by {
      assert !(i < k) && !(k < i);
    }
  }

  /** Registering an email nobody holds keeps the emails unique. */
  lemma {:induction false} RegisterKeepsEmailsUnique(users: seq<User>, u: User)
    requires UniqueEmails(users) && FindByEmail(users, u.email).None?
    ensures UniqueEmails(users + [u])
  {
    var extended := users + [u];
    forall i, j | 0 <= i < j < |extended|
      ensures extended[i].email != extended[j].email
    {
      if j == |users| {
        assert extended[i] == users[i];
      } else {
        assert extended[i] == users[i] && extended[j] == users[j];
      }
    }
  }

  /** The identity service's account list. */
  class UserStore {
    var users: seq<User>

    constructor (now: string)
      ensures users == SeedUsers(now)
    {
      users := SeedUsers(now);
    }

    /**
     * `POST /auth/register`: a taken email gets 409 and changes nothing; otherwise exactly one
     * account with role 'user' and the body's fields is appended, and only its id, name and email
     * are returned. Unique emails stay unique.
     */
    method Register(body: RegisterBody, newId: string, now: string) returns (r: AuthResponse)
      modifies this
      ensures FindByEmail(old(users), body.email).Some? ==>
        r == AuthError(409, EMAIL_EXISTS) && users == old(users)
      ensures FindByEmail(old(users), body.email).None? ==>
        && users == old(users) + [User(newId, body.name, body.email, body.age, body.password, ROLE_USER, now, now)]
        && r == UserCreated(USER_CREATED, PublicUser(newId, body.name, body.email))
      ensures UniqueEmails(old(users)) ==> UniqueEmails(users)
    {
      if FindByEmail(users, body.email).Some? {
        return AuthError(409, EMAIL_EXISTS);
      }
      var newUser := User(newId, body.name, body.email, body.age, body.password, ROLE_USER, now, now);
      if UniqueEmails(users) {
        RegisterKeepsEmailsUnique(users, newUser);
      }
      users := users + [newUser];
      r := UserCreated(USER_CREATED, PublicUser(newUser.id, newUser.name, newUser.email));
    }
  }
}
