/**
 * Registration, login and the profile lookup of the auth controller, over
 * a store of user accounts. Signing a token is the `sign` parameter and
 * checking a password is the `passwordMatches` parameter: the JWT scheme and
 * the password hashing of the User model are not part of this model.
 */
module Accounts {
  import opened Common
  import opened Http
  import Auth
  import opened UserSchema

  /** The payload `generateToken` signs, with its lifetime in seconds. */
  datatype Claims = Claims(id: Id, role: Role, lifetime: nat)

  /** `expiresIn: '7d'`. */
  const TokenLifetime: nat := 7 * 24 * 60 * 60

  /** `generateToken(userId, role)`: exactly `{ id, role }`, valid for seven days. */
  function GenerateToken(id: Id, role: Role, sign: Claims -> string): string
  {
    sign(Claims(id, role, TokenLifetime))
  }

  /** A stored user. */
  datatype Account = Account(username: string, email: string, password: string, role: Role)

  /** The user object the responses carry: everything but the password. */
  function View(id: Id, a: Account): (v: AccountView)
    ensures v.id == id && v.username == a.username && v.email == a.email && v.role == a.role
  {
    AccountView(id, a.username, a.email, a.role)
  }

  const DuplicateUser := AppError(400, "User with this email or username already exists")
  const BadCredentials := AppError(401, "Invalid email or password")

  class UserStore {
    var accounts: map<Id, Account>

    /** Registration lets no two accounts share an email or a username. */
    ghost predicate Valid()
      reads this
    {
      forall i, j :: i in accounts && j in accounts && i != j ==>
        accounts[i].email != accounts[j].email && accounts[i].username != accounts[j].username
    }

    constructor ()
      ensures Valid() && accounts == map[]
    {
      accounts := map[];
    }

    /** `User.findOne({ $or: [{ email }, { username }] })` finds someone. */
    predicate Clashes(email: string, username: string)
      reads this
    {
      exists id :: id in accounts && (accounts[id].email == email || accounts[id].username == username)
    }

    /**
     * `register`: 400 when the email or the username is already used, and
     * nothing is stored; otherwise one account is added, with role 'user'
     * when none was given, and the answer carries a token signed for the new
     * id and role and the account without its password.
     */
    method Register(input: RegisterInput, newId: Id, sign: Claims -> string) returns (r: Result<Payload>)
      requires Valid()
      requires newId !in accounts
      modifies this
      ensures Valid()
      ensures r.Err? <==> old(Clashes(input.email, input.username))
      ensures r.Err? ==> r.fault == DuplicateUser && accounts == old(accounts)
      ensures r.Ok? ==>
        var a := Account(input.username, input.email, input.password, input.role.GetOr(User));
        accounts == old(accounts)[newId := a] &&
        r.value == Session("User registered successfully", GenerateToken(newId, a.role, sign), View(newId, a))
    {
      if Clashes(input.email, input.username) {
        return Err(DuplicateUser);
      }
      var a := Account(input.username, input.email, input.password, input.role.GetOr(User));
      accounts := accounts[newId := a];
      r := Ok(Session("User registered successfully", GenerateToken(newId, a.role, sign), View(newId, a)));
    }

    /**
     * `login`: an unknown email and a wrong password give the same 401, so
     * the answer does not tell which it was; otherwise a token for the
     * stored id and role.
     */
    method Login(input: LoginInput, passwordMatches: (Account, string) -> bool, sign: Claims -> string)
      returns (r: Result<Payload>)
      requires Valid()
      ensures (forall id :: id in accounts ==> accounts[id].email != input.email) ==> r == Err(BadCredentials)
      ensures forall id :: id in accounts && accounts[id].email == input.email ==>
        r == if passwordMatches(accounts[id], input.password) then Ok(LoginSession(id, accounts[id], sign))
             else Err(BadCredentials)
    {
      if !(exists id :: id in accounts && accounts[id].email == input.email) {
        return Err(BadCredentials);
      }
      var id :| id in accounts && accounts[id].email == input.email;
      if !passwordMatches(accounts[id], input.password) {
        return Err(BadCredentials);
      }
      r := Ok(LoginSession(id, accounts[id], sign));
    }

    /** `getProfile`: 401 without a user on the request, 404 when the account is gone. */
    method GetProfile(user: Option<Principal>) returns (r: Result<Payload>)
      ensures user.None? ==> r == Err(AppError(401, "Authentication required"))
      ensures user.Some? && user.value.id !in accounts ==> r == Err(AppError(404, "User not found"))
      ensures user.Some? && user.value.id in accounts ==>
        r == Ok(Profile(View(user.value.id, accounts[user.value.id])))
    {
      if user.None? {
        return Err(AppError(401, "Authentication required"));
      }
      if user.value.id !in accounts {
        return Err(AppError(404, "User not found"));
      }
      r := Ok(Profile(View(user.value.id, accounts[user.value.id])));
    }
  }

  /** The login answer for the account found: a token for its stored id and role. */
  function LoginSession(id: Id, a: Account, sign: Claims -> string): (p: Payload)
    ensures p.Session? && p.note == "Login successful" && p.token == sign(Claims(id, a.role, TokenLifetime))
    ensures p.account == View(id, a)
  {
    Session("Login successful", GenerateToken(id, a.role, sign), View(id, a))
  }

  /** The three handlers of the auth controller. */
  datatype AuthAction = SignUp | LogIn | ReadProfile

  /**
   * The answer of an auth handler: the payload with the handler's success
   * status (201 for `register`, 200 for `login` and `getProfile`), or the
   * error passed to `next` as the final error handler renders it.
   */
  function AuthAnswer(action: AuthAction, r: Result<Payload>): (resp: Response)
    ensures r.Ok? && action == SignUp ==> resp == Response(201, Data(r.value))
    ensures r.Ok? && action != SignUp ==> resp == Response(200, Data(r.value))
    ensures r.Err? ==> resp == ErrorBoundary(r.fault)
  {
    match r
    case Ok(p) => Response(if action == SignUp then 201 else 200, Data(p))
    case Err(f) => ErrorBoundary(f)
  }

  /** A duplicate registration is answered 400, not 409. */
  lemma DuplicateRegistrationIsBadRequest()
    ensures AuthAnswer(SignUp, Err(DuplicateUser)) == Response(400, ErrorReport(400, "User with this email or username already exists"))
  {
  }

  /**
   * A token this API issued opens the gate for the same id and role: given a
   * `verify` that accepts what `sign` produced and a token without spaces,
   * `authenticate` attaches exactly the principal the token was issued for.
   */
  lemma IssuedTokenAuthenticates(id: Id, role: Role, sign: Claims -> string, verify: string -> Auth.Verdict, s: RequestState)
    requires ' ' !in GenerateToken(id, role, sign)
    requires verify(GenerateToken(id, role, sign)) == Auth.Decoded(id, role)
    requires s.authorization == Some(Auth.BearerPrefix + GenerateToken(id, role, sign))
    ensures Auth.Authenticate(s, verify) == Continue(s.(user := Some(Principal(id, role))))
  {
    Auth.BearerTokenOfSpaceFree(GenerateToken(id, role, sign));
  }
}
