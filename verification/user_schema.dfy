/**
 * The account schemas: registration (with the role defaulting to 'user')
 * and login.
 */
module UserSchema {
  import opened Common
  import opened Zod

  /** `registerSchema`; username and password carry no `required_error`, so a missing one reads "Required". */
  const RegisterSchema: ObjectSchema := [
    Field("username", Text(UsernameChecks), None, false, None),
    Field("email", Text([EmailFormat("Please provide a valid email address")]), None, false, None),
    Field("password", Text(PasswordChecks), None, false, None),
    Field("role", Enum(["user", "admin"]), None, true, Some(Str("user")))
  ]

  const UsernameChecks: seq<StringCheck> := [MinLength(3, "Username must be at least 3 characters long"),
                                             MaxLength(50, "Username must be less than 50 characters")]

  const PasswordChecks: seq<StringCheck> := [MinLength(6, "Password must be at least 6 characters long"),
                                             MaxLength(100, "Password must be less than 100 characters")]

  /** `loginSchema`. */
  const LoginSchema: ObjectSchema := [
    Field("email", Text([EmailFormat("Please provide a valid email address")]), None, false, None),
    Field("password", Text([MinLength(1, "Password is required")]), None, false, None)
  ]

  predicate GoodUsername(v: Json) { v.Str? && 3 <= |v.s| <= 50 }

  predicate GoodEmail(v: Json, isEmail: string -> bool) { v.Str? && isEmail(v.s) }

  predicate GoodPassword(v: Json) { v.Str? && 6 <= |v.s| <= 100 }

  predicate GoodRole(v: Json) { v == Str("user") || v == Str("admin") }

  predicate GoodLoginPassword(v: Json) { v.Str? && |v.s| >= 1 }

  /** What each field of the account schemas demands of a value, unfolded. */
  lemma CheckFacts(v: Json, isEmail: string -> bool)
    ensures Conforms(RegisterSchema[0].kind, v, isEmail) <==> GoodUsername(v)
    ensures Conforms(RegisterSchema[1].kind, v, isEmail) <==> GoodEmail(v, isEmail)
    ensures Conforms(RegisterSchema[2].kind, v, isEmail) <==> GoodPassword(v)
    ensures Conforms(RegisterSchema[3].kind, v, isEmail) <==> GoodRole(v)
    ensures Conforms(LoginSchema[0].kind, v, isEmail) <==> GoodEmail(v, isEmail)
    ensures Conforms(LoginSchema[1].kind, v, isEmail) <==> GoodLoginPassword(v)
  {
    if v.Str? {
      TwoStringChecks(v.s, UsernameChecks[0], UsernameChecks[1], isEmail);
      OneStringCheck(v.s, EmailFormat("Please provide a valid email address"), isEmail);
      TwoStringChecks(v.s, PasswordChecks[0], PasswordChecks[1], isEmail);
      OneStringCheck(v.s, MinLength(1, "Password is required"), isEmail);
    }
  }

  /** The role the parsed registration carries: the one sent, else 'user'. */
  function RoleOrDefault(b: map<string, Json>): Json
  {
    if "role" in b then b["role"] else Str("user")
  }

  /** What each registration field demands, field by field. */
  lemma RegisterFieldFacts(b: map<string, Json>, isEmail: string -> bool)
    ensures FieldAccepts(RegisterSchema[0], b, isEmail) <==> "username" in b && GoodUsername(b["username"])
    ensures FieldAccepts(RegisterSchema[1], b, isEmail) <==> "email" in b && GoodEmail(b["email"], isEmail)
    ensures FieldAccepts(RegisterSchema[2], b, isEmail) <==> "password" in b && GoodPassword(b["password"])
    ensures FieldAccepts(RegisterSchema[3], b, isEmail) <==> ("role" in b ==> GoodRole(b["role"]))
  {
    if "username" in b { CheckFacts(b["username"], isEmail); }
    if "email" in b { CheckFacts(b["email"], isEmail); }
    if "password" in b { CheckFacts(b["password"], isEmail); }
    if "role" in b { CheckFacts(b["role"], isEmail); } else { CheckFacts(Str("user"), isEmail); }
  }

  /**
   * A registration is accepted exactly when the username has 3 to 50
   * characters (both ends included), the email passes the email predicate,
   * the password has 6 to 100 characters and the role, if sent, is 'user'
   * or 'admin'. The parsed data has those four keys, the role filled in
   * with 'user' when it was left out.
   */
  lemma RegisterMeaning(body: Json, isEmail: string -> bool)
    ensures var r := SafeParse(RegisterSchema, body, isEmail);
      r.Accepted? <==>
        body.Obj? &&
        "username" in body.fields && GoodUsername(body.fields["username"]) &&
        "email" in body.fields && GoodEmail(body.fields["email"], isEmail) &&
        "password" in body.fields && GoodPassword(body.fields["password"]) &&
        ("role" in body.fields ==> GoodRole(body.fields["role"]))
    ensures var r := SafeParse(RegisterSchema, body, isEmail);
      r.Accepted? ==>
        r.data == map["username" := body.fields["username"], "email" := body.fields["email"],
                      "password" := body.fields["password"], "role" := RoleOrDefault(body.fields)]
  {
    AcceptsFour(RegisterSchema, body, isEmail);
    if body.Obj? {
      RegisterFieldFacts(body.fields, isEmail);
      if SafeParse(RegisterSchema, body, isEmail).Accepted? {
        RegisterData(body, isEmail);
      }
    }
  }

  lemma RegisterData(body: Json, isEmail: string -> bool)
    requires body.Obj? && "username" in body.fields && "email" in body.fields && "password" in body.fields
    requires SafeParse(RegisterSchema, body, isEmail).Accepted?
    ensures SafeParse(RegisterSchema, body, isEmail).data ==
      map["username" := body.fields["username"], "email" := body.fields["email"],
          "password" := body.fields["password"], "role" := RoleOrDefault(body.fields)]
  {
    var s := RegisterSchema;
    var b := body.fields;
    assert s[0].key == "username" && s[1].key == "email" && s[2].key == "password" && s[3].key == "role";
    assert DistinctKeys(s);
    assert FieldValue(s[0], b) == Some(b["username"]) && FieldValue(s[1], b) == Some(b["email"]);
    assert FieldValue(s[2], b) == Some(b["password"]) && FieldValue(s[3], b) == Some(RoleOrDefault(b));
    DataFour(s, body, isEmail);
  }

  /** A registration body with the given username, email and password and no role. */
  function RegistrationBody(username: string, email: string, password: string): Json
  {
    Obj(map["username" := Str(username), "email" := Str(email), "password" := Str(password)])
  }

  lemma RegistrationBodyHolds(username: string, email: string, password: string)
    ensures var b := RegistrationBody(username, email, password).fields;
      "username" in b && b["username"] == Str(username) && "email" in b && b["email"] == Str(email) &&
      "password" in b && b["password"] == Str(password) && "role" !in b
  {
  }

  /**
   * The issues of a registration whose email and password are valid: only
   * the username's, at the username's key.
   */
  lemma UsernameIssuesOnly(username: string, email: string, password: string, isEmail: string -> bool)
    requires isEmail(email) && 6 <= |password| <= 100
    ensures var messages := StringFailures(username, UsernameChecks, isEmail);
      messages != [] ==>
      SafeParse(RegisterSchema, RegistrationBody(username, email, password), isEmail) ==
      Rejected(IssuesAt("username", messages))
  {
    var s := RegisterSchema;
    var b := RegistrationBody(username, email, password).fields;
    RegistrationBodyHolds(username, email, password);
    assert s[1].key == "email" && s[2].key == "password" && s[3].key == "role";
    assert s[3].default == Some(Str("user")) && s[0].kind.Text?;
    assert ParseField(s[1], b, isEmail).0 == [] by { CheckFacts(Str(email), isEmail); }
    assert ParseField(s[2], b, isEmail).0 == [] by { CheckFacts(Str(password), isEmail); }
    assert ParseField(s[3], b, isEmail).0 == [] by { CheckFacts(Str("user"), isEmail); }
    IssuesOfFour(s, b, isEmail);
    TextFieldIssues(s[0], b, isEmail, username);
    var messages := StringFailures(username, UsernameChecks, isEmail);
    if messages != [] {
      RejectedWith(s, RegistrationBody(username, email, password), isEmail, IssuesAt("username", messages));
    }
  }

  /**
   * The username bound is inclusive: with a valid email and password, a
   * username of exactly fifty characters is accepted, and one of fifty-one
   * is refused with the single issue "Username must be less than 50
   * characters".
   */
  lemma UsernameBoundIsInclusive(username: string, email: string, password: string, isEmail: string -> bool)
    requires isEmail(email) && 6 <= |password| <= 100
    ensures |username| == 50 ==>
      SafeParse(RegisterSchema, RegistrationBody(username, email, password), isEmail).Accepted?
    ensures |username| == 51 ==>
      SafeParse(RegisterSchema, RegistrationBody(username, email, password), isEmail) ==
      Rejected([Issue(Segments(["username"]), "Username must be less than 50 characters")])
  {
    var body := RegistrationBody(username, email, password);
    if |username| == 50 {
      RegisterFieldFacts(body.fields, isEmail);
      AcceptsFour(RegisterSchema, body, isEmail);
    }
    if |username| == 51 {
      TwoStringFailures(username, UsernameChecks[0], UsernameChecks[1], isEmail);
      UsernameIssuesOnly(username, email, password, isEmail);
    }
  }

  /**
   * The issues of a registration whose username and email are valid: only
   * the password's, at the password's key.
   */
  lemma PasswordIssuesOnly(username: string, email: string, password: string, isEmail: string -> bool)
    requires 3 <= |username| <= 50 && isEmail(email)
    ensures var messages := StringFailures(password, PasswordChecks, isEmail);
      messages != [] ==>
      SafeParse(RegisterSchema, RegistrationBody(username, email, password), isEmail) ==
      Rejected(IssuesAt("password", messages))
  {
    var s := RegisterSchema;
    var b := RegistrationBody(username, email, password).fields;
    RegistrationBodyHolds(username, email, password);
    assert s[0].key == "username" && s[1].key == "email" && s[3].key == "role";
    assert s[3].default == Some(Str("user")) && s[2].kind.Text?;
    assert ParseField(s[0], b, isEmail).0 == [] by { CheckFacts(Str(username), isEmail); }
    assert ParseField(s[1], b, isEmail).0 == [] by { CheckFacts(Str(email), isEmail); }
    assert ParseField(s[3], b, isEmail).0 == [] by { CheckFacts(Str("user"), isEmail); }
    IssuesOfFour(s, b, isEmail);
    TextFieldIssues(s[2], b, isEmail, password);
    var messages := StringFailures(password, PasswordChecks, isEmail);
    if messages != [] {
      RejectedWith(s, RegistrationBody(username, email, password), isEmail, IssuesAt("password", messages));
    }
  }

  /**
   * The password bound is inclusive too: with a valid username and email, a
   * password of exactly a hundred characters is accepted, and one of a
   * hundred and one is refused with the single issue "Password must be less
   * than 100 characters".
   */
  lemma PasswordBoundIsInclusive(username: string, email: string, password: string, isEmail: string -> bool)
    requires 3 <= |username| <= 50 && isEmail(email)
    ensures |password| == 100 ==>
      SafeParse(RegisterSchema, RegistrationBody(username, email, password), isEmail).Accepted?
    ensures |password| == 101 ==>
      SafeParse(RegisterSchema, RegistrationBody(username, email, password), isEmail) ==
      Rejected([Issue(Segments(["password"]), "Password must be less than 100 characters")])
  {
    var body := RegistrationBody(username, email, password);
    if |password| == 100 {
      RegisterFieldFacts(body.fields, isEmail);
      AcceptsFour(RegisterSchema, body, isEmail);
    }
    if |password| == 101 {
      TwoStringFailures(password, PasswordChecks[0], PasswordChecks[1], isEmail);
      PasswordIssuesOnly(username, email, password, isEmail);
    }
  }

  /** A registration without a role is parsed with role 'user'. */
  lemma AbsentRoleDefaultsToUser(body: Json, isEmail: string -> bool)
    requires SafeParse(RegisterSchema, body, isEmail).Accepted?
    requires "role" !in body.fields
    ensures var data := SafeParse(RegisterSchema, body, isEmail).data;
      "role" in data && data["role"] == Str("user")
  {
    RegisterMeaning(body, isEmail);
  }

  /** A login is accepted exactly when the email passes the predicate and the password is non-empty. */
  lemma LoginMeaning(body: Json, isEmail: string -> bool)
    ensures var r := SafeParse(LoginSchema, body, isEmail);
      r.Accepted? <==>
        body.Obj? &&
        "email" in body.fields && GoodEmail(body.fields["email"], isEmail) &&
        "password" in body.fields && GoodLoginPassword(body.fields["password"])
    ensures var r := SafeParse(LoginSchema, body, isEmail);
      r.Accepted? ==> r.data == map["email" := body.fields["email"], "password" := body.fields["password"]]
  {
    var c := LoginSchema;
    assert c[0].key == "email" && c[1].key == "password";
    assert DistinctKeys(c) && AllRequired(c);
    RequiredTwo(c, body, isEmail);
    if body.Obj? {
      var b := body.fields;
      if "email" in b { CheckFacts(b["email"], isEmail); }
      if "password" in b { CheckFacts(b["password"], isEmail); }
    }
  }

  /** The typed registration the controller reads from the parsed body. */
  datatype RegisterInput = RegisterInput(username: string, email: string, password: string, role: Option<Role>)

  /** The typed login the controller reads from the parsed body. */
  datatype LoginInput = LoginInput(email: string, password: string)

  function RegisterInputOf(data: map<string, Json>): Option<RegisterInput>
  {
    if "username" in data && data["username"].Str? && "email" in data && data["email"].Str?
       && "password" in data && data["password"].Str?
    then
      var role := if "role" in data && data["role"].Str? then RoleOf(data["role"].s) else None;
      Some(RegisterInput(data["username"].s, data["email"].s, data["password"].s, role))
    else None
  }

  function LoginInputOf(data: map<string, Json>): Option<LoginInput>
  {
    if "email" in data && data["email"].Str? && "password" in data && data["password"].Str?
    then Some(LoginInput(data["email"].s, data["password"].s))
    else None
  }

  /** Values that meet the registration rules read back as a registration with a role. */
  lemma ReadBackRegistration(username: Json, email: Json, password: Json, role: Json, isEmail: string -> bool)
    requires GoodUsername(username) && GoodEmail(email, isEmail) && GoodPassword(password) && GoodRole(role)
    ensures var input := RegisterInputOf(map["username" := username, "email" := email, "password" := password, "role" := role]);
      input.Some? && input.value == RegisterInput(username.s, email.s, password.s, RoleOf(role.s)) &&
      input.value.role.Some?
  {
  }

  /** Accepted registration data reads back with every bound met and a role always present. */
  lemma RegisterInputMeetsRules(body: Json, isEmail: string -> bool)
    requires SafeParse(RegisterSchema, body, isEmail).Accepted?
    ensures var input := RegisterInputOf(SafeParse(RegisterSchema, body, isEmail).data);
      input.Some? &&
      3 <= |input.value.username| <= 50 && isEmail(input.value.email) &&
      6 <= |input.value.password| <= 100 && input.value.role.Some? &&
      ("role" !in body.fields ==> input.value.role == Some(User))
  {
    RegisterMeaning(body, isEmail);
    var b := body.fields;
    ReadBackRegistration(b["username"], b["email"], b["password"], RoleOrDefault(b), isEmail);
  }

  /** Accepted login data reads back with a non-empty password. */
  lemma LoginInputMeetsRules(body: Json, isEmail: string -> bool)
    requires SafeParse(LoginSchema, body, isEmail).Accepted?
    ensures var input := LoginInputOf(SafeParse(LoginSchema, body, isEmail).data);
      input.Some? && isEmail(input.value.email) && |input.value.password| >= 1
  {
    LoginMeaning(body, isEmail);
  }
}
