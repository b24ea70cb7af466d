/**
 * The access gate: `authenticate` reads the bearer token from the
 * `Authorization` header, has it verified and attaches the caller to the
 * request; `authorize(...roles)` lets through only the listed roles.
 * Token verification is the `verify` parameter: the signature scheme is not
 * modelled, only what the middleware does with each of its answers.
 */
module Auth {
  import opened Common
  import opened Strings
  import opened Http

  /** What `jwt.verify` does with a token: returns its payload, or throws a named error. */
  datatype Verdict = Decoded(id: Id, role: Role) | Thrown(name: string, message: string)

  const BearerPrefix := "Bearer "

  /** A token of the form `Bearer <rest>` splits into at least two pieces, the second being the first piece of `<rest>`. */
  lemma BearerPieces(header: string)
    requires StartsWith(header, BearerPrefix)
    ensures |Split(header, ' ')| >= 2
    ensures Split(header, ' ')[1] == Split(header[|BearerPrefix|..], ' ')[0]
  {
    var rest := header[|BearerPrefix|..];
    assert header == "Bearer" + [' '] + rest;
    SplitAtFirstSeparator("Bearer", ' ', rest);
  }

  /**
   * `authHeader.split(' ')[1]` when the header is there and starts with
   * `Bearer `; `None` where the middleware throws "No token provided".
   */
  function BearerToken(header: Option<string>): (token: Option<string>)
    ensures token.Some? <==> header.Some? && StartsWith(header.value, BearerPrefix)
    ensures token.Some? ==> token.value == Split(header.value[|BearerPrefix|..], ' ')[0]
  {
    if header.None? || !StartsWith(header.value, BearerPrefix) then None
    else
      BearerPieces(header.value);
      Some(Split(header.value, ' ')[1])
  }

  /** A token without spaces after `Bearer ` is handed to `verify` as it is. */
  lemma BearerTokenOfSpaceFree(t: string)
    requires ' ' !in t
    ensures BearerToken(Some(BearerPrefix + t)) == Some(t)
  {
    assert (BearerPrefix + t)[|BearerPrefix|..] == t;
    SplitWithoutSeparator(t, ' ');
  }

  /** Text after a further space is ignored: only the second space-separated piece is the token. */
  lemma BearerTokenStopsAtSpace(a: string, b: string)
    requires ' ' !in a
    ensures BearerToken(Some(BearerPrefix + a + " " + b)) == Some(a)
  {
    assert (BearerPrefix + a + " " + b)[|BearerPrefix|..] == a + [' '] + b;
    SplitAtFirstSeparator(a, ' ', b);
  }

  /** A doubled space leaves an empty token, which `verify` then judges. */
  lemma BearerTokenAfterDoubleSpace(rest: string)
    ensures BearerToken(Some(BearerPrefix + " " + rest)) == Some("")
  {
    assert (BearerPrefix + " " + rest)[|BearerPrefix|..] == [] + [' '] + rest;
    SplitAtFirstSeparator([], ' ', rest);
  }

  const NoToken := AppError(401, "No token provided. Please log in.")
  const InvalidToken := AppError(401, "Invalid token. Please log in again.")
  const ExpiredToken := AppError(401, "Token expired. Please log in again.")

  /** The `catch` of `authenticate`: the two token errors by name become 401s, anything else goes on unchanged. */
  function VerifyFailure(name: string, message: string): (f: Fault)
    ensures f.AppError? <==> name == "JsonWebTokenError" || name == "TokenExpiredError"
    ensures f.AppError? ==> f.statusCode == 401
    ensures name == "JsonWebTokenError" ==> f == AppError(401, "Invalid token. Please log in again.")
    ensures name == "TokenExpiredError" ==> f == AppError(401, "Token expired. Please log in again.")
    ensures f.OtherError? ==> f == OtherError(name, message)
  {
    if name == "JsonWebTokenError" then InvalidToken
    else if name == "TokenExpiredError" then ExpiredToken
    else OtherError(name, message)
  }

  /**
   * `authenticate`: goes on, with `req.user` set to exactly the decoded id
   * and role, when there is a bearer token and `verify` accepts it;
   * otherwise calls `next` with an error and leaves the request alone.
   */
  function Authenticate(s: RequestState, verify: string -> Verdict): (step: Step)
    ensures !step.Reply?
    ensures step.Continue? <==> BearerToken(s.authorization).Some? && verify(BearerToken(s.authorization).value).Decoded?
    ensures step.Continue? ==>
      var v := verify(BearerToken(s.authorization).value);
      step.state == s.(user := Some(Principal(v.id, v.role)))
    ensures BearerToken(s.authorization).None? ==> step == Fail(NoToken)
    ensures step.Fail? && BearerToken(s.authorization).Some? ==>
      var v := verify(BearerToken(s.authorization).value);
      v.Thrown? && step.fault == VerifyFailure(v.name, v.message)
  {
    match BearerToken(s.authorization)
    case None => Fail(NoToken)
    case Some(token) =>
      match verify(token)
      case Decoded(id, role) => Continue(s.(user := Some(Principal(id, role))))
      case Thrown(name, message) => Fail(VerifyFailure(name, message))
  }

  /** `authenticate` run on a request: only `req.user` may change, and only on success. */
  method AuthenticateRequest(req: Request, verify: string -> Verdict) returns (step: Step)
    modifies req
    ensures step == Authenticate(old(req.State()), verify)
    ensures step.Continue? ==> req.State() == step.state
    ensures !step.Continue? ==> req.State() == old(req.State())
  {
    var token := BearerToken(req.authorization);
    if token.None? {
      return Fail(NoToken);
    }
    var verdict := verify(token.value);
    if verdict.Thrown? {
      return Fail(VerifyFailure(verdict.name, verdict.message));
    }
    req.user := Some(Principal(verdict.id, verdict.role));
    step := Continue(req.State());
  }

  /**
   * `authorize(...roles)`: 401 without a user, 403 when the user's role is
   * not listed, and otherwise on with the request untouched.
   */
  function Authorize(roles: seq<Role>, s: RequestState): (step: Step)
    ensures !step.Reply?
    ensures step.Continue? <==> s.user.Some? && s.user.value.role in roles
    ensures step.Continue? ==> step.state == s
    ensures s.user.None? ==> step == Fail(AppError(401, "Authentication required"))
    ensures s.user.Some? && s.user.value.role !in roles ==>
      step == Fail(AppError(403, "You do not have permission to perform this action"))
  {
    if s.user.None? then Fail(AppError(401, "Authentication required"))
    else if s.user.value.role !in roles then Fail(AppError(403, "You do not have permission to perform this action"))
    else Continue(s)
  }

  /** Listing both roles admits every authenticated caller: only the 401 remains. */
  lemma AuthorizeEveryRole(s: RequestState)
    ensures Authorize([User, Admin], s).Continue? <==> s.user.Some?
  {
    if s.user.Some? {
      var roles := [User, Admin];
      if s.user.value.role == User {
        assert roles[0] == User;
      } else {
        assert roles[1] == Admin;
      }
    }
  }

  /** `authorize('admin')` turns away a plain user with 403. */
  lemma AdminOnlyRefusesUser(s: RequestState)
    requires s.user.Some? && s.user.value.role == User
    ensures Authorize([Admin], s) == Fail(AppError(403, "You do not have permission to perform this action"))
  {
  }
}
