/**
 * Values shared by every part of the school records API: identifiers, roles,
 * the thrown errors (`AppError` and everything else) and the success/failure
 * wrappers that replace the source's exceptions.
 */
module Common {

  /** Database ids are opaque strings (ObjectId casting is not modelled). */
  type Id = string

  /** The two roles a token or an account can carry: 'user' and 'admin'. */
  datatype Role = User | Admin

  /** The role's spelling in JSON bodies and tokens. */
  function RoleName(r: Role): (s: string)
    ensures s == "user" || s == "admin"
  {
    match r
    case User => "user"
    case Admin => "admin"
  }

  /** Reads a role back from its spelling; any other string is no role. */
  function RoleOf(s: string): (r: Option<Role>)
    ensures r.Some? <==> s == "user" || s == "admin"
  {
    if s == "user" then Some(User)
    else if s == "admin" then Some(Admin)
    else None
  }

  /** Spelling a role and reading it back gives the same role, and no two roles share a spelling. */
  lemma RoleNameRoundTrip(r: Role, s: string)
    ensures RoleOf(RoleName(r)) == Some(r)
    ensures RoleOf(s) == Some(r) ==> s == RoleName(r)
  {
  }

  /**
   * What a service or middleware can throw: an `AppError` with its HTTP
   * status and message, or any other error (a driver failure, a cast error),
   * which the model only names.
   */
  datatype Fault =
    | AppError(statusCode: nat, message: string)
    | OtherError(name: string, message: string)

  datatype Option<+T> = None | Some(value: T) {
    function GetOr(default: T): T {
      match this
      case Some(v) => v
      case None => default
    }
  }

  /** The outcome of an operation that may throw. */
  datatype Result<+T> = Ok(value: T) | Err(fault: Fault)
}
