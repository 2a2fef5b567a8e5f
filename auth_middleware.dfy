/**
 * `authenticateUser`: the request names its user by an email in a header,
 * the `authorization` header first and `x-user-email` when that one is
 * absent or empty. A known email attaches the user to the request and
 * passes the request on; there is no password or token check.
 */
module AuthMiddleware {
  import opened Wrappers
  import opened Http
  import Users

  /** What `req.user` holds for the handlers behind the middleware. */
  datatype AuthUser = AuthUser(id: int, email: string, name: string, phone: Option<string>, createdAt: int)

  const MissingIdentity := "Authentication required. Please login."
  const UnknownUser := "User not found. Please login again."

  /**
   * `authorization || x-user-email`, then the test that the value is a
   * non-empty string. Node joins a repeated custom header into one
   * comma-separated string, so both headers are plain strings here.
   */
  function SelectIdentity(authorization: Option<string>, xUserEmail: Option<string>): (r: Option<string>)
    ensures r.Some? ==> r.value != ""
    ensures authorization.Some? && authorization.value != "" ==> r == authorization
    ensures (authorization.None? || authorization.value == "") ==>
      (r.Some? <==> xUserEmail.Some? && xUserEmail.value != "")
    ensures r.Some? && r != authorization ==> xUserEmail == r
  {
    if authorization.Some? && authorization.value != "" then authorization
    else if xUserEmail.Some? && xUserEmail.value != "" then xUserEmail
    else None
  }

  function Project(u: Users.User): (a: AuthUser)
  {
    AuthUser(u.id, u.email, u.name, u.phone, u.createdAt)
  }

  /** The middleware's decision: 401 without an identity or for an unknown email, else the stored user. */
  function Authenticate(rows: map<string, Users.User>, authorization: Option<string>, xUserEmail: Option<string>)
    : (r: Response<AuthUser>)
    requires Users.KeyedByEmail(rows)
    ensures SelectIdentity(authorization, xUserEmail).None? ==> r == Err(Unauthorized, MissingIdentity)
    ensures SelectIdentity(authorization, xUserEmail).Some? && SelectIdentity(authorization, xUserEmail).value !in rows
      ==> r == Err(Unauthorized, UnknownUser)
    ensures r.Ok? <==>
      SelectIdentity(authorization, xUserEmail).Some? && SelectIdentity(authorization, xUserEmail).value in rows
    ensures r.Ok? ==>
      var u := rows[SelectIdentity(authorization, xUserEmail).value];
      r.value == Project(u)
      && u.email == SelectIdentity(authorization, xUserEmail).value
    ensures r.Err? ==> r.status == Unauthorized
  {
    match SelectIdentity(authorization, xUserEmail)
    case None => Err(Unauthorized, MissingIdentity)
    case Some(email) =>
      match Users.FindByEmail(rows, email)
      case None => Err(Unauthorized, UnknownUser)
      case Some(u) => Ok(Project(u))
  }

  /** The request as the middleware sees and changes it. */
  class Request {
    const authorization: Option<string>
    const xUserEmail: Option<string>
    var user: Option<AuthUser>
    /** How many times `next()` has been called for this request. */
    var nextCalls: nat

    constructor (authorization: Option<string>, xUserEmail: Option<string>)
      ensures this.authorization == authorization && this.xUserEmail == xUserEmail
      ensures user == None && nextCalls == 0
    {
      this.authorization := authorization;
      this.xUserEmail := xUserEmail;
      user := None;
      nextCalls := 0;
    }
  }

  /**
   * The middleware itself: on success `req.user` is set and `next` called
   * once; on a refusal the request is left as it was and the 401 answer is
   * returned.
   */
  method AuthenticateUser(req: Request, users: Users.UserTable) returns (r: Response<AuthUser>)
    requires users.Valid()
    modifies req
    ensures r == Authenticate(users.rows, req.authorization, req.xUserEmail)
    ensures r.Ok? ==> req.user == Some(r.value) && req.nextCalls == old(req.nextCalls) + 1
    ensures r.Err? ==> req.user == old(req.user) && req.nextCalls == old(req.nextCalls)
  {
    var email := SelectIdentity(req.authorization, req.xUserEmail);
    if email.None? {
      return Err(Unauthorized, MissingIdentity);
    }
    var found := Users.FindByEmail(users.rows, email.value);
    if found.None? {
      return Err(Unauthorized, UnknownUser);
    }
    var u := found.value;
    req.user := Some(Project(u));
    req.nextCalls := req.nextCalls + 1;
    r := Ok(req.user.value);
  }
}
