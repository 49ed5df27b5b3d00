/**
 * Session handling: the signing secret, token issue and verification, reading
 * the caller's identity from the `auth_token` cookie, and writing or clearing
 * that cookie on a response.
 */
module Auth {
  import opened Wrappers
  import opened Libraries
  import opened Store
  import opened Http

  const SessionCookie := "auth_token"

  /** The development-only fallback signing secret. */
  const DefaultSecret := "default-secret-do-not-use-in-production"

  /** `expiresIn: '7d'`, in seconds. */
  const TokenLifetime := 7 * 24 * 60 * 60

  /** `maxAge: 60 * 60 * 24 * 7`: one week, in seconds. */
  const CookieMaxAge := 60 * 60 * 24 * 7

  /** `process.env.JWT_SECRET || DefaultSecret`: an unset or empty variable falls back. */
  function Secret(env: Runtime): (k: string)
    ensures k != ""
    ensures env.jwtSecret.Some? && env.jwtSecret.value != "" ==> k == env.jwtSecret.value
    ensures env.jwtSecret.None? || env.jwtSecret.value == "" ==> k == DefaultSecret
  {
    match env.jwtSecret
    case Some(k) => if k != "" then k else DefaultSecret
    case None => DefaultSecret
  }

  /** `bcrypt.hash(password, 10)`. */
  function HashPassword(libs: Libs, password: string): (h: string)
    ensures h == libs.hash(password)
    ensures BcryptSound(libs) ==> ComparePassword(libs, password, h)
  {
    libs.hash(password)
  }

  /** `bcrypt.compare(password, hash)`. */
  function ComparePassword(libs: Libs, password: string, hash: string): (ok: bool)
    ensures ok == libs.compare(password, hash)
    ensures BcryptSound(libs) && hash == libs.hash(password) ==> ok
  {
    libs.compare(password, hash)
  }

  /** `jwt.verify` with the secret; every failure is `None`, nothing is thrown. */
  function VerifyToken(libs: Libs, env: Runtime, token: string): (r: Option<Identity>)
    ensures r == libs.verify(token, Secret(env))
    ensures JwtSound(libs) ==> forall p: TokenPayload ::
      token == libs.sign(p, Secret(env)) ==> r == Some(p.claims)
  {
    libs.verify(token, Secret(env))
  }

  /**
   * `jwt.sign({ _id, email, name }, secret, { expiresIn: '7d' })`. With a sound
   * token library the token is not empty and verifies to exactly those claims.
   */
  function GenerateToken(libs: Libs, env: Runtime, user: Identity): (t: string)
    ensures t == libs.sign(TokenPayload(user, TokenLifetime), Secret(env))
    ensures JwtSound(libs) ==> t != "" && VerifyToken(libs, env, t) == Some(user)
  {
    libs.sign(TokenPayload(user, TokenLifetime), Secret(env))
  }

  /**
   * The caller's identity: none without a (non-empty) `auth_token` cookie,
   * otherwise whatever the token verifies to. The two ways to fail look alike.
   */
  function GetUserFromRequest(libs: Libs, env: Runtime, req: Request): (r: Option<Identity>)
    ensures (SessionCookie !in req.cookies || req.cookies[SessionCookie] == "") ==> r.None?
    ensures SessionCookie in req.cookies && req.cookies[SessionCookie] != "" ==>
      r == VerifyToken(libs, env, req.cookies[SessionCookie])
  {
    if SessionCookie in req.cookies && req.cookies[SessionCookie] != "" then
      VerifyToken(libs, env, req.cookies[SessionCookie])
    else None
  }

  function SessionCookieWith(value: string, maxAge: int): Cookie {
    Cookie(SessionCookie, value, true, "strict", maxAge, "/")
  }

  /** `setAuthCookie(res, token)`, writing the cookie into the response's headers. */
  function SetAuthCookie(res: Response, token: string): (r: Response)
    ensures r.statusCode == res.statusCode && r.body == res.body
    ensures r.headers == res.headers["Set-Cookie" := Cookie(SessionCookie, token, true, "strict", 604800, "/")]
  {
    res.(headers := res.headers["Set-Cookie" := SessionCookieWith(token, CookieMaxAge)])
  }

  /** `clearAuthCookie(res)`: the same cookie, empty, with Max-Age -1. */
  function ClearAuthCookie(res: Response): (r: Response)
    ensures r.statusCode == res.statusCode && r.body == res.body
    ensures r.headers == res.headers["Set-Cookie" := Cookie(SessionCookie, "", true, "strict", -1, "/")]
  {
    res.(headers := res.headers["Set-Cookie" := SessionCookieWith("", -1)])
  }

  /** The answer to a successful registration or login: `{ user }` plus the session cookie. */
  function SessionResponse(statusCode: int, who: Identity, libs: Libs, env: Runtime): (r: Response)
    ensures r.statusCode == statusCode && r.body == UserJson(who)
    ensures "Set-Cookie" in r.headers && r.headers["Set-Cookie"].maxAge == CookieMaxAge
  {
    SetAuthCookie(Reply(statusCode, UserJson(who)), GenerateToken(libs, env, who))
  }

  /**
   * With a sound token library, a browser that stored the cookie of a session
   * response is recognised as that user on its next request.
   */
  lemma SessionAuthenticates(statusCode: int, who: Identity, libs: Libs, env: Runtime, jar: map<string, string>, next: Request)
    requires JwtSound(libs)
    requires next.cookies == Receive(jar, SessionResponse(statusCode, who, libs, env))
    ensures GetUserFromRequest(libs, env, next) == Some(who)
  {
    var token := GenerateToken(libs, env, who);
    assert next.cookies[SessionCookie] == token;
  }

  /** After a cleared cookie is received, the next request carries no session at all. */
  lemma ClearedCookieEndsSession(res: Response, libs: Libs, env: Runtime, jar: map<string, string>, next: Request)
    requires next.cookies == Receive(jar, ClearAuthCookie(res))
    ensures SessionCookie !in next.cookies
    ensures GetUserFromRequest(libs, env, next).None?
  {
  }

  /**
   * What a credential handler (register or login) decides before it answers:
   * refuse with a response and no change, or admit `who`, leaving `after`.
   */
  datatype Admission = Refused(res: Response) | Admitted(statusCode: int, who: Identity, after: State)

  /** The answer for an admission, with the session cookie written into the headers. */
  function Conclude(s: State, a: Admission, libs: Libs, env: Runtime): (o: Outcome)
    ensures a.Refused? ==> o == Outcome(a.res, s)
    ensures a.Admitted? ==> o.after == a.after && o.res == SessionResponse(a.statusCode, a.who, libs, env)
  {
    match a
    case Refused(res) => Outcome(res, s)
    case Admitted(statusCode, who, after) => Outcome(SessionResponse(statusCode, who, libs, env), after)
  }

  // The cookie helpers as the handlers call them

  /** The `{ statusCode, body }` object literal the handlers build: it has no `setHeader`. */
  datatype ResponseLiteral = ResponseLiteral(statusCode: int, body: Payload)

  datatype JsError = TypeError(message: string)

  /** `res.setHeader(...)` on an object literal: `setHeader` is undefined, so the call throws. */
  function SetHeaderOnLiteral(res: ResponseLiteral, name: string, c: Cookie): (r: Result<Response, JsError>)
    ensures r.Failure? && r.error.TypeError?
  {
    Failure(TypeError("res.setHeader is not a function"))
  }

  /** `setAuthCookie(response, token)` as called from register and login. */
  function SetAuthCookieAsWritten(res: ResponseLiteral, token: string): (r: Result<Response, JsError>)
    ensures r.Failure?
  {
    SetHeaderOnLiteral(res, "Set-Cookie", SessionCookieWith(token, CookieMaxAge))
  }

  /** `clearAuthCookie(response)` as called from logout. */
  function ClearAuthCookieAsWritten(res: ResponseLiteral): (r: Result<Response, JsError>)
    ensures r.Failure?
  {
    SetHeaderOnLiteral(res, "Set-Cookie", SessionCookieWith("", -1))
  }

  /**
   * The answer for an admission as the code stands: the cookie call throws
   * inside the handler's `try`, so the `catch` answers 500, after whatever the
   * admission already wrote to the store.
   */
  function ConcludeAsWritten(s: State, a: Admission, libs: Libs, env: Runtime): (o: Outcome)
    ensures a.Refused? ==> o == Outcome(a.res, s)
    ensures a.Admitted? ==> o == Outcome(InternalError, a.after)
  {
    match a
    case Refused(res) => Outcome(res, s)
    case Admitted(statusCode, who, after) =>
      match SetAuthCookieAsWritten(ResponseLiteral(statusCode, UserJson(who)), GenerateToken(libs, env, who))
      case Success(r) => Outcome(r, after)
      case Failure(_) => Outcome(InternalError, after)
  }
}
