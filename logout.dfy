/** `/api/auth/logout`: clears the session cookie; no session is needed and no store is touched. */
module LogoutApi {
  import opened Wrappers
  import opened Libraries
  import opened Http
  import opened Auth

  const LoggedOut := Reply(200, Message("Logged out successfully"))

  /** The handler with the cleared cookie written into the answer's headers. */
  function Handle(req: Request): (r: Response)
    ensures req.httpMethod != "POST" ==> r == Reply(405, Plain("Method Not Allowed"))
    ensures req.httpMethod == "POST" ==>
      && r.statusCode == 200 && r.body == Message("Logged out successfully")
      && r.headers == map["Set-Cookie" := Cookie("auth_token", "", true, "strict", -1, "/")]
  {
    if req.httpMethod != "POST" then MethodNotAllowed
    else ClearAuthCookie(LoggedOut)
  }

  /**
   * The handler as it stands: `clearAuthCookie` throws on the object literal
   * and nothing catches it, so every POST ends in an uncaught TypeError.
   */
  function HandleAsWritten(req: Request): (r: Result<Response, JsError>)
    ensures req.httpMethod != "POST" ==> r == Success(Reply(405, Plain("Method Not Allowed")))
    ensures req.httpMethod == "POST" ==> r.Failure?
  {
    if req.httpMethod != "POST" then Success(MethodNotAllowed)
    else ClearAuthCookieAsWritten(ResponseLiteral(LoggedOut.statusCode, LoggedOut.body))
  }

  /**
   * The answer to a POST depends on nothing in the request, cookies included:
   * there is no session check.
   */
  lemma NoSessionNeeded(req: Request, other: Request)
    requires req.httpMethod == "POST" && other.httpMethod == "POST"
    ensures Handle(req) == Handle(other)
  {
  }

  /** After a logout, the browser holds no `auth_token` and its next request has no session. */
  lemma LogoutEndsSession(req: Request, libs: Libs, env: Runtime, jar: map<string, string>, next: Request)
    requires req.httpMethod == "POST"
    requires next.cookies == Receive(jar, Handle(req))
    ensures "auth_token" !in next.cookies
    ensures GetUserFromRequest(libs, env, next).None?
  {
    ClearedCookieEndsSession(LoggedOut, libs, env, jar, next);
  }

  /** A non-POST leaves the browser's cookies as they were. */
  lemma NonPostKeepsCookies(req: Request, jar: map<string, string>)
    requires req.httpMethod != "POST"
    ensures Receive(jar, Handle(req)) == jar
  {
  }
}
