/** `/api/me`: the claims of the session token; no account is looked up. */
module MeApi {
  import opened Wrappers
  import opened Libraries
  import opened Http
  import opened Auth

  /** The handler. It takes no store: the lookup of the account is switched off. */
  function Handle(req: Request, libs: Libs, env: Runtime): (r: Response)
    ensures r.headers == map[]
  {
    if req.httpMethod != "GET" then MethodNotAllowed
    else
      match GetUserFromRequest(libs, env, req)
      case None => Unauthorized
      case Some(user) =>
        if !env.databaseReachable then InternalError
        else Reply(200, UserJson(user))
  }

  /** The method is checked first: a non-GET is a 405 with or without a session. */
  lemma NonGetNotAllowed(req: Request, libs: Libs, env: Runtime)
    requires req.httpMethod != "GET"
    ensures Handle(req, libs, env) == Reply(405, Plain("Method Not Allowed"))
  {
  }

  /** A GET without a valid session is a 401. */
  lemma NoSessionUnauthorized(req: Request, libs: Libs, env: Runtime)
    requires req.httpMethod == "GET" && GetUserFromRequest(libs, env, req).None?
    ensures Handle(req, libs, env) == Reply(401, Message("Unauthorized"))
  {
  }

  /** A 200 answers exactly the token's claims. */
  lemma AnswersClaims(req: Request, libs: Libs, env: Runtime)
    requires Handle(req, libs, env).statusCode == 200
    ensures GetUserFromRequest(libs, env, req).Some?
    ensures Handle(req, libs, env).body == UserJson(GetUserFromRequest(libs, env, req).value)
  {
  }
}
