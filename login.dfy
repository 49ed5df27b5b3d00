/** `/api/login`: checks the credentials and opens a session; it never writes. */
module LoginApi {
  import opened Wrappers
  import opened Json
  import opened Casts
  import opened Libraries
  import opened Store
  import opened Http
  import opened Auth

  const InvalidCredentials := Reply(401, Message("Invalid credentials"))

  /**
   * Everything up to the answer. The account's `password` path is what is
   * compared against; bcrypt throws when it is absent, or when the body's
   * password is not a string, and the handler answers 500.
   */
  function Admit(s: State, req: Request, libs: Libs, env: Runtime): (a: Admission)
    ensures a.Admitted? ==> a.statusCode == 200 && a.after == s
    ensures a.Refused? ==> a.res.headers == map[]
  {
    if req.httpMethod != "POST" then Refused(MethodNotAllowed)
    else if !env.databaseReachable then Refused(InternalError)
    else
      match ParseBody(req.body)
      case None => Refused(InternalError)
      case Some(data) =>
        if !Given(data, "email") || !Given(data, "password") then Refused(MissingFields)
        else
          match CastString(data["email"])
          case None => Refused(InternalError)
          case Some(email) =>
            match FindUserByEmail(s, email)
            case None => Refused(InvalidCredentials)
            case Some(user) =>
              if user.password.None? || !data["password"].Str? then Refused(InternalError)
              else if !ComparePassword(libs, data["password"].s, user.password.value) then Refused(InvalidCredentials)
              else Admitted(200, Identity(user.id, user.name, user.email), s)
  }

  /** The handler with the session cookie written into the answer's headers. */
  function Handle(s: State, req: Request, libs: Libs, env: Runtime): (o: Outcome)
    ensures o.after == s
  {
    Conclude(s, Admit(s, req, libs, env), libs, env)
  }

  /** The handler as it stands: a correct password ends in the cookie call's TypeError, so 500. */
  function HandleAsWritten(s: State, req: Request, libs: Libs, env: Runtime): (o: Outcome)
    ensures o.after == s
    ensures o.res.statusCode != 200
  {
    ConcludeAsWritten(s, Admit(s, req, libs, env), libs, env)
  }

  /** The handler against the store, which it only reads. */
  method Handler(db: Db, req: Request, libs: Libs, env: Runtime) returns (res: Response)
    requires db.Valid()
    ensures res == Handle(db.Snapshot(), req, libs, env).res
  {
    if req.httpMethod != "POST" {
      return MethodNotAllowed;
    }
    if !env.databaseReachable {
      return InternalError;
    }
    var data := ParseBody(req.body);
    if data.None? {
      return InternalError;
    }
    if !Given(data.value, "email") || !Given(data.value, "password") {
      return MissingFields;
    }
    var email := CastString(data.value["email"]);
    if email.None? {
      return InternalError;
    }
    var user := FindUserByEmail(db.Snapshot(), email.value);
    if user.None? {
      return InvalidCredentials;
    }
    if user.value.password.None? || !data.value["password"].Str? {
      return InternalError;
    }
    var isMatch := ComparePassword(libs, data.value["password"].s, user.value.password.value);
    if !isMatch {
      return InvalidCredentials;
    }
    var who := Identity(user.value.id, user.value.name, user.value.email);
    var token := GenerateToken(libs, env, who);
    res := SetAuthCookie(Reply(200, UserJson(who)), token);
  }

  // Properties

  /** Any method but POST is a 405. */
  lemma NonPostNotAllowed(s: State, req: Request, libs: Libs, env: Runtime)
    requires req.httpMethod != "POST"
    ensures Handle(s, req, libs, env).res == Reply(405, Plain("Method Not Allowed"))
  {
  }

  /** A missing or empty `email` or `password` is a 400. */
  lemma MissingFieldsRejected(s: State, req: Request, libs: Libs, env: Runtime, data: Object)
    requires req.httpMethod == "POST" && env.databaseReachable
    requires ParseBody(req.body) == Some(data)
    requires !Given(data, "email") || !Given(data, "password")
    ensures Handle(s, req, libs, env).res == Reply(400, Message("Missing fields"))
  {
  }

  /**
   * An unknown email and a wrong password get the very same answer: 401
   * "Invalid credentials", and no cookie.
   */
  lemma FailuresAlike(s: State, req: Request, libs: Libs, env: Runtime, data: Object, email: string)
    requires req.httpMethod == "POST" && env.databaseReachable
    requires ParseBody(req.body) == Some(data) && Given(data, "email") && Given(data, "password")
    requires CastString(data["email"]) == Some(email)
    requires || (forall u | u in s.users :: u.email != email)
             || (&& FindUserByEmail(s, email).Some?
                 && FindUserByEmail(s, email).value.password.Some?
                 && data["password"].Str?
                 && !libs.compare(data["password"].s, FindUserByEmail(s, email).value.password.value))
    ensures Handle(s, req, libs, env).res == Reply(401, Message("Invalid credentials"))
    ensures "Set-Cookie" !in Handle(s, req, libs, env).res.headers
  {
  }

  /**
   * A 200 answers the claims of the account the email names, whose stored
   * `password` the body's password matches, and sets a session cookie for
   * those claims; with a sound token library the next request is that user.
   */
  lemma SuccessIssuesSession(s: State, req: Request, libs: Libs, env: Runtime, jar: map<string, string>, next: Request)
    requires Handle(s, req, libs, env).res.statusCode == 200
    requires JwtSound(libs) && next.cookies == Receive(jar, Handle(s, req, libs, env).res)
    ensures var o := Handle(s, req, libs, env);
      && ParseBody(req.body).Some?
      && var data := ParseBody(req.body).value;
      && CastString(data["email"]).Some?
      && var user := FindUserByEmail(s, CastString(data["email"]).value);
      && user.Some? && user.value.password.Some? && data["password"].Str?
      && libs.compare(data["password"].s, user.value.password.value)
      && var who := Identity(user.value.id, user.value.name, user.value.email);
      && o.res.body == UserJson(who)
      && o.res.headers["Set-Cookie"] == Cookie("auth_token", GenerateToken(libs, env, who), true, "strict", 604800, "/")
      && GetUserFromRequest(libs, env, next) == Some(who)
  {
    var a := Admit(s, req, libs, env);
    SessionAuthenticates(200, a.who, libs, env, jar, next);
  }

  /**
   * Login admits exactly the account the email finds, when its stored
   * `password` matches the body's password, and writes nothing.
   */
  lemma AdmitsOnMatch(s: State, req: Request, libs: Libs, env: Runtime, data: Object, user: User)
    requires req.httpMethod == "POST" && env.databaseReachable
    requires ParseBody(req.body) == Some(data) && Given(data, "email") && Given(data, "password")
    requires CastString(data["email"]).Some? && FindUserByEmail(s, CastString(data["email"]).value) == Some(user)
    requires user.password.Some? && data["password"].Str?
    requires libs.compare(data["password"].s, user.password.value)
    ensures Admit(s, req, libs, env) == Admitted(200, Identity(user.id, user.name, user.email), s)
    ensures Handle(s, req, libs, env) == Outcome(SessionResponse(200, Identity(user.id, user.name, user.email), libs, env), s)
  {
  }

  /** An account without a `password` path (one `/api/auth/register` made) cannot log in: 500. */
  lemma NoPasswordPathInternalError(s: State, req: Request, libs: Libs, env: Runtime, data: Object, user: User)
    requires req.httpMethod == "POST" && env.databaseReachable
    requires ParseBody(req.body) == Some(data) && Given(data, "email") && Given(data, "password")
    requires CastString(data["email"]).Some? && FindUserByEmail(s, CastString(data["email"]).value) == Some(user)
    requires user.password.None?
    ensures Handle(s, req, libs, env).res == Reply(500, Message("Internal Server Error"))
  {
  }
}
