/** `/api/auth/register`: the same registration flow, storing the hash under `passwordHash`. */
module AuthRegisterApi {
  import opened Wrappers
  import opened Json
  import opened Libraries
  import opened Store
  import opened Http
  import opened Auth
  import opened Registration

  /** The handler with the session cookie written into the answer's headers. */
  function Handle(s: State, req: Request, libs: Libs, env: Runtime): (o: Outcome)
    ensures Consistent(s) ==> Consistent(o.after)
    ensures UniqueEmails(s.users) ==> UniqueEmails(o.after.users)
  {
    Conclude(s, Admit(s, req, libs, env, PasswordHashPath), libs, env)
  }

  /** The handler as it stands: the cookie call throws after the account is created. */
  function HandleAsWritten(s: State, req: Request, libs: Libs, env: Runtime): (o: Outcome)
    ensures o.res.statusCode != 201
  {
    ConcludeAsWritten(s, Admit(s, req, libs, env, PasswordHashPath), libs, env)
  }

  method Handler(db: Db, req: Request, libs: Libs, env: Runtime) returns (res: Response)
    requires db.Valid()
    modifies db
    ensures db.Valid()
    ensures Outcome(res, db.Snapshot()) == Handle(old(db.Snapshot()), req, libs, env)
  {
    res := Register(db, req, libs, env, PasswordHashPath);
  }

  /**
   * A 201 stores the account with `passwordHash` set to the hash of the body's
   * password and no `password` at all, unlike `/api/register`. It answers only
   * the account's `_id`, `name` and `email`, and sets the session cookie; with
   * a sound token library the browser's next request is that user.
   */
  lemma SuccessStoresHashUnderPasswordHash(s: State, req: Request, libs: Libs, env: Runtime, jar: map<string, string>, next: Request)
    requires Handle(s, req, libs, env).res.statusCode == 201
    requires JwtSound(libs) && next.cookies == Receive(jar, Handle(s, req, libs, env).res)
    ensures var o := Handle(s, req, libs, env);
      && |o.after.users| == |s.users| + 1
      && var u := o.after.users[|s.users|];
      && o.after == s.(users := s.users + [u])
      && ParseBody(req.body).Some? && ParseBody(req.body).value["password"].Str?
      && u.passwordHash == Some(libs.hash(ParseBody(req.body).value["password"].s))
      && u.password.None?
      && o.res.body == UserJson(Identity(u.id, u.name, u.email))
      && o.res.headers["Set-Cookie"] == Cookie("auth_token", GenerateToken(libs, env, Identity(u.id, u.name, u.email)), true, "strict", 604800, "/")
      && GetUserFromRequest(libs, env, next) == Some(Identity(u.id, u.name, u.email))
  {
    var a := Admit(s, req, libs, env, PasswordHashPath);
    AdmittedAddsOneUser(s, req, libs, env, PasswordHashPath);
    SessionAuthenticates(201, a.who, libs, env, jar, next);
  }

  /**
   * As written, a registration that gets as far as creating the account
   * answers 500, yet the account stays created.
   */
  lemma AsWrittenFailsAfterCreate(s: State, req: Request, libs: Libs, env: Runtime)
    requires Handle(s, req, libs, env).res.statusCode == 201
    ensures HandleAsWritten(s, req, libs, env) == Outcome(InternalError, Handle(s, req, libs, env).after)
    ensures |HandleAsWritten(s, req, libs, env).after.users| == |s.users| + 1
  {
    AdmittedAddsOneUser(s, req, libs, env, PasswordHashPath);
  }

  /** As written, retrying the failed registration meets the account it left behind: 409. */
  lemma AsWrittenRetryConflicts(s: State, req: Request, libs: Libs, env: Runtime)
    requires Handle(s, req, libs, env).res.statusCode == 201
    ensures var t := HandleAsWritten(s, req, libs, env).after;
      HandleAsWritten(t, req, libs, env) == Outcome(Reply(409, Message("User already exists")), t)
  {
    AdmittedAddsOneUser(s, req, libs, env, PasswordHashPath);
    var t := HandleAsWritten(s, req, libs, env).after;
    var u := t.users[|s.users|];
    assert u in t.users;
  }
}
