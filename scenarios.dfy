/**
 * Properties that span several handlers: what one request leaves behind, as
 * the next request sees it.
 */
module Scenarios {
  import opened Wrappers
  import opened Json
  import opened Libraries
  import opened Store
  import opened Http
  import opened Auth
  import Registration
  import RegisterApi
  import AuthRegisterApi
  import LoginApi
  import MeApi
  import GoalsApi
  import GoalsDetailApi
  import ProgressApi

  /** A login request carrying the email and password of a registration body. */
  predicate LoginWith(login: Request, data: Object) {
    && login.httpMethod == "POST"
    && "email" in data && "password" in data
    && login.body == Parsed(map["email" := data["email"], "password" := data["password"]])
  }

  /** After a registration admits an account, looking its email up finds that account. */
  lemma NewAccountFound(s: State, req: Request, libs: Libs, env: Runtime, path: Registration.HashPath)
    requires Registration.Admit(s, req, libs, env, path).Admitted?
    ensures var t := Registration.Admit(s, req, libs, env, path).after;
      && |t.users| == |s.users| + 1
      && FindUserByEmail(t, t.users[|s.users|].email) == Some(t.users[|s.users|])
  {
    Registration.AdmittedAddsOneUser(s, req, libs, env, path);
    var t := Registration.Admit(s, req, libs, env, path).after;
    var u := t.users[|s.users|];
    assert u in t.users;
  }

  /**
   * With a bcrypt that matches a password against its own hash, logging in
   * with the email and password an `/api/register` accepted succeeds, for the
   * same user and with the same session cookie the registration answered.
   */
  lemma RegisterThenLogin(s: State, reg: Request, login: Request, libs: Libs, env: Runtime, data: Object)
    requires BcryptSound(libs)
    requires RegisterApi.Handle(s, reg, libs, env).res.statusCode == 201
    requires ParseBody(reg.body) == Some(data) && LoginWith(login, data)
    ensures var registered := RegisterApi.Handle(s, reg, libs, env);
      LoginApi.Handle(registered.after, login, libs, env).res == registered.res.(statusCode := 200)
  {
    var a := Registration.Admit(s, reg, libs, env, Registration.PasswordPath);
    Registration.AdmittedAddsOneUser(s, reg, libs, env, Registration.PasswordPath);
    NewAccountFound(s, reg, libs, env, Registration.PasswordPath);
    var t := a.after;
    var u := t.users[|s.users|];
    var fields := map["email" := data["email"], "password" := data["password"]];
    assert ParseBody(login.body) == Some(fields);
    assert fields["email"] == data["email"] && fields["password"] == data["password"];
    assert u.password == Some(libs.hash(data["password"].s));
    assert libs.compare(data["password"].s, libs.hash(data["password"].s));
    LoginApi.AdmitsOnMatch(t, login, libs, env, fields, u);
    assert RegisterApi.Handle(s, reg, libs, env) == Outcome(SessionResponse(201, a.who, libs, env), t);
  }

  /**
   * An account made by `/api/auth/register` has its hash under `passwordHash`,
   * which login never reads: logging in with the very credentials it accepted
   * is a 500.
   */
  lemma AuthRegisterThenLoginFails(s: State, reg: Request, login: Request, libs: Libs, env: Runtime, data: Object)
    requires AuthRegisterApi.Handle(s, reg, libs, env).res.statusCode == 201
    requires ParseBody(reg.body) == Some(data) && LoginWith(login, data)
    ensures var t := AuthRegisterApi.Handle(s, reg, libs, env).after;
      LoginApi.Handle(t, login, libs, env).res == Reply(500, Message("Internal Server Error"))
  {
    var a := Registration.Admit(s, reg, libs, env, Registration.PasswordHashPath);
    Registration.AdmittedAddsOneUser(s, reg, libs, env, Registration.PasswordHashPath);
    NewAccountFound(s, reg, libs, env, Registration.PasswordHashPath);
    var t := a.after;
    var u := t.users[|s.users|];
    var fields := map["email" := data["email"], "password" := data["password"]];
    assert ParseBody(login.body) == Some(fields);
    assert fields["email"] == data["email"] && fields["password"] == data["password"];
    assert u.password.None?;
    LoginApi.NoPasswordPathInternalError(t, login, libs, env, fields, u);
  }

  /**
   * With a sound token library, `/api/me` on the browser's next request after
   * a login answers the claims the login answered.
   */
  lemma LoginThenMe(s: State, login: Request, me: Request, libs: Libs, env: Runtime, jar: map<string, string>)
    requires JwtSound(libs) && env.databaseReachable
    requires LoginApi.Handle(s, login, libs, env).res.statusCode == 200
    requires me.httpMethod == "GET" && me.cookies == Receive(jar, LoginApi.Handle(s, login, libs, env).res)
    ensures MeApi.Handle(me, libs, env) == Reply(200, LoginApi.Handle(s, login, libs, env).res.body)
  {
    var a := LoginApi.Admit(s, login, libs, env);
    SessionAuthenticates(200, a.who, libs, env, jar, me);
  }

  /** A goal just created is in the caller's next listing. */
  lemma CreatedGoalListed(s: State, post: Request, get: Request, libs: Libs, env: Runtime)
    requires GoalsApi.Handle(s, post, libs, env).res.statusCode == 201
    requires get.httpMethod == "GET" && get.cookies == post.cookies
    ensures var created := GoalsApi.Handle(s, post, libs, env);
      && created.res.body.GoalJson?
      && GoalsApi.Handle(created.after, get, libs, env).res.body.GoalsJson?
      && created.res.body.goal in GoalsApi.Handle(created.after, get, libs, env).res.body.goals
  {
    var user := GetUserFromRequest(libs, env, post).value;
    GoalsApi.CreatedGoalIsCallers(s, post, libs, env, user);
    var created := GoalsApi.Handle(s, post, libs, env);
    var g := created.res.body.goal;
    assert g in created.after.goals;
    GoalsApi.ListIsCallersGoalsNewestFirst(created.after, get, libs, env, user);
  }

  /** Fetching a goal just created, by its id, answers it as created. */
  lemma CreatedGoalFetched(s: State, post: Request, detail: Request, libs: Libs, env: Runtime)
    requires GoalsApi.Handle(s, post, libs, env).res.statusCode == 201
    requires detail.httpMethod == "GET" && detail.cookies == post.cookies
    requires GoalsApi.Handle(s, post, libs, env).res.body.GoalJson?
    requires Param(detail, "id") == Some(GoalsApi.Handle(s, post, libs, env).res.body.goal.id)
    ensures var created := GoalsApi.Handle(s, post, libs, env);
      GoalsDetailApi.Handle(created.after, detail, libs, env).res == Reply(200, created.res.body)
  {
    var user := GetUserFromRequest(libs, env, post).value;
    GoalsApi.CreatedGoalIsCallers(s, post, libs, env, user);
    var created := GoalsApi.Handle(s, post, libs, env);
    var g := created.res.body.goal;
    assert InsertGoal(s, g) == Some(created.after);
    InsertedGoalFound(s, g);
    assert FindGoal(created.after, g.id, user.id) == Some(g);
  }

  /** A note just added to a goal is in the next listing of that goal's notes. */
  lemma PostedNoteListed(s: State, post: Request, get: Request, libs: Libs, env: Runtime)
    requires ProgressApi.Handle(s, post, libs, env).res.statusCode == 201
    requires get.httpMethod == "GET" && get.cookies == post.cookies
    requires Param(get, "goalId") == Param(post, "goalId")
    ensures var added := ProgressApi.Handle(s, post, libs, env);
      && added.res.body.NoteJson?
      && ProgressApi.Handle(added.after, get, libs, env).res.body.NotesJson?
      && added.res.body.note in ProgressApi.Handle(added.after, get, libs, env).res.body.notes
  {
    var user := GetUserFromRequest(libs, env, post).value;
    ProgressApi.PostAddsOneNote(s, post, libs, env, user);
  }
}
