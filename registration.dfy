/**
 * The registration flow the two register handlers share: method check,
 * required fields, duplicate email, hashing, creating the account and opening
 * a session. They differ only in the path of the user document the hash is
 * written to.
 */
module Registration {
  import opened Wrappers
  import opened Json
  import opened Casts
  import opened Libraries
  import opened Store
  import opened Http
  import opened Auth

  /** Where the hash goes: `password` (`/api/register`) or `passwordHash` (`/api/auth/register`). */
  datatype HashPath = PasswordPath | PasswordHashPath

  /** The document `UserModel.create` is given, with the hash under `path` and nothing under the other name. */
  function NewUser(id: string, email: string, name: string, hash: string, path: HashPath): (u: User)
    ensures u.id == id && u.email == email && u.name == name
    ensures path.PasswordPath? ==> u.password == Some(hash) && u.passwordHash.None?
    ensures path.PasswordHashPath? ==> u.passwordHash == Some(hash) && u.password.None?
  {
    match path
    case PasswordPath => User(id, email, name, Some(hash), None)
    case PasswordHashPath => User(id, email, name, None, Some(hash))
  }

  /** The claims, and the `user` of the answer: `_id`, `name` and `email`, nothing else. */
  function Claims(u: User): Identity {
    Identity(u.id, u.name, u.email)
  }

  const AlreadyExists := Reply(409, Message("User already exists"))

  /** `!email || !password || !name`. */
  predicate MissingAny(data: Object) {
    !Given(data, "email") || !Given(data, "password") || !Given(data, "name")
  }

  /**
   * Everything up to the answer: refused with a response, or admitted with
   * the new account's claims and the store holding it. Admission keeps email
   * addresses unique.
   */
  function Admit(s: State, req: Request, libs: Libs, env: Runtime, path: HashPath): (a: Admission)
    ensures a.Admitted? ==> a.statusCode == 201
    ensures a.Admitted? && Consistent(s) ==> Consistent(a.after)
    ensures a.Admitted? && UniqueEmails(s.users) ==> UniqueEmails(a.after.users)
  {
    if req.httpMethod != "POST" then Refused(MethodNotAllowed)
    else if !env.databaseReachable then Refused(InternalError)
    else
      match ParseBody(req.body)
      case None => Refused(InternalError)
      case Some(data) =>
        if MissingAny(data) then Refused(MissingFields)
        else
          match CastString(data["email"])
          case None => Refused(InternalError)
          case Some(email) =>
            if FindUserByEmail(s, email).Some? then Refused(AlreadyExists)
            else if !data["password"].Str? then Refused(InternalError)
            else
              match CastString(data["name"])
              case None => Refused(InternalError)
              case Some(name) =>
                var u := NewUser(env.newObjectId, email, name, HashPassword(libs, data["password"].s), path);
                match InsertUser(s, u)
                case None => Refused(InternalError)
                case Some(t) =>
                  EmailStaysUnique(s.users, u);
                  Admitted(201, Claims(u), t)
  }

  /** Appending an account whose email nobody has keeps emails unique. */
  lemma EmailStaysUnique(users: seq<User>, u: User)
    requires forall v | v in users :: v.email != u.email
    ensures UniqueEmails(users) ==> UniqueEmails(users + [u])
  {
    if UniqueEmails(users) {
      var r := users + [u];
      forall i, j | 0 <= i < j < |r| ensures r[i].email != r[j].email {
        if j == |users| {
          assert r[i] in users;
        }
      }
    }
  }

  /** The flow against the store: the account is created, then the session cookie is set. */
  method Register(db: Db, req: Request, libs: Libs, env: Runtime, path: HashPath) returns (res: Response)
    requires db.Valid()
    modifies db
    ensures db.Valid()
    ensures Outcome(res, db.Snapshot()) == Conclude(old(db.Snapshot()), Admit(old(db.Snapshot()), req, libs, env, path), libs, env)
  {
    if req.httpMethod != "POST" {
      return MethodNotAllowed;
    }
    if !env.databaseReachable {
      return InternalError;
    }
    var data := ParseBody(req.body);
    if data.None? {
      return InternalError;
    }
    if MissingAny(data.value) {
      return MissingFields;
    }
    var email := CastString(data.value["email"]);
    if email.None? {
      return InternalError;
    }
    var existing := FindUserByEmail(db.Snapshot(), email.value);
    if existing.Some? {
      return AlreadyExists;
    }
    if !data.value["password"].Str? {
      return InternalError;
    }
    var hash := HashPassword(libs, data.value["password"].s);
    var name := CastString(data.value["name"]);
    if name.None? {
      return InternalError;
    }
    var user := NewUser(env.newObjectId, email.value, name.value, hash, path);
    var ok := db.CreateUser(user);
    if !ok {
      return InternalError;
    }
    var token := GenerateToken(libs, env, Claims(user));
    res := SetAuthCookie(Reply(201, UserJson(Claims(user))), token);
  }

  // Properties of the shared flow

  /** Any method but POST is a 405, before the database, the body or anything else. */
  lemma NonPostNotAllowed(s: State, req: Request, libs: Libs, env: Runtime, path: HashPath)
    requires req.httpMethod != "POST"
    ensures Admit(s, req, libs, env, path) == Refused(Reply(405, Plain("Method Not Allowed")))
  {
  }

  /** A missing or empty `email`, `password` or `name` is a 400; no account is created. */
  lemma MissingFieldsRejected(s: State, req: Request, libs: Libs, env: Runtime, path: HashPath, data: Object)
    requires req.httpMethod == "POST" && env.databaseReachable
    requires ParseBody(req.body) == Some(data)
    requires !Given(data, "email") || !Given(data, "password") || !Given(data, "name")
    ensures Admit(s, req, libs, env, path) == Refused(Reply(400, Message("Missing fields")))
  {
  }

  /** An email some account already has is a 409; no account is created. */
  lemma DuplicateEmailConflict(s: State, req: Request, libs: Libs, env: Runtime, path: HashPath, data: Object, email: string)
    requires req.httpMethod == "POST" && env.databaseReachable
    requires ParseBody(req.body) == Some(data) && !MissingAny(data)
    requires CastString(data["email"]) == Some(email)
    requires exists u | u in s.users :: u.email == email
    ensures Admit(s, req, libs, env, path) == Refused(Reply(409, Message("User already exists")))
  {
  }

  /**
   * Admission adds exactly one account, last: under the new ObjectId, with the
   * body's email and name, an email nobody had, and the hash of the body's
   * password under `path`. The claims are that account's `_id`, `name` and
   * `email`.
   */
  lemma AdmittedAddsOneUser(s: State, req: Request, libs: Libs, env: Runtime, path: HashPath)
    requires Admit(s, req, libs, env, path).Admitted?
    ensures var a := Admit(s, req, libs, env, path);
      && ParseBody(req.body).Some?
      && var data := ParseBody(req.body).value;
      && !MissingAny(data)
      && |a.after.users| == |s.users| + 1
      && var u := a.after.users[|s.users|];
      && a.after == s.(users := s.users + [u])
      && u.id == env.newObjectId
      && Some(u.email) == CastString(data["email"])
      && Some(u.name) == CastString(data["name"])
      && (forall v | v in s.users :: v.email != u.email)
      && data["password"].Str?
      && u == NewUser(u.id, u.email, u.name, libs.hash(data["password"].s), path)
      && a.who == Identity(u.id, u.name, u.email)
  {
  }
}
