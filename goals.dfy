/**
 * `/api/goals`: the caller's goal list (GET) and goal creation (POST).
 */
module GoalsApi {
  import opened Wrappers
  import opened Json
  import opened Query
  import opened Libraries
  import opened Store
  import opened Http
  import opened Auth
  import GoalModel

  /** `!data.title || !data.startDate || !data.targetDate`. */
  predicate MissingRequired(data: Object) {
    !Given(data, "title") || !Given(data, "startDate") || !Given(data, "targetDate")
  }

  const MissingGoalFields := Reply(400, Message("Missing required fields"))

  /** The POST branch: validate, then `GoalModel.create({ ...data, userId })`. */
  function Post(s: State, req: Request, user: Identity, libs: Libs, env: Runtime): (o: Outcome)
    ensures Consistent(s) ==> Consistent(o.after)
  {
    match ParseBody(req.body)
    case None => Outcome(InternalError, s)
    case Some(data) =>
      if MissingRequired(data) then Outcome(MissingGoalFields, s)
      else
        match GoalModel.Create(data["userId" := Str(user.id)], env.newObjectId, env.now, libs.parseDate)
        case None => Outcome(InternalError, s)
        case Some(g) =>
          match InsertGoal(s, g)
          case None => Outcome(InternalError, s)
          case Some(t) => Outcome(Reply(201, GoalJson(g)), t)
  }

  /** The whole handler, on a snapshot of the store. */
  function Handle(s: State, req: Request, libs: Libs, env: Runtime): (o: Outcome)
    ensures Consistent(s) ==> Consistent(o.after)
  {
    match GetUserFromRequest(libs, env, req)
    case None => Outcome(Unauthorized, s)
    case Some(user) =>
      if !env.databaseReachable then Outcome(InternalError, s)
      else if req.httpMethod == "GET" then Outcome(Reply(200, GoalsJson(GoalsOf(s, user.id))), s)
      else if req.httpMethod == "POST" then Post(s, req, user, libs, env)
      else Outcome(MethodNotAllowed, s)
  }

  /** The handler against the store, one step at a time. */
  method Handler(db: Db, req: Request, libs: Libs, env: Runtime) returns (res: Response)
    requires db.Valid()
    modifies db
    ensures db.Valid()
    ensures Outcome(res, db.Snapshot()) == Handle(old(db.Snapshot()), req, libs, env)
  {
    var user := GetUserFromRequest(libs, env, req);
    if user.None? {
      return Unauthorized;
    }
    if !env.databaseReachable {
      return InternalError;
    }
    if req.httpMethod == "GET" {
      return Reply(200, GoalsJson(GoalsOf(db.Snapshot(), user.value.id)));
    }
    if req.httpMethod != "POST" {
      return MethodNotAllowed;
    }
    var data := ParseBody(req.body);
    if data.None? {
      return InternalError;
    }
    if MissingRequired(data.value) {
      return MissingGoalFields;
    }
    var goal := GoalModel.Create(data.value["userId" := Str(user.value.id)], env.newObjectId, env.now, libs.parseDate);
    if goal.None? {
      return InternalError;
    }
    var ok := db.CreateGoal(goal.value);
    if !ok {
      return InternalError;
    }
    res := Reply(201, GoalJson(goal.value));
  }

  // Properties

  /** Without a valid session every method is refused with 401 and nothing is written. */
  lemma NoSessionUnauthorized(s: State, req: Request, libs: Libs, env: Runtime)
    requires GetUserFromRequest(libs, env, req).None?
    ensures Handle(s, req, libs, env) == Outcome(Unauthorized, s)
  {
  }

  /**
   * GET lists exactly the caller's goals, each as often as stored, newest
   * first, and writes nothing.
   */
  lemma ListIsCallersGoalsNewestFirst(s: State, req: Request, libs: Libs, env: Runtime, user: Identity)
    requires GetUserFromRequest(libs, env, req) == Some(user)
    requires env.databaseReachable && req.httpMethod == "GET"
    ensures var o := Handle(s, req, libs, env);
      && o.after == s
      && o.res.statusCode == 200 && o.res.body.GoalsJson?
      && (forall g :: g in o.res.body.goals <==> g in s.goals && g.userId == user.id)
      && (forall g :: multiset(o.res.body.goals)[g] == if g.userId == user.id then multiset(s.goals)[g] else 0)
      && NonIncreasing(o.res.body.goals, GoalCreatedAt)
  {
  }

  /** A POST whose title, start date or target date is missing or empty is a 400 and creates nothing. */
  lemma MissingFieldRejected(s: State, req: Request, libs: Libs, env: Runtime, user: Identity, data: Object)
    requires GetUserFromRequest(libs, env, req) == Some(user)
    requires env.databaseReachable && req.httpMethod == "POST"
    requires ParseBody(req.body) == Some(data)
    requires !Given(data, "title") || !Given(data, "startDate") || !Given(data, "targetDate")
    ensures Handle(s, req, libs, env) == Outcome(Reply(400, Message("Missing required fields")), s)
  {
  }

  /**
   * A 201 adds exactly one goal, returned in the body, owned by the caller
   * whatever `userId` the body gave, assembled from the body's fields over the
   * schema defaults; all other goals, users and notes stay as they were.
   */
  lemma CreatedGoalIsCallers(s: State, req: Request, libs: Libs, env: Runtime, user: Identity)
    requires GetUserFromRequest(libs, env, req) == Some(user)
    requires Handle(s, req, libs, env).res.statusCode == 201
    ensures var o := Handle(s, req, libs, env);
      && req.httpMethod == "POST" && ParseBody(req.body).Some?
      && o.res.body.GoalJson?
      && var g := o.res.body.goal;
      && g.userId == user.id
      && GoalModel.Valid(g)
      && ("createdAt" !in ParseBody(req.body).value ==> g.createdAt == env.now)
      && ("category" !in ParseBody(req.body).value ==> g.category == GoalModel.Personal)
      && ("status" !in ParseBody(req.body).value ==> g.status == GoalModel.NotStarted)
      && GoalModel.Overwritten(GoalModel.Defaults(env.newObjectId, env.now), ParseBody(req.body).value["userId" := Str(user.id)], libs.parseDate, g)
      && o.after == s.(goals := s.goals + [g])
  {
    var data := ParseBody(req.body).value;
    var g := GoalModel.Create(data["userId" := Str(user.id)], env.newObjectId, env.now, libs.parseDate).value;
    GoalModel.CreateForcesOwner(data, user.id, env.newObjectId, env.now, libs.parseDate);
  }

  /** Only a 201 changes the store. */
  lemma OnlyCreationWrites(s: State, req: Request, libs: Libs, env: Runtime)
    requires Handle(s, req, libs, env).res.statusCode != 201
    ensures Handle(s, req, libs, env).after == s
  {
  }

  /** A method other than GET or POST, with a session, is a 405 and writes nothing. */
  lemma OtherMethodNotAllowed(s: State, req: Request, libs: Libs, env: Runtime)
    requires GetUserFromRequest(libs, env, req).Some?
    requires env.databaseReachable && req.httpMethod != "GET" && req.httpMethod != "POST"
    ensures Handle(s, req, libs, env) == Outcome(MethodNotAllowed, s)
  {
  }

  /** The request's answer is one of the statuses the handler writes. */
  lemma StatusCodes(s: State, req: Request, libs: Libs, env: Runtime)
    ensures Handle(s, req, libs, env).res.statusCode in {200, 201, 400, 401, 405, 500}
  {
  }
}
