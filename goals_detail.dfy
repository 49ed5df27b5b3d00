/**
 * `/api/goals_detail?id=…`: one of the caller's goals, read (GET), merged with
 * the body and saved (PUT), or deleted (DELETE).
 */
module GoalsDetailApi {
  import opened Wrappers
  import opened Json
  import opened Libraries
  import opened Store
  import opened Http
  import opened Auth
  import GoalModel

  const MissingId := Reply(400, Message("Missing Goal ID"))

  const NotFound := Reply(404, Message("Goal not found"))

  const Deleted := Reply(200, Message("Goal deleted"))

  /** PUT: `Object.assign(goal, data); goal.save()`. */
  function Put(s: State, req: Request, goal: Goal, libs: Libs): (o: Outcome)
    ensures Consistent(s) ==> Consistent(o.after)
  {
    match ParseBody(req.body)
    case None => Outcome(InternalError, s)
    case Some(data) =>
      match GoalModel.Merge(goal, data, libs.parseDate)
      case None => Outcome(InternalError, s)
      case Some(merged) =>
        match SaveGoal(s, merged)
        case None => Outcome(InternalError, s)
        case Some(t) => Outcome(Reply(200, GoalJson(merged)), t)
  }

  /** The whole handler, on a snapshot of the store. */
  function Handle(s: State, req: Request, libs: Libs, env: Runtime): (o: Outcome)
    ensures Consistent(s) ==> Consistent(o.after)
  {
    match GetUserFromRequest(libs, env, req)
    case None => Outcome(Unauthorized, s)
    case Some(user) =>
      match Param(req, "id")
      case None => Outcome(MissingId, s)
      case Some(id) =>
        if !env.databaseReachable then Outcome(InternalError, s)
        else
          match FindGoal(s, id, user.id)
          case None => Outcome(NotFound, s)
          case Some(goal) =>
            if req.httpMethod == "GET" then Outcome(Reply(200, GoalJson(goal)), s)
            else if req.httpMethod == "PUT" then Put(s, req, goal, libs)
            else if req.httpMethod == "DELETE" then Outcome(Deleted, DeleteGoal(s, id))
            else Outcome(MethodNotAllowed, s)
  }

  /** The handler against the store: the found document is merged and saved in place. */
  method Handler(db: Db, req: Request, libs: Libs, env: Runtime) returns (res: Response)
    requires db.Valid()
    modifies db
    ensures db.Valid()
    ensures Outcome(res, db.Snapshot()) == Handle(old(db.Snapshot()), req, libs, env)
  {
    var user := GetUserFromRequest(libs, env, req);
    if user.None? {
      return Unauthorized;
    }
    var id := Param(req, "id");
    if id.None? {
      return MissingId;
    }
    if !env.databaseReachable {
      return InternalError;
    }
    var goal := FindGoal(db.Snapshot(), id.value, user.value.id);
    if goal.None? {
      return NotFound;
    }
    if req.httpMethod == "GET" {
      return Reply(200, GoalJson(goal.value));
    }
    if req.httpMethod == "PUT" {
      var data := ParseBody(req.body);
      if data.None? {
        return InternalError;
      }
      var merged := GoalModel.Merge(goal.value, data.value, libs.parseDate);
      if merged.None? {
        return InternalError;
      }
      var ok := db.Save(merged.value);
      if !ok {
        return InternalError;
      }
      return Reply(200, GoalJson(merged.value));
    }
    if req.httpMethod == "DELETE" {
      db.DeleteOneGoal(id.value);
      return Deleted;
    }
    res := MethodNotAllowed;
  }

  // Properties

  /** The session is checked first: without one the answer is 401 even when `id` is missing. */
  lemma NoSessionUnauthorized(s: State, req: Request, libs: Libs, env: Runtime)
    requires GetUserFromRequest(libs, env, req).None?
    ensures Handle(s, req, libs, env) == Outcome(Unauthorized, s)
  {
  }

  /** A missing or empty `id` is a 400, before the database is touched. */
  lemma MissingIdRejected(s: State, req: Request, libs: Libs, env: Runtime)
    requires GetUserFromRequest(libs, env, req).Some?
    requires Param(req, "id").None?
    ensures Handle(s, req, libs, env) == Outcome(Reply(400, Message("Missing Goal ID")), s)
  {
  }

  /**
   * A goal that does not exist, or belongs to someone else, is a 404 for every
   * method, unsupported ones included, and nothing is written.
   */
  lemma NotOwnedNotFound(s: State, req: Request, libs: Libs, env: Runtime, user: Identity, id: string)
    requires GetUserFromRequest(libs, env, req) == Some(user)
    requires Param(req, "id") == Some(id) && env.databaseReachable
    requires forall g | g in s.goals :: g.id != id || g.userId != user.id
    ensures Handle(s, req, libs, env) == Outcome(Reply(404, Message("Goal not found")), s)
  {
  }

  /** GET on an owned goal answers that goal as stored and writes nothing. */
  lemma GetReturnsStored(s: State, req: Request, libs: Libs, env: Runtime, user: Identity, id: string)
    requires GetUserFromRequest(libs, env, req) == Some(user)
    requires Param(req, "id") == Some(id) && env.databaseReachable && req.httpMethod == "GET"
    requires Handle(s, req, libs, env).res.statusCode != 404
    ensures var o := Handle(s, req, libs, env);
      && o.after == s && o.res.statusCode == 200 && o.res.body.GoalJson?
      && o.res.body.goal in s.goals && o.res.body.goal.id == id && o.res.body.goal.userId == user.id
  {
  }

  /**
   * A successful PUT replaces the owned goal by the merge of the body into it:
   * every schema path the body carries is overwritten, every other one kept. The
   * merged goal is the answer, and nothing else in the store changes.
   */
  lemma PutMerges(s: State, req: Request, libs: Libs, env: Runtime, user: Identity, id: string)
    requires Consistent(s)
    requires GetUserFromRequest(libs, env, req) == Some(user)
    requires Param(req, "id") == Some(id) && req.httpMethod == "PUT"
    requires Handle(s, req, libs, env).res.statusCode == 200
    ensures var o := Handle(s, req, libs, env);
      && ParseBody(req.body).Some? && o.res.body.GoalJson?
      && var merged := o.res.body.goal;
      && var goal := FindGoal(s, id, user.id).value;
      && merged.id == id
      && GoalModel.Overwritten(goal, ParseBody(req.body).value, libs.parseDate, merged)
      && o.after.users == s.users && o.after.notes == s.notes
      && |o.after.goals| == |s.goals|
      && forall k | 0 <= k < |s.goals| :: o.after.goals[k] == if s.goals[k].id == id then merged else s.goals[k]
  {
  }

  /**
   * `userId` is merged like any other path: a PUT that names another owner
   * hands the goal over, and its former owner can no longer find it.
   */
  lemma PutMovesOwner(s: State, req: Request, libs: Libs, env: Runtime, user: Identity, id: string, data: Object, other: string)
    requires Consistent(s)
    requires GetUserFromRequest(libs, env, req) == Some(user)
    requires Param(req, "id") == Some(id) && req.httpMethod == "PUT"
    requires ParseBody(req.body) == Some(data) && "userId" in data && data["userId"] == Str(other)
    requires other != user.id
    requires Handle(s, req, libs, env).res.statusCode == 200
    ensures Handle(s, req, libs, env).res.body.goal.userId == other
    ensures FindGoal(Handle(s, req, libs, env).after, id, user.id).None?
  {
    var o := Handle(s, req, libs, env);
    var merged := o.res.body.goal;
    PutMerges(s, req, libs, env, user, id);
    forall g | g in o.after.goals
      ensures !(g.id == id && g.userId == user.id)
    {
      var k :| 0 <= k < |o.after.goals| && o.after.goals[k] == g;
      assert g == if s.goals[k].id == id then merged else s.goals[k];
    }
  }

  /**
   * DELETE on an owned goal removes that goal and no other; the users and all
   * progress notes, the goal's own notes included, are left alone.
   */
  lemma DeleteRemovesOnlyThatGoal(s: State, req: Request, libs: Libs, env: Runtime, user: Identity, id: string)
    requires Consistent(s)
    requires GetUserFromRequest(libs, env, req) == Some(user)
    requires Param(req, "id") == Some(id) && env.databaseReachable && req.httpMethod == "DELETE"
    requires exists g | g in s.goals :: g.id == id && g.userId == user.id
    ensures var o := Handle(s, req, libs, env);
      && o.res == Reply(200, Message("Goal deleted"))
      && o.after.users == s.users && o.after.notes == s.notes
      && |o.after.goals| == |s.goals| - 1
      && forall g :: g in o.after.goals <==> g in s.goals && g.id != id
  {
  }

  /** Deleting the same goal twice: the second request is a 404 and writes nothing. */
  lemma SecondDeleteNotFound(s: State, req: Request, libs: Libs, env: Runtime)
    requires Consistent(s)
    requires req.httpMethod == "DELETE"
    requires Handle(s, req, libs, env).res == Reply(200, Message("Goal deleted"))
    ensures var t := Handle(s, req, libs, env).after;
      Handle(t, req, libs, env) == Outcome(Reply(404, Message("Goal not found")), t)
  {
    var user := GetUserFromRequest(libs, env, req).value;
    var id := Param(req, "id").value;
    var t := Handle(s, req, libs, env).after;
    assert t == DeleteGoal(s, id);
    assert FindGoal(t, id, user.id).None?;
  }

  /** An unsupported method on an owned goal is a 405 and writes nothing. */
  lemma OtherMethodNotAllowed(s: State, req: Request, libs: Libs, env: Runtime, user: Identity, id: string)
    requires GetUserFromRequest(libs, env, req) == Some(user)
    requires Param(req, "id") == Some(id) && env.databaseReachable
    requires exists g | g in s.goals :: g.id == id && g.userId == user.id
    requires req.httpMethod !in {"GET", "PUT", "DELETE"}
    ensures Handle(s, req, libs, env) == Outcome(MethodNotAllowed, s)
  {
  }

  /** Only a 200 to PUT or DELETE changes the store. */
  lemma OnlyPutAndDeleteWrite(s: State, req: Request, libs: Libs, env: Runtime)
    requires req.httpMethod !in {"PUT", "DELETE"} || Handle(s, req, libs, env).res.statusCode != 200
    ensures Handle(s, req, libs, env).after == s
  {
  }
}
