/**
 * `/api/progress`: the caller's progress notes, for one goal or the most
 * recent ones (GET), adding a note to an owned goal (POST), and deleting a
 * note (DELETE).
 */
module ProgressApi {
  import opened Wrappers
  import opened Json
  import opened Casts
  import opened Query
  import opened Libraries
  import opened Store
  import opened Http
  import opened Auth
  import ProgressNoteModel

  const DefaultLimit := 10

  const MissingGoalId := Reply(400, Plain("Missing goalId"))

  const MissingContent := Reply(400, Plain("Missing content"))

  const GoalNotFound := Reply(404, Plain("Goal not found"))

  const MissingNoteId := Reply(400, Plain("Missing noteId for delete"))

  const NoteNotFound := Reply(404, Plain("Note not found"))

  const NoteDeleted := Reply(200, Message("Note deleted"))

  /**
   * The `limit` parameter: 10 when absent or empty, otherwise `parseInt` of it,
   * where no leading digits (NaN) or 0 both mean no limit.
   */
  function LimitOf(req: Request): (n: nat)
    ensures Param(req, "limit").None? ==> n == DefaultLimit
    ensures Param(req, "limit").Some? && ParseInt(Param(req, "limit").value).Some? ==>
      n == ParseInt(Param(req, "limit").value).value
    ensures Param(req, "limit").Some? && ParseInt(Param(req, "limit").value).None? ==> n == 0
  {
    match Param(req, "limit")
    case None => DefaultLimit
    case Some(text) =>
      match ParseInt(text)
      case None => 0
      case Some(k) => k
  }

  /** `?limit=0x10` is read as hexadecimal: the listing is limited to 16 notes. */
  lemma HexLimit(req: Request)
    requires Param(req, "limit") == Some("0x10")
    ensures LimitOf(req) == 16
  {
    HexPrefixParsesHex("10");
    assert "0x" + "10" == "0x10";
  }

  /** The fields POST hands to `ProgressNoteModel.create`. */
  function NoteFields(goalId: string, user: Identity, content: Value, now: Date): Object {
    map["goalId" := Str(goalId), "userId" := Str(user.id), "content" := content, "date" := Num(now)]
  }

  function Get(s: State, req: Request, user: Identity): (o: Outcome)
    ensures o.after == s
  {
    match Param(req, "goalId")
    case Some(goalId) => Outcome(Reply(200, NotesJson(NotesOfGoal(s, goalId, user.id))), s)
    case None => Outcome(Reply(200, PopulatedNotesJson(RecentNotes(s, user.id, LimitOf(req)))), s)
  }

  function Post(s: State, req: Request, user: Identity, libs: Libs, env: Runtime): (o: Outcome)
    ensures Consistent(s) ==> Consistent(o.after)
  {
    match Param(req, "goalId")
    case None => Outcome(MissingGoalId, s)
    case Some(goalId) =>
      match ParseBody(req.body)
      case None => Outcome(InternalError, s)
      case Some(data) =>
        if !Given(data, "content") then Outcome(MissingContent, s)
        else if FindGoal(s, goalId, user.id).None? then Outcome(GoalNotFound, s)
        else
          match ProgressNoteModel.Create(NoteFields(goalId, user, data["content"], env.now), env.newObjectId, env.now, libs.parseDate)
          case None => Outcome(InternalError, s)
          case Some(n) =>
            match InsertNote(s, n)
            case None => Outcome(InternalError, s)
            case Some(t) => Outcome(Reply(201, NoteJson(n)), t)
  }

  function Delete(s: State, req: Request, user: Identity): (o: Outcome)
    ensures Consistent(s) ==> Consistent(o.after)
  {
    match Param(req, "noteId")
    case None => Outcome(MissingNoteId, s)
    case Some(noteId) =>
      if FindNote(s, noteId, user.id).None? then Outcome(NoteNotFound, s)
      else Outcome(NoteDeleted, DeleteNote(s, noteId))
  }

  /** The whole handler, on a snapshot of the store. */
  function Handle(s: State, req: Request, libs: Libs, env: Runtime): (o: Outcome)
    ensures Consistent(s) ==> Consistent(o.after)
  {
    match GetUserFromRequest(libs, env, req)
    case None => Outcome(Unauthorized, s)
    case Some(user) =>
      if !env.databaseReachable then Outcome(InternalError, s)
      else if req.httpMethod == "GET" then Get(s, req, user)
      else if req.httpMethod == "POST" then Post(s, req, user, libs, env)
      else if req.httpMethod == "DELETE" then Delete(s, req, user)
      else Outcome(MethodNotAllowed, s)
  }

  /** The handler against the store. */
  method Handler(db: Db, req: Request, libs: Libs, env: Runtime) returns (res: Response)
    requires db.Valid()
    modifies db
    ensures db.Valid()
    ensures Outcome(res, db.Snapshot()) == Handle(old(db.Snapshot()), req, libs, env)
  {
    var user := GetUserFromRequest(libs, env, req);
    if user.None? {
      return Unauthorized;
    }
    var goalId := Param(req, "goalId");
    var noteId := Param(req, "noteId");
    if !env.databaseReachable {
      return InternalError;
    }
    if req.httpMethod == "GET" {
      if goalId.Some? {
        return Reply(200, NotesJson(NotesOfGoal(db.Snapshot(), goalId.value, user.value.id)));
      }
      var limit := LimitOf(req);
      return Reply(200, PopulatedNotesJson(RecentNotes(db.Snapshot(), user.value.id, limit)));
    }
    if req.httpMethod == "POST" {
      if goalId.None? {
        return MissingGoalId;
      }
      var data := ParseBody(req.body);
      if data.None? {
        return InternalError;
      }
      if !Given(data.value, "content") {
        return MissingContent;
      }
      var goal := FindGoal(db.Snapshot(), goalId.value, user.value.id);
      if goal.None? {
        return GoalNotFound;
      }
      var note := ProgressNoteModel.Create(NoteFields(goalId.value, user.value, data.value["content"], env.now), env.newObjectId, env.now, libs.parseDate);
      if note.None? {
        return InternalError;
      }
      var ok := db.CreateNote(note.value);
      if !ok {
        return InternalError;
      }
      return Reply(201, NoteJson(note.value));
    }
    if req.httpMethod == "DELETE" {
      if noteId.None? {
        return MissingNoteId;
      }
      var note := FindNote(db.Snapshot(), noteId.value, user.value.id);
      if note.None? {
        return NoteNotFound;
      }
      db.DeleteOneNote(noteId.value);
      return NoteDeleted;
    }
    res := MethodNotAllowed;
  }

  // Properties

  /** Without a valid session every method is refused with 401 and nothing is written. */
  lemma NoSessionUnauthorized(s: State, req: Request, libs: Libs, env: Runtime)
    requires GetUserFromRequest(libs, env, req).None?
    ensures Handle(s, req, libs, env) == Outcome(Unauthorized, s)
  {
  }

  /**
   * GET with `goalId` lists exactly the caller's notes on that goal, newest
   * first. A goal that does not exist or is not the caller's gives an empty
   * list with 200, not a 404.
   */
  lemma GoalNotesNewestFirst(s: State, req: Request, libs: Libs, env: Runtime, user: Identity, goalId: string)
    requires GetUserFromRequest(libs, env, req) == Some(user)
    requires env.databaseReachable && req.httpMethod == "GET" && Param(req, "goalId") == Some(goalId)
    ensures var o := Handle(s, req, libs, env);
      && o.after == s && o.res.statusCode == 200 && o.res.body.NotesJson?
      && (forall n :: n in o.res.body.notes <==> n in s.notes && n.goalId == goalId && n.userId == user.id)
      && (forall n :: multiset(o.res.body.notes)[n] ==
            if n.goalId == goalId && n.userId == user.id then multiset(s.notes)[n] else 0)
      && NonIncreasing(o.res.body.notes, NoteDate)
  {
  }

  /** A foreign or unknown `goalId` is not an error: the list is simply empty. */
  lemma ForeignGoalEmptyList(s: State, req: Request, libs: Libs, env: Runtime, user: Identity, goalId: string)
    requires GetUserFromRequest(libs, env, req) == Some(user)
    requires env.databaseReachable && req.httpMethod == "GET" && Param(req, "goalId") == Some(goalId)
    requires forall n | n in s.notes :: n.goalId != goalId || n.userId != user.id
    ensures Handle(s, req, libs, env) == Outcome(Reply(200, NotesJson([])), s)
  {
  }

  /**
   * GET without `goalId` answers a newest-first prefix of the caller's notes,
   * at most `limit` (10 by default) long, each with its goal's title looked up.
   */
  lemma RecentNotesPrefix(s: State, req: Request, libs: Libs, env: Runtime, user: Identity)
    requires GetUserFromRequest(libs, env, req) == Some(user)
    requires env.databaseReachable && req.httpMethod == "GET" && Param(req, "goalId").None?
    ensures var o := Handle(s, req, libs, env);
      && o.after == s && o.res.statusCode == 200 && o.res.body.PopulatedNotesJson?
      && var items := o.res.body.items;
      && var mine := NotesOf(s, user.id);
      && (Param(req, "limit").None? ==> |items| <= 10)
      && (LimitOf(req) > 0 ==> |items| == if |mine| < LimitOf(req) then |mine| else LimitOf(req))
      && (LimitOf(req) == 0 ==> |items| == |mine|)
      && (forall i | 0 <= i < |items| :: items[i] == PopulateNote(s, mine[i]))
      && (forall i | 0 <= i < |items| :: items[i].note in s.notes && items[i].note.userId == user.id)
      && NonIncreasing(mine, NoteDate)
  {
    var mine := NotesOf(s, user.id);
    var items := RecentNotes(s, user.id, LimitOf(req));
    assert Limit(mine, LimitOf(req)) <= mine;
    forall i | 0 <= i < |items|
      ensures items[i].note in s.notes && items[i].note.userId == user.id
    {
      assert items[i].note == mine[i];
      assert mine[i] in mine;
    }
  }

  /** POST checks `goalId` first, then content; either missing is a 400 and creates nothing. */
  lemma PostMissingGoalIdOrContent(s: State, req: Request, libs: Libs, env: Runtime)
    requires GetUserFromRequest(libs, env, req).Some?
    requires env.databaseReachable && req.httpMethod == "POST"
    ensures Param(req, "goalId").None? ==>
      Handle(s, req, libs, env) == Outcome(Reply(400, Plain("Missing goalId")), s)
    ensures Param(req, "goalId").Some? && ParseBody(req.body).Some? && !Given(ParseBody(req.body).value, "content") ==>
      Handle(s, req, libs, env) == Outcome(Reply(400, Plain("Missing content")), s)
  {
  }

  /** POST to a goal that is absent or someone else's is a 404 and creates nothing. */
  lemma PostForeignGoalNotFound(s: State, req: Request, libs: Libs, env: Runtime, user: Identity, goalId: string)
    requires GetUserFromRequest(libs, env, req) == Some(user)
    requires env.databaseReachable && req.httpMethod == "POST" && Param(req, "goalId") == Some(goalId)
    requires ParseBody(req.body).Some? && Given(ParseBody(req.body).value, "content")
    requires forall g | g in s.goals :: g.id != goalId || g.userId != user.id
    ensures Handle(s, req, libs, env) == Outcome(Reply(404, Plain("Goal not found")), s)
  {
  }

  /**
   * A 201 adds exactly one note, which is the answer: on the given goal, owned
   * by the caller, with the body's content, dated now, under a new id.
   */
  lemma PostAddsOneNote(s: State, req: Request, libs: Libs, env: Runtime, user: Identity)
    requires GetUserFromRequest(libs, env, req) == Some(user)
    requires Handle(s, req, libs, env).res.statusCode == 201
    ensures var o := Handle(s, req, libs, env);
      && req.httpMethod == "POST" && Param(req, "goalId").Some? && ParseBody(req.body).Some?
      && o.res.body.NoteJson?
      && var n := o.res.body.note;
      && n.goalId == Param(req, "goalId").value
      && n.userId == user.id
      && Some(n.content) == CastString(ParseBody(req.body).value["content"])
      && n.content != ""
      && n.date == env.now
      && n.id == env.newObjectId
      && o.after == s.(notes := s.notes + [n])
  {
    assert Handle(s, req, libs, env) == Post(s, req, user, libs, env);
    var data := ParseBody(req.body).value;
    CreatedFromNoteFields(Param(req, "goalId").value, user, data["content"], env.now, env.newObjectId, libs.parseDate);
  }

  /** A note made from `NoteFields` has that goal, owner, content and date, and the new id. */
  lemma CreatedFromNoteFields(goalId: string, user: Identity, content: Value, now: Date, newId: string, parseDate: string -> Option<Date>)
    requires ProgressNoteModel.Create(NoteFields(goalId, user, content, now), newId, now, parseDate).Some?
    ensures var n := ProgressNoteModel.Create(NoteFields(goalId, user, content, now), newId, now, parseDate).value;
      && n.goalId == goalId && n.userId == user.id
      && Some(n.content) == CastString(content) && n.content != ""
      && n.date == now && n.id == newId
  {
    var fields := NoteFields(goalId, user, content, now);
    assert fields["goalId"] == Str(goalId) && fields["userId"] == Str(user.id);
    assert fields["content"] == content && fields["date"] == Num(now) && "_id" !in fields;
  }

  /**
   * DELETE: no `noteId` is a 400; a note that is absent or someone else's is a
   * 404; both write nothing. `goalId` plays no part.
   */
  lemma DeleteRefusals(s: State, req: Request, libs: Libs, env: Runtime, user: Identity)
    requires GetUserFromRequest(libs, env, req) == Some(user)
    requires env.databaseReachable && req.httpMethod == "DELETE"
    ensures Param(req, "noteId").None? ==>
      Handle(s, req, libs, env) == Outcome(Reply(400, Plain("Missing noteId for delete")), s)
    ensures Param(req, "noteId").Some? && (forall n | n in s.notes :: n.id != Param(req, "noteId").value || n.userId != user.id) ==>
      Handle(s, req, libs, env) == Outcome(Reply(404, Plain("Note not found")), s)
    ensures Handle(s, req, libs, env) == Handle(s, req.(query := req.query - {"goalId"}), libs, env)
  {
  }

  /** DELETE of an owned note removes that note and changes nothing else. */
  lemma DeleteRemovesOnlyThatNote(s: State, req: Request, libs: Libs, env: Runtime, user: Identity, noteId: string)
    requires Consistent(s)
    requires GetUserFromRequest(libs, env, req) == Some(user)
    requires env.databaseReachable && req.httpMethod == "DELETE" && Param(req, "noteId") == Some(noteId)
    requires exists n | n in s.notes :: n.id == noteId && n.userId == user.id
    ensures var o := Handle(s, req, libs, env);
      && o.res == Reply(200, Message("Note deleted"))
      && o.after.users == s.users && o.after.goals == s.goals
      && |o.after.notes| == |s.notes| - 1
      && forall n :: n in o.after.notes <==> n in s.notes && n.id != noteId
  {
  }

  /** Any method other than GET, POST and DELETE is a 405 and writes nothing. */
  lemma OtherMethodNotAllowed(s: State, req: Request, libs: Libs, env: Runtime)
    requires GetUserFromRequest(libs, env, req).Some?
    requires env.databaseReachable && req.httpMethod !in {"GET", "POST", "DELETE"}
    ensures Handle(s, req, libs, env) == Outcome(MethodNotAllowed, s)
  {
  }
}
