/**
 * The Goal schema: its enums, required paths and defaults, and the two ways a
 * goal document is written: `GoalModel.create(fields)` and
 * `Object.assign(goal, fields)` followed by `goal.save()`.
 */
module GoalModel {
  import opened Wrappers
  import opened Json
  import opened Casts

  datatype Category = Personal | Health | Career | Learning | Finance | Other

  datatype Status = NotStarted | InProgress | Completed | Archived

  function CategoryName(c: Category): string {
    match c
    case Personal => "Personal"
    case Health => "Health"
    case Career => "Career"
    case Learning => "Learning"
    case Finance => "Finance"
    case Other => "Other"
  }

  function StatusName(s: Status): string {
    match s
    case NotStarted => "Not started"
    case InProgress => "In progress"
    case Completed => "Completed"
    case Archived => "Archived"
  }

  /** The category enum validator: exactly the six names are accepted. */
  function ParseCategory(s: string): (r: Option<Category>)
    ensures r.Some? ==> CategoryName(r.value) == s
    ensures r.None? ==> forall c: Category :: CategoryName(c) != s
  {
    if s == "Personal" then Some(Personal)
    else if s == "Health" then Some(Health)
    else if s == "Career" then Some(Career)
    else if s == "Learning" then Some(Learning)
    else if s == "Finance" then Some(Finance)
    else if s == "Other" then Some(Other)
    else None
  }

  /** The status enum validator: exactly the four names are accepted. */
  function ParseStatus(s: string): (r: Option<Status>)
    ensures r.Some? ==> StatusName(r.value) == s
    ensures r.None? ==> forall t: Status :: StatusName(t) != s
  {
    if s == "Not started" then Some(NotStarted)
    else if s == "In progress" then Some(InProgress)
    else if s == "Completed" then Some(Completed)
    else if s == "Archived" then Some(Archived)
    else None
  }

  function CastCategory(v: Value): Option<Category> {
    match CastString(v)
    case None => None
    case Some(s) => ParseCategory(s)
  }

  function CastStatus(v: Value): Option<Status> {
    match CastString(v)
    case None => None
    case Some(s) => ParseStatus(s)
  }

  /** A stored goal document; `description` is the one path that may be unset. */
  datatype Goal = Goal(
    id: string,
    userId: string,
    title: string,
    description: Option<string>,
    category: Category,
    startDate: Date,
    targetDate: Date,
    status: Status,
    createdAt: Date)

  /**
   * The validators the field types do not already enforce: `required` refuses
   * an empty title. (The other required paths cannot be empty once cast.)
   */
  predicate Valid(g: Goal) {
    g.title != ""
  }

  /** Every path present in `fields` casts to its schema type. */
  ghost predicate Castable(fields: Object, parseDate: string -> Option<Date>) {
    && ("_id" in fields ==> CastObjectId(fields["_id"]).Some?)
    && ("userId" in fields ==> CastObjectId(fields["userId"]).Some?)
    && ("title" in fields ==> CastString(fields["title"]).Some?)
    && ("description" in fields ==> CastNullableString(fields["description"]).Some?)
    && ("category" in fields ==> CastCategory(fields["category"]).Some?)
    && ("startDate" in fields ==> CastDate(fields["startDate"], parseDate).Some?)
    && ("targetDate" in fields ==> CastDate(fields["targetDate"], parseDate).Some?)
    && ("status" in fields ==> CastStatus(fields["status"]).Some?)
    && ("createdAt" in fields ==> CastDate(fields["createdAt"], parseDate).Some?)
  }

  /**
   * `g` is `base` with every schema path present in `fields` replaced by its
   * cast, and every other path as in `base`. Keys outside the schema are dropped.
   */
  ghost predicate Overwritten(base: Goal, fields: Object, parseDate: string -> Option<Date>, g: Goal) {
    && Takes(fields, "_id", CastObjectId, base.id, g.id)
    && Takes(fields, "userId", CastObjectId, base.userId, g.userId)
    && Takes(fields, "title", CastString, base.title, g.title)
    && Takes(fields, "description", CastNullableString, base.description, g.description)
    && Takes(fields, "category", CastCategory, base.category, g.category)
    && Takes(fields, "startDate", v => CastDate(v, parseDate), base.startDate, g.startDate)
    && Takes(fields, "targetDate", v => CastDate(v, parseDate), base.targetDate, g.targetDate)
    && Takes(fields, "status", CastStatus, base.status, g.status)
    && Takes(fields, "createdAt", v => CastDate(v, parseDate), base.createdAt, g.createdAt)
  }

  /** Writes the schema paths of `fields` over `base`; fails on any cast error. */
  function Assemble(base: Goal, fields: Object, parseDate: string -> Option<Date>): (r: Option<Goal>)
    ensures r.Some? <==> Castable(fields, parseDate)
    ensures r.Some? ==> Overwritten(base, fields, parseDate, r.value)
  {
    var id := Assign(fields, "_id", CastObjectId, base.id);
    var userId := Assign(fields, "userId", CastObjectId, base.userId);
    var title := Assign(fields, "title", CastString, base.title);
    var description := Assign(fields, "description", CastNullableString, base.description);
    var category := Assign(fields, "category", CastCategory, base.category);
    var startDate := Assign(fields, "startDate", v => CastDate(v, parseDate), base.startDate);
    var targetDate := Assign(fields, "targetDate", v => CastDate(v, parseDate), base.targetDate);
    var status := Assign(fields, "status", CastStatus, base.status);
    var createdAt := Assign(fields, "createdAt", v => CastDate(v, parseDate), base.createdAt);
    if && id.Some? && userId.Some? && title.Some? && description.Some? && category.Some?
       && startDate.Some? && targetDate.Some? && status.Some? && createdAt.Some?
    then
      Some(Goal(id.value, userId.value, title.value, description.value, category.value,
                startDate.value, targetDate.value, status.value, createdAt.value))
    else None
  }

  /**
   * The schema defaults: `_id` a new ObjectId, category Personal, status Not
   * started, createdAt the creation time. The required paths get placeholders
   * that `Create` never lets through.
   */
  function Defaults(newId: string, now: Date): (g: Goal)
    ensures g.id == newId && g.createdAt == now
    ensures g.category == Personal && g.status == NotStarted
    ensures g.description.None?
  {
    Goal(newId, "", "", None, Personal, 0, 0, NotStarted, now)
  }

  /** The paths a goal cannot be created without. */
  predicate HasRequired(fields: Object) {
    "userId" in fields && "title" in fields && "startDate" in fields && "targetDate" in fields
  }

  /**
   * `GoalModel.create(fields)`: casting over the defaults, then validation.
   * `None` is the error `create` rejects with.
   */
  function Create(fields: Object, newId: string, now: Date, parseDate: string -> Option<Date>): (r: Option<Goal>)
    ensures r.Some? <==> HasRequired(fields) && Castable(fields, parseDate) && CastString(fields["title"]) != Some("")
    ensures r.Some? ==> Valid(r.value) && Overwritten(Defaults(newId, now), fields, parseDate, r.value)
    ensures r.Some? && "category" !in fields ==> r.value.category == Personal
    ensures r.Some? && "status" !in fields ==> r.value.status == NotStarted
    ensures r.Some? && "createdAt" !in fields ==> r.value.createdAt == now
    ensures r.Some? && "description" !in fields ==> r.value.description == None
  {
    if !HasRequired(fields) then None
    else
      var g :- Assemble(Defaults(newId, now), fields, parseDate);
      if Valid(g) then Some(g) else None
  }

  /**
   * `Object.assign(goal, fields); goal.save()`: every schema path in `fields`
   * overwrites the stored one, then the document is validated. An `_id` other
   * than the goal's own keeps the save from succeeding.
   */
  function Merge(goal: Goal, fields: Object, parseDate: string -> Option<Date>): (r: Option<Goal>)
    ensures r.Some? <==>
      && Castable(fields, parseDate)
      && ("_id" in fields ==> CastObjectId(fields["_id"]) == Some(goal.id))
      && (if "title" in fields then CastString(fields["title"]) != Some("") else Valid(goal))
    ensures r.Some? ==> Valid(r.value) && r.value.id == goal.id && Overwritten(goal, fields, parseDate, r.value)
  {
    var g :- Assemble(goal, fields, parseDate);
    if g.id == goal.id && Valid(g) then Some(g) else None
  }

  /**
   * The JSON text of a goal, as a client would send it back, with the dates
   * written as timestamps.
   */
  function Encode(g: Goal): Object {
    map[
      "_id" := Str(g.id),
      "userId" := Str(g.userId),
      "title" := Str(g.title),
      "description" := (match g.description case None => Null case Some(d) => Str(d)),
      "category" := Str(CategoryName(g.category)),
      "startDate" := Num(g.startDate),
      "targetDate" := Num(g.targetDate),
      "status" := Str(StatusName(g.status)),
      "createdAt" := Num(g.createdAt)]
  }

  lemma CategoryRoundTrip(c: Category)
    ensures ParseCategory(CategoryName(c)) == Some(c)
  {
  }

  lemma StatusRoundTrip(s: Status)
    ensures ParseStatus(StatusName(s)) == Some(s)
  {
  }

  /** Creating a goal from the encoding of a valid goal gives back that goal. */
  lemma {:induction false} CreateFromEncode(g: Goal, newId: string, now: Date, parseDate: string -> Option<Date>)
    requires Valid(g)
    ensures Create(Encode(g), newId, now, parseDate) == Some(g)
  {
    CategoryRoundTrip(g.category);
    StatusRoundTrip(g.status);
  }

  /** A `PUT` of a complete document with the same `_id` replaces every path. */
  lemma {:induction false} MergeEncode(goal: Goal, g: Goal, parseDate: string -> Option<Date>)
    requires Valid(g) && g.id == goal.id
    ensures Merge(goal, Encode(g), parseDate) == Some(g)
  {
    CategoryRoundTrip(g.category);
    StatusRoundTrip(g.status);
  }

  /** A `PUT` with an empty body saves the goal unchanged. */
  lemma MergeEmpty(goal: Goal, parseDate: string -> Option<Date>)
    requires Valid(goal)
    ensures Merge(goal, map[], parseDate) == Some(goal)
  {
  }

  /** Repeating the same `PUT` changes nothing more: the merge is idempotent. */
  lemma MergeIdempotent(goal: Goal, fields: Object, parseDate: string -> Option<Date>)
    requires Merge(goal, fields, parseDate).Some?
    ensures var m := Merge(goal, fields, parseDate).value;
      Merge(m, fields, parseDate) == Some(m)
  {
  }

  /**
   * The spread-then-override of `{ ...data, userId }`: whatever `data` says,
   * a goal created from it belongs to `userId`.
   */
  lemma CreateForcesOwner(data: Object, userId: string, newId: string, now: Date, parseDate: string -> Option<Date>)
    requires Create(data["userId" := Str(userId)], newId, now, parseDate).Some?
    ensures Create(data["userId" := Str(userId)], newId, now, parseDate).value.userId == userId
  {
  }
}
