/** The ProgressNote schema: required goal, owner and content, and a default date. */
module ProgressNoteModel {
  import opened Wrappers
  import opened Json
  import opened Casts

  /** A stored progress note. */
  datatype Note = Note(id: string, goalId: string, userId: string, content: string, date: Date)

  /** `required: true` refuses empty content. */
  predicate Valid(n: Note) {
    n.content != ""
  }

  /**
   * `ProgressNoteModel.create(fields)`: `goalId`, `userId` and `content` are
   * required, `date` defaults to the creation time and `_id` to a new ObjectId.
   */
  function Create(fields: Object, newId: string, now: Date, parseDate: string -> Option<Date>): (r: Option<Note>)
    ensures r.Some? ==> Valid(r.value)
    ensures r.Some? <==>
      && "goalId" in fields && CastObjectId(fields["goalId"]).Some?
      && "userId" in fields && CastObjectId(fields["userId"]).Some?
      && "content" in fields && CastString(fields["content"]).Some?
      && CastString(fields["content"]) != Some("")
      && ("_id" in fields ==> CastObjectId(fields["_id"]).Some?)
      && ("date" in fields ==> CastDate(fields["date"], parseDate).Some?)
    ensures r.Some? ==>
      && Some(r.value.goalId) == CastObjectId(fields["goalId"])
      && Some(r.value.userId) == CastObjectId(fields["userId"])
      && Some(r.value.content) == CastString(fields["content"])
      && Takes(fields, "_id", CastObjectId, newId, r.value.id)
      && Takes(fields, "date", v => CastDate(v, parseDate), now, r.value.date)
  {
    if "goalId" !in fields || "userId" !in fields || "content" !in fields then None
    else
      var id :- Assign(fields, "_id", CastObjectId, newId);
      var goalId :- CastObjectId(fields["goalId"]);
      var userId :- CastObjectId(fields["userId"]);
      var content :- CastString(fields["content"]);
      var date :- Assign(fields, "date", v => CastDate(v, parseDate), now);
      var n := Note(id, goalId, userId, content, date);
      if Valid(n) then Some(n) else None
  }
}
