/**
 * The document store the handlers use through Mongoose: three collections
 * (users, goals, progress notes) held by a `Db` object, the queries the handlers
 * issue, and the state change each write makes.
 */
module Store {
  import opened Wrappers
  import opened Query
  import GoalModel
  import ProgressNoteModel

  type Goal = GoalModel.Goal
  type Note = ProgressNoteModel.Note

  /**
   * A user account. The user schema is not part of this model: the record keeps
   * exactly what the register handlers write, including the two names they use
   * for the password hash (`password` and `passwordHash`).
   */
  datatype User = User(id: string, email: string, name: string, password: Option<string>, passwordHash: Option<string>)

  /** The goal reference that `populate('goalId', 'title')` puts into a note. */
  datatype GoalRef = GoalRef(id: string, title: string)

  /** A note whose goal has been populated; `None` when that goal no longer exists. */
  datatype PopulatedNote = PopulatedNote(note: Note, goal: Option<GoalRef>)

  /** The contents of the three collections, in insertion order. */
  datatype State = State(users: seq<User>, goals: seq<Goal>, notes: seq<Note>)

  ghost predicate UniqueUserIds(users: seq<User>) {
    forall i, j | 0 <= i < j < |users| :: users[i].id != users[j].id
  }

  ghost predicate UniqueGoalIds(goals: seq<Goal>) {
    forall i, j | 0 <= i < j < |goals| :: goals[i].id != goals[j].id
  }

  ghost predicate UniqueNoteIds(notes: seq<Note>) {
    forall i, j | 0 <= i < j < |notes| :: notes[i].id != notes[j].id
  }

  /** No two accounts share an email address. */
  ghost predicate UniqueEmails(users: seq<User>) {
    forall i, j | 0 <= i < j < |users| :: users[i].email != users[j].email
  }

  /**
   * What the database guarantees by itself: `_id` is unique in every
   * collection, and every stored document passed its schema's validators.
   */
  ghost predicate Consistent(s: State) {
    && UniqueUserIds(s.users)
    && UniqueGoalIds(s.goals)
    && UniqueNoteIds(s.notes)
    && (forall g | g in s.goals :: GoalModel.Valid(g))
    && (forall n | n in s.notes :: ProgressNoteModel.Valid(n))
  }

  function GoalCreatedAt(g: Goal): int { g.createdAt }

  function NoteDate(n: Note): int { n.date }

  // Queries

  /** `UserModel.findOne({ email })`. */
  function FindUserByEmail(s: State, email: string): (r: Option<User>)
    ensures r.Some? ==> r.value in s.users && r.value.email == email
    ensures r.None? <==> forall u | u in s.users :: u.email != email
  {
    Find(s.users, (u: User) => u.email == email)
  }

  /** `GoalModel.findOne({ _id: id, userId })`. */
  function FindGoal(s: State, id: string, userId: string): (r: Option<Goal>)
    ensures r.Some? ==> r.value in s.goals && r.value.id == id && r.value.userId == userId
    ensures r.None? <==> forall g | g in s.goals :: !(g.id == id && g.userId == userId)
  {
    Find(s.goals, (g: Goal) => g.id == id && g.userId == userId)
  }

  /** `ProgressNoteModel.findOne({ _id: id, userId })`. */
  function FindNote(s: State, id: string, userId: string): (r: Option<Note>)
    ensures r.Some? ==> r.value in s.notes && r.value.id == id && r.value.userId == userId
    ensures r.None? <==> forall n | n in s.notes :: !(n.id == id && n.userId == userId)
  {
    Find(s.notes, (n: Note) => n.id == id && n.userId == userId)
  }

  /** `GoalModel.find({ userId }).sort({ createdAt: -1 })`. */
  function GoalsOf(s: State, userId: string): (r: seq<Goal>)
    ensures forall g :: g in r <==> g in s.goals && g.userId == userId
    ensures forall g :: multiset(r)[g] == if g.userId == userId then multiset(s.goals)[g] else 0
    ensures NonIncreasing(r, GoalCreatedAt)
  {
    SelectNewestFirst(s.goals, (g: Goal) => g.userId == userId, GoalCreatedAt)
  }

  /** `ProgressNoteModel.find({ goalId, userId }).sort({ date: -1 })`. */
  function NotesOfGoal(s: State, goalId: string, userId: string): (r: seq<Note>)
    ensures forall n :: n in r <==> n in s.notes && n.goalId == goalId && n.userId == userId
    ensures forall n :: (multiset(r)[n] ==
      if n.goalId == goalId && n.userId == userId then multiset(s.notes)[n] else 0)
    ensures NonIncreasing(r, NoteDate)
  {
    SelectNewestFirst(s.notes, (n: Note) => n.goalId == goalId && n.userId == userId, NoteDate)
  }

  /** `ProgressNoteModel.find({ userId }).sort({ date: -1 })`. */
  function NotesOf(s: State, userId: string): (r: seq<Note>)
    ensures forall n :: n in r <==> n in s.notes && n.userId == userId
    ensures forall n :: multiset(r)[n] == if n.userId == userId then multiset(s.notes)[n] else 0
    ensures NonIncreasing(r, NoteDate)
  {
    SelectNewestFirst(s.notes, (n: Note) => n.userId == userId, NoteDate)
  }

  /** `populate('goalId', 'title')` of one note: its goal, looked up by `_id` alone. */
  function PopulateNote(s: State, n: Note): (r: PopulatedNote)
    ensures r.note == n
    ensures r.goal.None? <==> forall g | g in s.goals :: g.id != n.goalId
    ensures r.goal.Some? ==> exists g | g in s.goals :: g.id == n.goalId && r.goal.value == GoalRef(g.id, g.title)
  {
    match Find(s.goals, (g: Goal) => g.id == n.goalId)
    case None => PopulatedNote(n, None)
    case Some(g) => PopulatedNote(n, Some(GoalRef(g.id, g.title)))
  }

  /**
   * `find({ userId }).sort({ date: -1 }).limit(limit).populate('goalId', 'title')`:
   * the caller's newest notes, each with its goal's title.
   */
  function RecentNotes(s: State, userId: string, limit: nat): (r: seq<PopulatedNote>)
    ensures |r| <= |NotesOf(s, userId)|
    ensures limit > 0 ==> |r| <= limit
    ensures (limit == 0 || |NotesOf(s, userId)| <= limit) ==> |r| == |NotesOf(s, userId)|
    ensures 0 < limit < |NotesOf(s, userId)| ==> |r| == limit
    ensures forall i | 0 <= i < |r| :: r[i] == PopulateNote(s, NotesOf(s, userId)[i])
  {
    var mine := NotesOf(s, userId);
    var notes := Limit(mine, limit);
    assert forall i | 0 <= i < |notes| :: notes[i] == mine[i];
    PopulateAll(s, notes)
  }

  /** `populate` over a whole query result, note by note. */
  function PopulateAll(s: State, notes: seq<Note>): (r: seq<PopulatedNote>)
    ensures |r| == |notes|
    ensures forall i | 0 <= i < |r| :: r[i] == PopulateNote(s, notes[i])
  {
    seq(|notes|, i requires 0 <= i < |notes| => PopulateNote(s, notes[i]))
  }

  // Writes

  /** `UserModel.create(u)`: refused with a duplicate-key error when `_id` is taken. */
  function InsertUser(s: State, u: User): (r: Option<State>)
    ensures r.Some? <==> forall v | v in s.users :: v.id != u.id
    ensures r.Some? ==> r.value == s.(users := s.users + [u])
    ensures r.Some? && Consistent(s) ==> Consistent(r.value)
  {
    if Find(s.users, (v: User) => v.id == u.id).Some? then None
    else Some(s.(users := s.users + [u]))
  }

  /** `GoalModel.create(...)` of a validated goal `g`. */
  function InsertGoal(s: State, g: Goal): (r: Option<State>)
    ensures r.Some? <==> forall h | h in s.goals :: h.id != g.id
    ensures r.Some? ==> r.value == s.(goals := s.goals + [g])
    ensures r.Some? && Consistent(s) && GoalModel.Valid(g) ==> Consistent(r.value)
  {
    if Find(s.goals, (h: Goal) => h.id == g.id).Some? then None
    else Some(s.(goals := s.goals + [g]))
  }

  /** `ProgressNoteModel.create(...)` of a validated note `n`. */
  function InsertNote(s: State, n: Note): (r: Option<State>)
    ensures r.Some? <==> forall m | m in s.notes :: m.id != n.id
    ensures r.Some? ==> r.value == s.(notes := s.notes + [n])
    ensures r.Some? && Consistent(s) && ProgressNoteModel.Valid(n) ==> Consistent(r.value)
  {
    if Find(s.notes, (m: Note) => m.id == n.id).Some? then None
    else Some(s.(notes := s.notes + [n]))
  }

  /** A goal just inserted is what looking up its id and owner finds. */
  lemma InsertedGoalFound(s: State, g: Goal)
    requires InsertGoal(s, g).Some?
    ensures FindGoal(InsertGoal(s, g).value, g.id, g.userId) == Some(g)
  {
    var t := InsertGoal(s, g).value;
    assert g in t.goals;
    var found := FindGoal(t, g.id, g.userId).value;
    assert found in s.goals || found == g;
  }

  /** `goal.save()`: writes `g` over the stored goal with the same `_id`. */
  function SaveGoal(s: State, g: Goal): (r: Option<State>)
    ensures r.Some? <==> exists h | h in s.goals :: h.id == g.id
    ensures r.Some? ==> r.value.users == s.users && r.value.notes == s.notes && |r.value.goals| == |s.goals|
    ensures r.Some? && UniqueGoalIds(s.goals) ==>
      forall k | 0 <= k < |s.goals| :: r.value.goals[k] == if s.goals[k].id == g.id then g else s.goals[k]
    ensures r.Some? && Consistent(s) && GoalModel.Valid(g) ==> Consistent(r.value)
  {
    match FirstIndex(s.goals, (h: Goal) => h.id == g.id)
    case None => None
    case Some(i) => Some(s.(goals := s.goals[i := g]))
  }

  /** `GoalModel.deleteOne({ _id: id })`: removes the first goal with that `_id`, if any. */
  function DeleteGoal(s: State, id: string): (r: State)
    ensures r.users == s.users && r.notes == s.notes
    ensures forall g | g in r.goals :: g in s.goals
    ensures |r.goals| == if exists g | g in s.goals :: g.id == id then |s.goals| - 1 else |s.goals|
    ensures UniqueGoalIds(s.goals) ==> forall g :: g in r.goals <==> g in s.goals && g.id != id
    ensures Consistent(s) ==> Consistent(r)
  {
    match FirstIndex(s.goals, (g: Goal) => g.id == id)
    case None => s
    case Some(i) =>
      var rest := RemoveAt(s.goals, i);
      assert forall g | g in rest :: g in s.goals by {
        forall g | g in rest ensures g in s.goals {
          var k :| 0 <= k < |rest| && rest[k] == g;
          if k >= i { assert g == s.goals[k + 1]; }
        }
      }
      s.(goals := rest)
  }

  /** `ProgressNoteModel.deleteOne({ _id: id })`. */
  function DeleteNote(s: State, id: string): (r: State)
    ensures r.users == s.users && r.goals == s.goals
    ensures forall n | n in r.notes :: n in s.notes
    ensures |r.notes| == if exists n | n in s.notes :: n.id == id then |s.notes| - 1 else |s.notes|
    ensures UniqueNoteIds(s.notes) ==> forall n :: n in r.notes <==> n in s.notes && n.id != id
    ensures Consistent(s) ==> Consistent(r)
  {
    match FirstIndex(s.notes, (n: Note) => n.id == id)
    case None => s
    case Some(i) =>
      var rest := RemoveAt(s.notes, i);
      assert forall n | n in rest :: n in s.notes by {
        forall n | n in rest ensures n in s.notes {
          var k :| 0 <= k < |rest| && rest[k] == n;
          if k >= i { assert n == s.notes[k + 1]; }
        }
      }
      s.(notes := rest)
  }

  /** The database connection's view of the three collections. */
  class Db {
    var users: seq<User>
    var goals: seq<Goal>
    var notes: seq<Note>

    function Snapshot(): State
      reads this
    {
      State(users, goals, notes)
    }

    ghost predicate Valid()
      reads this
    {
      Consistent(Snapshot())
    }

    constructor ()
      ensures Valid() && Snapshot() == State([], [], [])
    {
      users, goals, notes := [], [], [];
    }

    method CreateUser(u: User) returns (ok: bool)
      modifies this
      ensures ok == InsertUser(old(Snapshot()), u).Some?
      ensures Snapshot() == if ok then InsertUser(old(Snapshot()), u).value else old(Snapshot())
    {
      ok := Find(users, (v: User) => v.id == u.id).None?;
      if ok {
        users := users + [u];
      }
    }

    method CreateGoal(g: Goal) returns (ok: bool)
      modifies this
      ensures ok == InsertGoal(old(Snapshot()), g).Some?
      ensures Snapshot() == if ok then InsertGoal(old(Snapshot()), g).value else old(Snapshot())
    {
      ok := Find(goals, (h: Goal) => h.id == g.id).None?;
      if ok {
        goals := goals + [g];
      }
    }

    method CreateNote(n: Note) returns (ok: bool)
      modifies this
      ensures ok == InsertNote(old(Snapshot()), n).Some?
      ensures Snapshot() == if ok then InsertNote(old(Snapshot()), n).value else old(Snapshot())
    {
      ok := Find(notes, (m: Note) => m.id == n.id).None?;
      if ok {
        notes := notes + [n];
      }
    }

    method Save(g: Goal) returns (ok: bool)
      modifies this
      ensures ok == SaveGoal(old(Snapshot()), g).Some?
      ensures Snapshot() == if ok then SaveGoal(old(Snapshot()), g).value else old(Snapshot())
    {
      var i := FirstIndex(goals, (h: Goal) => h.id == g.id);
      ok := i.Some?;
      if ok {
        goals := goals[i.value := g];
      }
    }

    method DeleteOneGoal(id: string)
      modifies this
      ensures Snapshot() == DeleteGoal(old(Snapshot()), id)
    {
      var i := FirstIndex(goals, (g: Goal) => g.id == id);
      if i.Some? {
        goals := RemoveAt(goals, i.value);
      }
    }

    method DeleteOneNote(id: string)
      modifies this
      ensures Snapshot() == DeleteNote(old(Snapshot()), id)
    {
      var i := FirstIndex(notes, (n: Note) => n.id == id);
      if i.Some? {
        notes := RemoveAt(notes, i.value);
      }
    }
  }
}
