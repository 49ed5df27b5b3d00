# GoalTrackr server core in Dafny

A model of the GoalTrackr API: the Netlify function handlers behind the goal
tracker. It covers registration, login, the current user and logout, goal
listing, creation, reading, merging and deletion, progress notes, and the
session helpers they share. The handlers run over an owner-scoped document
store of users, goals and progress notes.

How the model is set up:

- **Store.** The store is a class `Store.Db` whose three collections are
  sequences. Each write is a method that changes the collection. It is proved
  equal to a pure transformer on a `Store.State` snapshot (`InsertGoal`,
  `SaveGoal`, `DeleteGoal`, …).
- **Handlers.** Every stateful handler is a method `Handler` that works
  against the `Db` step by step, in the source's order of early returns.
  Its contract ties the answer and the new store to a pure function `Handle`
  of the old snapshot. The lemmas beside `Handle` state what each handler
  promises:
  - which status wins, given the order of the checks;
  - that a refused request writes nothing;
  - that the owner is forced on create;
  - that lists are filtered, sorted newest first and truncated;
  - what a `PUT` merge overwrites.
- **Libraries.** bcrypt, jsonwebtoken and the Date cast are uninterpreted
  functions, carried in a `Libraries.Libs` value. Two predicates say when
  they behave as documented: `JwtSound` (a signed token verifies to its
  claims) and `BcryptSound` (a password matches its hash).
- **Runtime.** The environment is a `Http.Runtime` value:
  - the `JWT_SECRET` variable;
  - whether `connectToDatabase` succeeds;
  - the clock;
  - the next fresh ObjectId.
- **Cookies.** A cookie is the record `cookie.serialize` is given, written
  into the response's header map. `Http.Receive` is what a browser does with
  it (RFC 6265, sections 5.2.2 and 5.3). With `Receive`, sessions can be
  followed from one request to the next.

Three points in the code need a decision. Each is modelled as follows:

- **`setAuthCookie` and `clearAuthCookie`.** They call `res.setHeader`, but
  every caller passes a plain `{ statusCode, body }` object, which has no such
  method. Two versions are modelled:
  - The main model (`Handle`) writes the cookie into the headers, as evidently
    intended.
  - `HandleAsWritten` models the TypeError. In register and login the `catch`
    turns it into a 500, after the account is already created. In logout
    nothing catches it.

  Both versions, with lemmas, appear under "Findings".
- **Where the hash is stored.** `/api/register` stores the hash under
  `password`. `/api/auth/register` stores it under `passwordHash`. Login
  compares against `password`. The user schema is not part of this model, so
  a user record keeps both paths as optional fields. Login with no `password`
  path answers 500, because bcrypt throws on an undefined hash.
  `Scenarios.AuthRegisterThenLoginFails` shows that accounts made by
  `/api/auth/register` cannot log in.
- **Ownership.** Goal and note deletion remove by `_id` alone, after a
  separate owner-scoped lookup. `PUT` merges every schema path of the body,
  `userId` included: `GoalsDetailApi.PutMovesOwner` shows a goal handed to
  another user. An `_id` in a `PUT` body other than the goal's own makes the
  save fail (500).

Two behaviours of the code that a reader of the endpoint list might not expect
are modelled as the code has them:

- Logout performs no session check.
- A body that fails the schema's casts or validators at `create` or `save`
  answers 500, not 400.

## Model

| member | source | states |
|---|---|---|
| Json.ParseBody | GoalTrackr/api/goals.ts:27 | an absent body reads as `{}`, a parsed body is its own fields, and only a malformed body fails to parse |
| Casts.CastString | GoalTrackr/api/models/Goal.ts:17 | a string is kept, a number becomes its decimal text (`String(n)`), a boolean becomes "true" or "false", null and objects fail; a truthy value never casts to ""; exact for integers below 10^21 in magnitude (see "## Left out") |
| Casts.NumCastParsesBack | GoalTrackr/api/models/Goal.ts:17 | a non-negative number below 10^21 (written as plain digits by `String(n)`) cast to a String path parses back to that number |
| Casts.CastNullableString | GoalTrackr/api/models/Goal.ts:18 | the optional `description` path: `null` is stored as null, anything else casts exactly as a String path does |
| Casts.CastObjectId | GoalTrackr/api/models/Goal.ts:16 | only a JSON string casts to an id, and to itself |
| Casts.CastDate | GoalTrackr/api/models/Goal.ts:24 | a number is a timestamp, a non-empty string goes through the date parser, and the empty string and anything else fail; exact for timestamps within the JavaScript Date range (see "## Left out") |
| Casts.Assign | GoalTrackr/api/models/Goal.ts:15-32 | a path present in the fields takes its cast; an absent one keeps the current value |
| Casts.ParseInt | GoalTrackr/api/progress.ts:35 | `parseInt` without a radix: after `0x`/`0X` it fails exactly when no hexadecimal digit follows; otherwise it fails exactly when the text does not start with a decimal digit |
| Casts.HexPrefixParsesHex | GoalTrackr/api/progress.ts:35 | `0x` followed by hexadecimal digits parses to the value of those digits |
| Casts.ParseIntOfNatToString | GoalTrackr/api/progress.ts:35 | parsing the decimal numeral of any natural number gives that number back |
| Casts.DigitsValueOfNatToString | GoalTrackr/api/progress.ts:35 | the value of the decimal digits of `n` is `n` |
| Casts.LeadingDigitsOfDigits | GoalTrackr/api/progress.ts:35 | parsing stops only at a non-digit: an all-digit text is read whole |
| Query.Filter | GoalTrackr/api/goals.ts:19 | keeps exactly the elements satisfying the filter, each as often as before |
| Query.FirstIndex | GoalTrackr/api/goals_detail.ts:22 | the index of the first match, or none when nothing matches |
| Query.Find | GoalTrackr/api/goals_detail.ts:22 | `findOne`: a matching element when one exists, none exactly when none matches |
| Query.Insert | GoalTrackr/api/goals.ts:19 | inserting adds exactly that element |
| Query.InsertKeepsOrder | GoalTrackr/api/goals.ts:19 | inserting into a newest-first sequence keeps it newest first |
| Query.SortNewestFirst | GoalTrackr/api/goals.ts:19 | `sort({ createdAt: -1 })`: a permutation whose keys never increase |
| Query.SelectNewestFirst | GoalTrackr/api/goals.ts:19 | `find(filter).sort({ key: -1 })`: exactly the matching elements, each as often as before, keys non-increasing |
| Query.Limit | GoalTrackr/api/progress.ts:38 | `limit(n)`: a prefix of length min(n, size); a limit of 0 keeps everything |
| Query.LimitKeepsNewest | GoalTrackr/api/progress.ts:36-38 | truncating a newest-first list keeps the newest: every kept element is at least as new as every dropped one |
| GoalModel.ParseCategory | GoalTrackr/api/models/Goal.ts:19-23 | a category name parses to the category with that name, and any other text to nothing |
| GoalModel.ParseStatus | GoalTrackr/api/models/Goal.ts:26-30 | a status name parses to the status with that name, and any other text to nothing |
| GoalModel.CategoryRoundTrip | GoalTrackr/api/models/Goal.ts:19-23 | every category's name parses back to it |
| GoalModel.StatusRoundTrip | GoalTrackr/api/models/Goal.ts:26-30 | every status's name parses back to it |
| GoalModel.Defaults | GoalTrackr/api/models/Goal.ts:19-31 | the schema defaults: a new id, category Personal, status Not started, createdAt the creation time, no description |
| GoalModel.Assemble | GoalTrackr/api/models/Goal.ts:15-32 | succeeds exactly when every present schema path casts; then every present path is overwritten and every other kept |
| GoalModel.Create | GoalTrackr/api/models/Goal.ts:15-32 | succeeds exactly when `userId`, `title`, `startDate` and `targetDate` are present, every path casts and the title is not empty; defaults are Personal, Not started, the creation time and a new id |
| GoalModel.Merge | GoalTrackr/api/goals_detail.ts:40-41 | `Object.assign` then `save`: succeeds exactly when every path casts, any `_id` is the goal's own and the title stays non-empty; the result overwrites exactly the present paths |
| GoalModel.CreateFromEncode | GoalTrackr/api/models/Goal.ts:15-32 | creating from a valid goal's JSON gives back that goal |
| GoalModel.MergeEncode | GoalTrackr/api/goals_detail.ts:40-41 | merging a valid goal's JSON (same id) into any goal gives that goal |
| GoalModel.MergeEmpty | GoalTrackr/api/goals_detail.ts:40-41 | merging an empty body changes nothing |
| GoalModel.MergeIdempotent | GoalTrackr/api/goals_detail.ts:40-41 | merging the same body twice equals merging it once |
| GoalModel.CreateForcesOwner | GoalTrackr/api/goals.ts:34-37 | whatever `userId` the body holds, the created goal belongs to the overriding user |
| ProgressNoteModel.Create | GoalTrackr/api/models/ProgressNote.ts:10-15 | succeeds exactly when `goalId`, `userId` and a non-empty `content` are present and cast; the date defaults to now and the id to a new one |
| Store.FindUserByEmail | GoalTrackr/api/register.ts:20 | finds an account with that email, or none exactly when no account has it |
| Store.FindGoal | GoalTrackr/api/goals_detail.ts:22 | finds a stored goal with that id and owner, none exactly when there is none |
| Store.FindNote | GoalTrackr/api/progress.ts:67 | finds a stored note with that id and owner, none exactly when there is none |
| Store.GoalsOf | GoalTrackr/api/goals.ts:19 | exactly the user's goals, each as often as stored, `createdAt` non-increasing |
| Store.NotesOfGoal | GoalTrackr/api/progress.ts:31 | exactly the user's notes on that goal, each as often as stored, newest first |
| Store.NotesOf | GoalTrackr/api/progress.ts:36-37 | exactly the user's notes, each as often as stored, newest first |
| Store.PopulateNote | GoalTrackr/api/progress.ts:39 | attaches the id and title of the goal with the note's `goalId`, or nothing when no such goal exists |
| Store.PopulateAll | GoalTrackr/api/progress.ts:39 | every note of the result is populated in place, in order |
| Store.RecentNotes | GoalTrackr/api/progress.ts:36-39 | the first `limit` of the user's newest-first notes, each populated: exactly `limit` of them when the user has more, all of them when `limit` is 0 or the user has no more than `limit` |
| Store.InsertUser | GoalTrackr/api/register.ts:27-31 | appends the account unless its id is taken; keeps ids unique |
| Store.InsertGoal | GoalTrackr/api/goals.ts:34-37 | appends the goal unless its id is taken; keeps the store consistent |
| Store.InsertedGoalFound | GoalTrackr/api/goals_detail.ts:22 | a goal just inserted is what the owner-scoped lookup of its id finds |
| Store.InsertNote | GoalTrackr/api/progress.ts:53-58 | appends the note unless its id is taken; keeps the store consistent |
| Store.SaveGoal | GoalTrackr/api/goals_detail.ts:41 | replaces the goal with the same id and nothing else |
| Store.DeleteGoal | GoalTrackr/api/goals_detail.ts:50 | removes the goal with that id, whoever owns it; users and notes untouched |
| Store.DeleteNote | GoalTrackr/api/progress.ts:70 | removes the note with that id, whoever owns it; users and goals untouched |
| Store.Db.CreateUser | GoalTrackr/api/register.ts:27-31 | the collection after `create` is `InsertUser` of the one before |
| Store.Db.CreateGoal | GoalTrackr/api/goals.ts:34-37 | the collection after `create` is `InsertGoal` of the one before |
| Store.Db.CreateNote | GoalTrackr/api/progress.ts:53-58 | the collection after `create` is `InsertNote` of the one before |
| Store.Db.Save | GoalTrackr/api/goals_detail.ts:41 | the collection after `save` is `SaveGoal` of the one before |
| Store.Db.DeleteOneGoal | GoalTrackr/api/goals_detail.ts:50 | the collection after `deleteOne` is `DeleteGoal` of the one before |
| Store.Db.DeleteOneNote | GoalTrackr/api/progress.ts:70 | the collection after `deleteOne` is `DeleteNote` of the one before |
| Http.Param | GoalTrackr/api/goals_detail.ts:14 | a query parameter counts only when present and non-empty |
| Http.Receive | GoalTrackr/api/utils/auth.ts:43-53 | a browser stores a cookie with a positive Max-Age and drops one with Max-Age of 0 or less |
| Auth.Secret | GoalTrackr/api/utils/auth.ts:6 | `JWT_SECRET` when set and non-empty, the fixed development default otherwise; never empty |
| Auth.HashPassword | GoalTrackr/api/utils/auth.ts:8-10 | the bcrypt hash of the password; a sound bcrypt accepts the password against it |
| Auth.ComparePassword | GoalTrackr/api/utils/auth.ts:12-14 | the bcrypt comparison; a sound bcrypt accepts a password against its own hash |
| Auth.VerifyToken | GoalTrackr/api/utils/auth.ts:22-29 | the library's verification under the secret, with every failure `None` rather than an exception; a sound library verifies a token it signed under the secret to the signed claims |
| Auth.GenerateToken | GoalTrackr/api/utils/auth.ts:16-20 | signs exactly the claims `_id`, `name`, `email` for 7 days; a sound library verifies the token back to them |
| Auth.GetUserFromRequest | GoalTrackr/api/utils/auth.ts:56-65 | no identity without a non-empty `auth_token` cookie, otherwise exactly what the token verifies to |
| Auth.SetAuthCookie | GoalTrackr/api/utils/auth.ts:31-41 | writes `auth_token` = token, httpOnly, sameSite strict, path "/", Max-Age 604800 |
| Auth.ClearAuthCookie | GoalTrackr/api/utils/auth.ts:43-53 | writes `auth_token` = "" with the same flags and Max-Age -1 |
| Auth.SessionResponse | GoalTrackr/api/register.ts:33-46 | the answer has the given status, `{ user }` and a one-week session cookie |
| Auth.SessionAuthenticates | GoalTrackr/api/utils/auth.ts:16-29 | a browser that stored a session response's cookie is that user on its next request |
| Auth.ClearedCookieEndsSession | GoalTrackr/api/utils/auth.ts:43-53 | after a cleared cookie, the browser has no `auth_token` and no session |
| Auth.Conclude | GoalTrackr/api/register.ts:33-48 | a refusal is answered as is with no write; an admission gets the session response and the new store |
| Auth.SetHeaderOnLiteral | GoalTrackr/api/utils/auth.ts:40 | `setHeader` on a plain response object always throws a TypeError |
| Auth.SetAuthCookieAsWritten | GoalTrackr/api/utils/auth.ts:31-41 | `setAuthCookie` on the callers' response literal always throws |
| Auth.ClearAuthCookieAsWritten | GoalTrackr/api/utils/auth.ts:43-53 | `clearAuthCookie` on the caller's response literal always throws |
| Auth.ConcludeAsWritten | GoalTrackr/api/register.ts:39-51 | as written, every admission ends in 500 while keeping its writes |
| Registration.NewUser | GoalTrackr/api/register.ts:27-31 | the account holds the hash under the chosen path and nothing under the other |
| Registration.Admit | GoalTrackr/api/register.ts:7-31 | admission answers 201 and keeps the store consistent and emails unique |
| Registration.EmailStaysUnique | GoalTrackr/api/register.ts:20-31 | adding an account whose email nobody has keeps emails unique |
| Registration.Register | GoalTrackr/api/register.ts:6-53 | the method's answer and store equal `Conclude` of `Admit` on the old store |
| Registration.NonPostNotAllowed | GoalTrackr/api/register.ts:7-9 | any method but POST is a 405 before anything else |
| Registration.MissingFieldsRejected | GoalTrackr/api/register.ts:16-18 | a missing or empty email, password or name is a 400 with no write |
| Registration.DuplicateEmailConflict | GoalTrackr/api/register.ts:20-23 | an email already taken is a 409 with no write |
| Registration.AdmittedAddsOneUser | GoalTrackr/api/register.ts:25-37 | admission appends exactly one account with the new id, the body's email and name, a fresh email and the password's hash; the claims are its `_id`, `name`, `email` |
| RegisterApi.Handle | GoalTrackr/api/register.ts:6-53 | registration keeps the store consistent and emails unique |
| RegisterApi.HandleAsWritten | GoalTrackr/api/register.ts:39-52 | as written, registration never answers 201 |
| RegisterApi.Handler | GoalTrackr/api/register.ts:6-53 | the method's answer and store equal `Handle` on the old store |
| RegisterApi.SuccessStoresHashUnderPassword | GoalTrackr/api/register.ts:25-46 | a 201 adds one account with `password` = hash(password) and no `passwordHash`; it answers just `_id`, `name`, `email` with a session cookie for them |
| RegisterApi.AsWrittenFailsAfterCreate | GoalTrackr/api/register.ts:39-51 | as written, a registration that creates the account answers 500 and the account stays |
| RegisterApi.AsWrittenRetryConflicts | GoalTrackr/api/register.ts:20-51 | as written, retrying that registration is a 409 |
| AuthRegisterApi.Handle | GoalTrackr/api/auth/register.ts:7-55 | the same flow as `/api/register`; keeps the store consistent and emails unique |
| AuthRegisterApi.HandleAsWritten | GoalTrackr/api/auth/register.ts:41-54 | as written, registration never answers 201 |
| AuthRegisterApi.Handler | GoalTrackr/api/auth/register.ts:7-55 | the method's answer and store equal `Handle` on the old store |
| AuthRegisterApi.SuccessStoresHashUnderPasswordHash | GoalTrackr/api/auth/register.ts:26-48 | a 201 adds one account with `passwordHash` = hash(password) and no `password`; answer and cookie as for `/api/register` |
| AuthRegisterApi.AsWrittenFailsAfterCreate | GoalTrackr/api/auth/register.ts:41-54 | as written, a registration that creates the account answers 500 and the account stays |
| AuthRegisterApi.AsWrittenRetryConflicts | GoalTrackr/api/auth/register.ts:21-54 | as written, retrying that registration is a 409 |
| LoginApi.Admit | GoalTrackr/api/login.ts:6-28 | admission is a 200 with no write; no refusal sets a cookie |
| LoginApi.Handle | GoalTrackr/api/login.ts:6-50 | login never changes the store |
| LoginApi.HandleAsWritten | GoalTrackr/api/login.ts:36-49 | as written, login never answers 200 and never writes |
| LoginApi.Handler | GoalTrackr/api/login.ts:6-50 | the method only reads the store, and answers what `Handle` does |
| LoginApi.NonPostNotAllowed | GoalTrackr/api/login.ts:7-9 | any method but POST is a 405 |
| LoginApi.MissingFieldsRejected | GoalTrackr/api/login.ts:16-18 | a missing or empty email or password is a 400 |
| LoginApi.FailuresAlike | GoalTrackr/api/login.ts:20-28 | an unknown email and a wrong password get the identical 401 "Invalid credentials", with no cookie |
| LoginApi.SuccessIssuesSession | GoalTrackr/api/login.ts:30-43 | a 200 answers the claims of the account whose stored password matched, with a session cookie for them |
| LoginApi.AdmitsOnMatch | GoalTrackr/api/login.ts:20-43 | a found account whose stored password matches is admitted with its `_id`, `name`, `email`, with no write |
| LoginApi.NoPasswordPathInternalError | GoalTrackr/api/login.ts:25-28 | an account without a `password` path gets a 500 |
| MeApi.Handle | GoalTrackr/api/me.ts:5-30 | the answer never sets a cookie, and no store is consulted |
| MeApi.NonGetNotAllowed | GoalTrackr/api/me.ts:6-8 | a non-GET is a 405 even without a session |
| MeApi.NoSessionUnauthorized | GoalTrackr/api/me.ts:12-15 | a GET without a valid session is a 401 |
| MeApi.AnswersClaims | GoalTrackr/api/me.ts:22-25 | a 200 answers exactly the token's claims |
| LogoutApi.Handle | GoalTrackr/api/auth/logout.ts:4-17 | a non-POST is a 405; a POST is a 200 that clears `auth_token` (empty value, Max-Age -1) |
| LogoutApi.HandleAsWritten | GoalTrackr/api/auth/logout.ts:9-16 | as written, every POST ends in an uncaught TypeError |
| LogoutApi.NoSessionNeeded | GoalTrackr/api/auth/logout.ts:9-12 | the answer to a POST does not depend on the request, session or not |
| LogoutApi.LogoutEndsSession | GoalTrackr/api/auth/logout.ts:14 | after a logout the browser's next request has no session |
| LogoutApi.NonPostKeepsCookies | GoalTrackr/api/auth/logout.ts:5-7 | a non-POST leaves the browser's cookies alone |
| GoalsApi.Post | GoalTrackr/api/goals.ts:26-43 | goal creation keeps the store consistent |
| GoalsApi.Handle | GoalTrackr/api/goals.ts:7-50 | the handler keeps the store consistent |
| GoalsApi.Handler | GoalTrackr/api/goals.ts:7-50 | the method's answer and store equal `Handle` on the old store |
| GoalsApi.NoSessionUnauthorized | GoalTrackr/api/goals.ts:10-13 | no valid session is a 401 with no write, for every method |
| GoalsApi.ListIsCallersGoalsNewestFirst | GoalTrackr/api/goals.ts:18-24 | GET lists exactly the caller's goals, each as often as stored, `createdAt` non-increasing, with no write |
| GoalsApi.MissingFieldRejected | GoalTrackr/api/goals.ts:29-32 | a missing or empty title, start date or target date is a 400 with no write |
| GoalsApi.CreatedGoalIsCallers | GoalTrackr/api/goals.ts:34-42 | a 201 appends exactly the answered goal, owned by the caller whatever the body said, built from the body over the defaults; nothing else changes |
| GoalsApi.OnlyCreationWrites | GoalTrackr/api/goals.ts:10-49 | every answer but 201 leaves the store as it was |
| GoalsApi.OtherMethodNotAllowed | GoalTrackr/api/goals.ts:45 | a method other than GET or POST is a 405 with no write |
| GoalsApi.StatusCodes | GoalTrackr/api/goals.ts:7-50 | the answer is one of 200, 201, 400, 401, 405, 500 |
| GoalsDetailApi.Put | GoalTrackr/api/goals_detail.ts:35-47 | the merge keeps the store consistent |
| GoalsDetailApi.Handle | GoalTrackr/api/goals_detail.ts:6-63 | the handler keeps the store consistent |
| GoalsDetailApi.Handler | GoalTrackr/api/goals_detail.ts:6-63 | the method's answer and store equal `Handle` on the old store |
| GoalsDetailApi.NoSessionUnauthorized | GoalTrackr/api/goals_detail.ts:9-17 | no session is a 401 even when `id` is missing |
| GoalsDetailApi.MissingIdRejected | GoalTrackr/api/goals_detail.ts:14-17 | a missing `id` is a 400 before any lookup |
| GoalsDetailApi.NotOwnedNotFound | GoalTrackr/api/goals_detail.ts:22-26 | a goal absent or owned by another user is a 404 for every method, with no write |
| GoalsDetailApi.GetReturnsStored | GoalTrackr/api/goals_detail.ts:28-33 | GET answers the owned goal as stored, with no write |
| GoalsDetailApi.PutMerges | GoalTrackr/api/goals_detail.ts:35-46 | a successful PUT replaces that goal by the body merged into it and answers the merge; nothing else changes |
| GoalsDetailApi.PutMovesOwner | GoalTrackr/api/goals_detail.ts:40-41 | a `userId` in the body moves the goal to that user, and its former owner no longer finds it |
| GoalsDetailApi.DeleteRemovesOnlyThatGoal | GoalTrackr/api/goals_detail.ts:49-55 | DELETE removes that goal only; users and every note, the goal's own included, stay |
| GoalsDetailApi.SecondDeleteNotFound | GoalTrackr/api/goals_detail.ts:22-55 | a second DELETE of the same goal is a 404 with no write |
| GoalsDetailApi.OtherMethodNotAllowed | GoalTrackr/api/goals_detail.ts:57 | an unsupported method on an owned goal is a 405 with no write |
| GoalsDetailApi.OnlyPutAndDeleteWrite | GoalTrackr/api/goals_detail.ts:22-57 | only a 200 to PUT or DELETE changes the store |
| ProgressApi.LimitOf | GoalTrackr/api/progress.ts:35 | 10 when `limit` is absent, otherwise its parsed value (decimal, or hexadecimal after `0x`), where unparsable means no limit |
| ProgressApi.HexLimit | GoalTrackr/api/progress.ts:35-38 | `?limit=0x10` limits the listing to 16 notes |
| ProgressApi.Get | GoalTrackr/api/progress.ts:29-42 | listing never writes |
| ProgressApi.Post | GoalTrackr/api/progress.ts:44-61 | adding a note keeps the store consistent |
| ProgressApi.Delete | GoalTrackr/api/progress.ts:63-72 | deleting a note keeps the store consistent |
| ProgressApi.Handle | GoalTrackr/api/progress.ts:7-80 | the handler keeps the store consistent |
| ProgressApi.Handler | GoalTrackr/api/progress.ts:7-80 | the method's answer and store equal `Handle` on the old store |
| ProgressApi.NoSessionUnauthorized | GoalTrackr/api/progress.ts:10-13 | no session is a 401 with no write |
| ProgressApi.GoalNotesNewestFirst | GoalTrackr/api/progress.ts:30-33 | GET with `goalId` lists exactly the caller's notes on it, each as often as stored, newest first, with no write |
| ProgressApi.ForeignGoalEmptyList | GoalTrackr/api/progress.ts:30-33 | an unknown or foreign `goalId` is a 200 with an empty list, not a 404 |
| ProgressApi.RecentNotesPrefix | GoalTrackr/api/progress.ts:35-41 | GET without `goalId` answers a newest-first prefix of the caller's notes of length min(limit, count), 10 by default, each with its goal |
| ProgressApi.PostMissingGoalIdOrContent | GoalTrackr/api/progress.ts:45-47 | POST without `goalId` is a 400, then empty content is a 400; neither writes |
| ProgressApi.PostForeignGoalNotFound | GoalTrackr/api/progress.ts:50-51 | POST to a goal absent or not the caller's is a 404 with no write |
| ProgressApi.PostAddsOneNote | GoalTrackr/api/progress.ts:53-60 | a 201 appends exactly the answered note: that goal, the caller, the body's content, dated now |
| ProgressApi.CreatedFromNoteFields | GoalTrackr/api/progress.ts:53-58 | a note created from the handler's fields has that goal, the caller, the content, the date now and the new id |
| ProgressApi.DeleteRefusals | GoalTrackr/api/progress.ts:63-68 | DELETE without `noteId` is a 400, an absent or foreign note a 404, neither writes, and `goalId` plays no part |
| ProgressApi.DeleteRemovesOnlyThatNote | GoalTrackr/api/progress.ts:67-71 | DELETE of an owned note removes it and nothing else |
| ProgressApi.OtherMethodNotAllowed | GoalTrackr/api/progress.ts:74 | any other method is a 405 with no write |
| Scenarios.NewAccountFound | GoalTrackr/api/register.ts:20-31 | after registration the email finds exactly the new account |
| Scenarios.RegisterThenLogin | GoalTrackr/api/login.ts:20-43 | logging in with the credentials `/api/register` accepted succeeds, with the same user and cookie |
| Scenarios.AuthRegisterThenLoginFails | GoalTrackr/api/login.ts:25 | logging in with the credentials `/api/auth/register` accepted is a 500 |
| Scenarios.LoginThenMe | GoalTrackr/api/me.ts:12-25 | after a login, `/api/me` answers the claims the login answered |
| Scenarios.CreatedGoalListed | GoalTrackr/api/goals.ts:18-42 | a goal just created is in the caller's next listing |
| Scenarios.CreatedGoalFetched | GoalTrackr/api/goals_detail.ts:22-33 | fetching a goal just created by its id answers it as created |
| Scenarios.PostedNoteListed | GoalTrackr/api/progress.ts:30-60 | a note just added is in the next listing of that goal's notes |

## Left out

- The database connection (`utils/db.ts` is not part of this model) is a single flag, `databaseReachable`. When it is false the handler answers 500 at the point where it calls `connectToDatabase`.
- The user schema (`models/User.ts` is not part of this model). Its validators, indexes and strict-mode filtering of `password`/`passwordHash` are not modelled. A user record holds exactly what the register handlers write.
- ObjectId format: any JSON string is accepted as an id. Mongoose would reject a malformed id with a cast error, giving 500.
- Query-operator objects: a JSON object given as `email` is a cast failure (500) in the model. Mongoose would use it as a query filter.
- Mongoose casts are modelled only as far as strings, numbers, booleans, null and dates go. `null` is accepted only for `description`. Keys outside the schema are dropped. An empty string given to a Date path (`createdAt`, `startDate`, `targetDate`) is refused like `null` (500): Mongoose casts it to a null date, which for `createdAt` is stored and answered with 200/201, and which no goal in this model can hold.
- JSON parsing: a body is absent, malformed, or an object. Top-level arrays and scalars are not modelled, and numbers are integers. JSON text of responses is not modelled: bodies are datatypes.
- JavaScript numbers are doubles; the model's are unbounded integers. `JSON.parse` rounding integers above 2^53 is not modelled.
- Casts.CastString: from 10^21 in magnitude, `String(n)` writes exponent text (`1e+21`); the model writes plain digits at any size.
- Casts.NumCastParsesBack: stated only below 10^21, because from there `parseInt` of the exponent text reads just its leading digit.
- Casts.CastDate: the Date range of ±8.64e15 ms is not modelled. Outside it Mongoose refuses a numeric timestamp as an Invalid Date (500), while the model accepts every integer.
- Dates are integer timestamps. Date parsing is the uninterpreted `parseDate`.
- ProgressApi.LimitOf: leading whitespace, signs and negative limits are not modelled. Only decimal text and a `0x`/`0X` hexadecimal prefix are read. A limit with no leading digits (NaN) is treated like `limit(0)`, meaning no limit.
- Ties in `createdAt` or `date` are ordered one fixed way. The database's order among equal keys is unspecified.
- bcrypt: the random salt is folded into the uninterpreted `hash`. Both register handlers hash with the same function.
- jsonwebtoken: expiry is not modelled. There is no clock inside verify, and no `iat`/`exp` claims. `JwtSound` speaks of tokens within their lifetime.
- Cookies:
  - header text, quoting and `cookie.parse` are not modelled; a request carries the parsed cookie map;
  - the `NODE_ENV`-dependent `secure` flag is left out.
- Auth.SetAuthCookie, Auth.ClearAuthCookie: `setHeader` changes the response object in place. The model returns a new response value instead: update in place and aliasing of the response are not captured.
- A `PUT` body whose `_id` differs from the goal's own is modelled as a failing `save()` (500). Mongoose's handling of an `_id` overwritten by `Object.assign` is not followed further.
- Concurrency: handlers run one at a time. The race between `findOne` and `deleteOne` is not modelled.
- `console` logging and `context.callbackWaitsForEmptyEventLoop` have no effect on the model.
- The front end (pages, components, client state) is not part of this model.

## Findings

| source | as written | input that shows it | evidently intended | confidence | as-written member | corrected member |
|---|---|---|---|---|---|---|
| GoalTrackr/api/register.ts:39-46 | `setAuthCookie` calls `setHeader` on a plain object literal, which throws a TypeError. The `catch` answers 500 after the account was created, and a retry then gets 409 | any valid registration, e.g. `POST {email:"a@b", password:"p", name:"n"}` on an empty store | 201 with `{ user }` and the session cookie in the headers | high; not executed | RegisterApi.HandleAsWritten (RegisterApi.AsWrittenFailsAfterCreate, RegisterApi.AsWrittenRetryConflicts) | RegisterApi.Handle (RegisterApi.SuccessStoresHashUnderPassword) |
| GoalTrackr/api/auth/register.ts:41-48 | the same `setHeader` call on a literal: 500 after the account was created | any valid registration | 201 with `{ user }` and the session cookie | high; not executed | AuthRegisterApi.HandleAsWritten (AuthRegisterApi.AsWrittenFailsAfterCreate) | AuthRegisterApi.Handle (AuthRegisterApi.SuccessStoresHashUnderPasswordHash) |
| GoalTrackr/api/login.ts:36-43 | the same `setHeader` call on a literal: every correct login answers 500 | `POST {email, password}` matching a stored account | 200 with `{ user }` and the session cookie | high; not executed | LoginApi.HandleAsWritten | LoginApi.Handle (LoginApi.SuccessIssuesSession, Scenarios.LoginThenMe) |
| GoalTrackr/api/auth/logout.ts:9-14 | `clearAuthCookie` calls `setHeader` on a literal outside any `try`, so every POST ends in an uncaught TypeError | any `POST` | 200 "Logged out successfully" with `auth_token` cleared | high; not executed | LogoutApi.HandleAsWritten | LogoutApi.Handle (LogoutApi.LogoutEndsSession) |
