/**
 * Requests and responses of the Netlify function handlers, the runtime facts
 * they depend on, and what a browser does with the session cookie.
 */
module Http {
  import opened Wrappers
  import opened Json
  import opened Casts
  import opened Libraries
  import opened Store

  /**
   * An incoming event: the HTTP method, the query-string parameters, the body
   * and the cookies of the `Cookie` header (as `cookie.parse` reads them).
   */
  datatype Request = Request(httpMethod: string, query: map<string, string>, body: Body, cookies: map<string, string>)

  /**
   * What the process and the runtime supply: the `JWT_SECRET` variable, whether
   * `connectToDatabase` succeeds, the clock, and the ObjectId a new document gets.
   */
  datatype Runtime = Runtime(jwtSecret: Option<string>, databaseReachable: bool, now: Date, newObjectId: string)

  /** The options `cookie.serialize` is given, as a record (the `secure` flag aside). */
  datatype Cookie = Cookie(name: string, value: string, httpOnly: bool, sameSite: string, maxAge: int, path: string)

  /**
   * A response body: `{ message }` (`Message`), plain text (`Plain`), a goal, a
   * note, lists of them, or `{ user }`.
   */
  datatype Payload =
    | Message(text: string)
    | Plain(text: string)
    | GoalJson(goal: Goal)
    | GoalsJson(goals: seq<Goal>)
    | NoteJson(note: Note)
    | NotesJson(notes: seq<Note>)
    | PopulatedNotesJson(items: seq<PopulatedNote>)
    | UserJson(user: Identity)

  /** A response: status code, body and headers (header name to cookie record). */
  datatype Response = Response(statusCode: int, body: Payload, headers: map<string, Cookie>)

  /** What one handler invocation answers and the store it leaves behind. */
  datatype Outcome = Outcome(res: Response, after: State)

  /**
   * `event.queryStringParameters?.[name]` as the handlers test it (`if (!x)`):
   * an empty value counts as missing.
   */
  function Param(req: Request, name: string): (r: Option<string>)
    ensures r.Some? <==> name in req.query && req.query[name] != ""
    ensures r.Some? ==> r.value == req.query[name]
  {
    if name in req.query && req.query[name] != "" then Some(req.query[name]) else None
  }

  function Reply(statusCode: int, body: Payload): Response {
    Response(statusCode, body, map[])
  }

  const Unauthorized := Reply(401, Message("Unauthorized"))

  const MethodNotAllowed := Reply(405, Plain("Method Not Allowed"))

  const InternalError := Reply(500, Message("Internal Server Error"))

  /** The 400 of the register and login handlers. */
  const MissingFields := Reply(400, Message("Missing fields"))

  /**
   * The browser's cookie store after it receives `res` (RFC 6265, sections
   * 5.2.2 and 5.3): a `Set-Cookie` with a Max-Age of zero or less removes the
   * cookie, any other stores its value.
   */
  function Receive(jar: map<string, string>, res: Response): (r: map<string, string>)
    ensures "Set-Cookie" !in res.headers ==> r == jar
    ensures "Set-Cookie" in res.headers && res.headers["Set-Cookie"].maxAge <= 0 ==>
      res.headers["Set-Cookie"].name !in r
    ensures "Set-Cookie" in res.headers && res.headers["Set-Cookie"].maxAge > 0 ==>
      var c := res.headers["Set-Cookie"]; c.name in r && r[c.name] == c.value
  {
    if "Set-Cookie" !in res.headers then jar
    else
      var c := res.headers["Set-Cookie"];
      if c.maxAge <= 0 then jar - {c.name} else jar[c.name := c.value]
  }
}
