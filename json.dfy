/**
 * The parsed JSON request bodies the handlers read, and JavaScript's notion of a
 * truthy value, which every `if (!data.x)` check of the handlers uses.
 */
module Json {
  import opened Wrappers

  /**
   * A JSON value. Numbers are integers in this model; arrays and nested objects,
   * which no handler looks into, are all `Compound`.
   */
  datatype Value = Str(s: string) | Num(n: int) | Bool(b: bool) | Null | Compound

  /** A JSON object: what `JSON.parse` returns for the bodies the handlers accept. */
  type Object = map<string, Value>

  /**
   * `event.body` as a handler receives it: missing or empty (`NoBody`), text that
   * `JSON.parse` rejects (`Malformed`), or a JSON object.
   */
  datatype Body = NoBody | Malformed | Parsed(fields: Object)

  /** JavaScript truthiness: `""`, `0`, `false` and `null` are falsy. */
  predicate Truthy(v: Value) {
    match v
    case Str(s) => s != ""
    case Num(n) => n != 0
    case Bool(b) => b
    case Null => false
    case Compound => true
  }

  /** `!!obj[key]`: an absent key reads as `undefined`, which is falsy. */
  predicate Given(o: Object, key: string) {
    key in o && Truthy(o[key])
  }

  /** `JSON.parse(event.body || '{}')`: a missing body parses as the empty object. */
  function ParseBody(b: Body): (r: Option<Object>)
    ensures r.None? <==> b.Malformed?
    ensures b.NoBody? ==> r == Some(map[])
    ensures b.Parsed? ==> r == Some(b.fields)
  {
    match b
    case NoBody => Some(map[])
    case Malformed => None
    case Parsed(fields) => Some(fields)
  }
}
