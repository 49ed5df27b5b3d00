/**
 * The foreign libraries the core calls (bcryptjs, jsonwebtoken and the date
 * parser behind Mongoose's Date cast), as uninterpreted functions. They are the
 * fields of a `Libs` value that every handler receives; the model's properties
 * hold for every choice of them, or for every choice meeting the stated
 * soundness assumptions.
 */
module Libraries {
  import opened Wrappers
  import opened Casts

  /** The `User` type shared with the front end: the claims a session token binds. */
  datatype Identity = Identity(id: string, name: string, email: string)

  /** What `jwt.sign` is given: the claims and the lifetime in seconds. */
  datatype TokenPayload = TokenPayload(claims: Identity, expiresInSeconds: int)

  datatype Libs = Libs(
    /** `bcrypt.hash(password, 10)`; the random salt is folded into the function. */
    hash: string -> string,
    /** `bcrypt.compare(password, hash)`. */
    compare: (string, string) -> bool,
    /** `jwt.sign(payload, secret, { expiresIn })`. */
    sign: (TokenPayload, string) -> string,
    /**
     * `jwt.verify(token, secret)`: the decoded claims, or `None` wherever the
     * library throws (bad signature, expired, malformed).
     */
    verify: (string, string) -> Option<Identity>,
    /** The Date cast of a string (`new Date(text)`); `None` for an invalid date. */
    parseDate: string -> Option<Date>)

  /**
   * The token library works as documented, for tokens within their lifetime:
   * a signed token is never empty, and verifying it with the same secret gives
   * back the claims it was signed with.
   */
  ghost predicate JwtSound(libs: Libs) {
    forall p: TokenPayload, k: string ::
      libs.sign(p, k) != "" && libs.verify(libs.sign(p, k), k) == Some(p.claims)
  }

  /** A password matches its own hash. */
  ghost predicate BcryptSound(libs: Libs) {
    forall p: string :: libs.compare(p, libs.hash(p))
  }
}
