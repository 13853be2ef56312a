/**
 * An abstract model of the signed JSON web tokens the backend issues.
 *
 * Signatures are not computed: a token that the server signed with its
 * access secret is an `AccessJwt`, one it signed with its refresh secret a
 * `RefreshJwt`, and every other string a client can present (tampered,
 * signed with another key, or plain garbage) is `Forged`.  The two secrets
 * are taken to be distinct, so a token signed with one never verifies with
 * the other.  Times are whole seconds, as in the `iat` and `exp` claims.
 */
module Jwt {

  import opened Wrappers

  /** A user identifier; the empty string stands for a missing (falsy) one. */
  type UserId = string

  /**
   * The user object embedded in an access token.  `password` and `version`
   * (Mongoose's `__v`) are present or absent depending on how the caller
   * obtained the document and which keys it deleted.
   */
  datatype UserSnapshot = UserSnapshot(
    id: UserId,
    email: string,
    username: string,
    password: Option<string>,
    version: Option<nat>)

  /** "15m": the access token lifetime in seconds. */
  const AccessLifetime: int := 15 * 60
  /** "7d": the refresh token lifetime in seconds. */
  const RefreshLifetime: int := 7 * 24 * 60 * 60

  /**
   * The server signs only the two payloads below, each with its fixed
   * lifetime, so a server-signed token is determined by its payload and its
   * issue time `iat`; its `exp` claim is `Exp`.
   */
  datatype Token =
    | AccessJwt(user: UserSnapshot, iat: int)
    | RefreshJwt(userId: UserId, iat: int)
    | Forged(raw: string)

  /** The `exp` claim of a server-signed token. */
  function Exp(t: Token): int
    requires !t.Forged?
  {
    if t.AccessJwt? then t.iat + AccessLifetime else t.iat + RefreshLifetime
  }

  /** `jwt.sign({ user }, ACCESS_TOKEN_SECRET, { expiresIn: "15m" })` at time `now`. */
  function SignAccess(user: UserSnapshot, now: int): Token
  {
    AccessJwt(user, now)
  }

  /** `jwt.sign({ userId }, REFRESH_TOKEN_SECRET, { expiresIn: "7d" })` at time `now`. */
  function SignRefresh(userId: UserId, now: int): Token
  {
    RefreshJwt(userId, now)
  }

  /**
   * `jwt.verify(token, ACCESS_TOKEN_SECRET)` at time `now` does not throw:
   * the signature is the access secret's and the token has not expired
   * (the library rejects a token once `now >= exp`).
   */
  predicate VerifiesAsAccess(t: Token, now: int)
  {
    t.AccessJwt? && now < Exp(t)
  }

  /** `jwt.verify(token, REFRESH_TOKEN_SECRET)` at time `now` does not throw. */
  predicate VerifiesAsRefresh(t: Token, now: int)
  {
    t.RefreshJwt? && now < Exp(t)
  }

  /**
   * The `userId` claim a verified refresh token decodes to; a token without
   * one decodes to a missing (falsy) identifier.
   */
  function DecodedUserId(t: Token): UserId
  {
    if t.RefreshJwt? then t.userId else ""
  }

  /** A freshly signed access token verifies exactly during its 15 minutes and carries the user. */
  lemma AccessTokenLifetime(user: UserSnapshot, issued: int, now: int)
    requires issued <= now
    ensures VerifiesAsAccess(SignAccess(user, issued), now) <==> now < issued + AccessLifetime
    ensures SignAccess(user, issued).user == user
  {
  }

  /** A freshly signed refresh token verifies exactly during its 7 days and carries the id. */
  lemma RefreshTokenLifetime(userId: UserId, issued: int, now: int)
    requires issued <= now
    ensures VerifiesAsRefresh(SignRefresh(userId, issued), now) <==> now < issued + RefreshLifetime
    ensures DecodedUserId(SignRefresh(userId, issued)) == userId
  {
  }

  /**
   * Signing is deterministic: two refresh tokens are the same string exactly
   * when they were signed for the same user in the same second.
   */
  lemma SignRefreshInjective(u1: UserId, t1: int, u2: UserId, t2: int)
    ensures SignRefresh(u1, t1) == SignRefresh(u2, t2) <==> u1 == u2 && t1 == t2
  {
  }

  /** Access and refresh tokens are never interchangeable. */
  lemma SecretsSeparate(t: Token, now: int)
    ensures !(VerifiesAsAccess(t, now) && VerifiesAsRefresh(t, now))
  {
  }
}
