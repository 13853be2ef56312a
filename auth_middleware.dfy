/**
 * Backend/middleware/authMiddleware.js: the per-request session gate.
 *
 * Fast path: a present access token that verifies puts its embedded user
 * on the request.  Slow path: without a refresh cookie the request is
 * refused with 403; otherwise the refresh token is rotated (401 when that
 * fails), its user is looked up (404 when gone), and a new access token and
 * the rotated refresh token are set as cookies before the request proceeds.
 */
module AuthMiddleware {

  import opened Wrappers
  import opened Jwt
  import opened Http
  import opened TokenService
  import opened UserModel

  /** What the gate does: call `next()` with `req.user` and the cookies it set, or answer itself. */
  datatype Gate = Pass(user: UserSnapshot, cookies: seq<CookieOp>) | Halt(status: int, message: string)

  /** The access cookie is present and verifies. */
  predicate FastPath(cookies: Cookies, now: int)
  {
    Present(cookies.accessToken) && VerifiesAsAccess(cookies.accessToken.value, now)
  }

  /** The two cookies set on slow-path success, in the order the source sets them. */
  function ReissuedCookies(user: UserSnapshot, refresh: Token, now: int, production: bool): seq<CookieOp>
  {
    [ SetCookie(AccessCookie, CreateAccessToken(user, now), CookieOptionsFor(production)),
      SetCookie(RefreshCookie, refresh, CookieOptionsFor(production)) ]
  }

  /** The gate's decision and the refresh-token records afterwards. */
  function Decide(records: Records, users: map<UserId, Account>, cookies: Cookies, now: int,
                  production: bool, persistOk: bool): (r: (Gate, Records))
    ensures r.0.Halt? ==> r.0.status in {401, 403, 404}
    ensures FastPath(cookies, now) || !Present(cookies.refreshToken) ==> r.1 == records
    ensures r.0.Pass? && !FastPath(cookies, now) ==> |r.0.cookies| == 2 && r.0.user.password.None?
    ensures r.0.Pass? && FastPath(cookies, now) ==> r.0.cookies == []
  {
    if FastPath(cookies, now) then (Pass(cookies.accessToken.value.user, []), records)
    else if !Present(cookies.refreshToken) then (Halt(403, "Please sign in again"), records)
    else
      var (rotation, records') := Rotate(records, cookies.refreshToken.value, now, persistOk);
      if rotation.None? then (Halt(401, "Invalid or expired refresh token"), records')
      else if rotation.value.userId !in users then (Halt(404, "User not found"), records')
      else
        var user := QueryView(users[rotation.value.userId]);
        (Pass(user, ReissuedCookies(user, rotation.value.refreshToken, now, production)), records')
  }

  /** The fast path attaches the token's user, sets no cookie and leaves the store alone. */
  lemma FastPathUntouched(records: Records, users: map<UserId, Account>, cookies: Cookies, now: int,
                          production: bool, persistOk: bool)
    requires FastPath(cookies, now)
    ensures Decide(records, users, cookies, now, production, persistOk)
      == (Pass(cookies.accessToken.value.user, []), records)
  {
  }

  /** Without a usable access token and without a refresh cookie: 403, store unchanged. */
  lemma NoRefreshCookie(records: Records, users: map<UserId, Account>, cookies: Cookies, now: int,
                        production: bool, persistOk: bool)
    requires !FastPath(cookies, now) && !Present(cookies.refreshToken)
    ensures Decide(records, users, cookies, now, production, persistOk) == (Halt(403, "Please sign in again"), records)
  {
  }

  /**
   * The slow path: the store always ends as the rotation leaves it; a
   * failed rotation answers 401; a rotated user that no longer exists
   * answers 404 even though the old record is already consumed (unless the
   * rotation happened in the second the old token was issued).
   */
  lemma SlowPathOutcomes(records: Records, users: map<UserId, Account>, cookies: Cookies, now: int,
                         production: bool, persistOk: bool)
    requires !FastPath(cookies, now) && Present(cookies.refreshToken)
    ensures var (g, records') := Decide(records, users, cookies, now, production, persistOk);
      var rotation := Rotate(records, cookies.refreshToken.value, now, persistOk).0;
      && records' == Rotate(records, cookies.refreshToken.value, now, persistOk).1
      && (rotation.None? <==> g == Halt(401, "Invalid or expired refresh token"))
      && (rotation.Some? && rotation.value.userId !in users <==> g == Halt(404, "User not found"))
      && (g.Halt? && g.status == 404 && now != cookies.refreshToken.value.iat
          ==> cookies.refreshToken.value !in records')
  {
    var prev := cookies.refreshToken.value;
    var rotation := Rotate(records, prev, now, persistOk).0;
    if rotation.Some? {
      RotateSuccess(records, prev, now, persistOk);
      if now == prev.iat {
        // the rotation then re-issues the identical token, so its record is back
        assert SignRefresh(prev.userId, now) == prev;
      }
    }
  }

  /**
   * Slow-path success: both cookies are set, the refresh cookie is the
   * rotated token, and the user on the request, the user in the new access
   * token and the userId of both refresh tokens all agree.
   */
  lemma {:induction false} PairSync(records: Records, users: map<UserId, Account>, cookies: Cookies, now: int,
                                    production: bool, persistOk: bool)
    requires forall id :: id in users ==> users[id].id == id
    requires !FastPath(cookies, now)
    requires Decide(records, users, cookies, now, production, persistOk).0.Pass?
    ensures var (g, records') := Decide(records, users, cookies, now, production, persistOk);
      var prev := cookies.refreshToken.value;
      && |g.cookies| == 2
      && g.cookies[0].SetCookie? && g.cookies[0].name == AccessCookie
      && g.cookies[1].SetCookie? && g.cookies[1].name == RefreshCookie
      && g.cookies[1].value == SignRefresh(prev.userId, now)
      && g.cookies[1].value in records'
      && g.user.id == prev.userId
      && g.cookies[0].value.user == g.user
      && g.cookies[1].value.userId == g.user.id
  {
    var prev := cookies.refreshToken.value;
    RotateSuccess(records, prev, now, persistOk);
  }

  /** Every cookie the gate sets is httpOnly, SameSite lax, path "/", and secure exactly in production. */
  lemma CookieOptionsFixed(records: Records, users: map<UserId, Account>, cookies: Cookies, now: int,
                           production: bool, persistOk: bool)
    ensures var g := Decide(records, users, cookies, now, production, persistOk).0;
      g.Pass? ==> forall i :: 0 <= i < |g.cookies| ==>
        var o := g.cookies[i].options;
        o.httpOnly && o.sameSite == "lax" && o.path == "/" && (o.secure <==> production)
  {
  }

  /**
   * The scenario of an expired access token with a valid, unconsumed refresh
   * token issued in an earlier second: the request passes, both cookies
   * are replaced, and the old record is gone.
   */
  lemma ExpiredAccessValidRefresh(records: Records, users: map<UserId, Account>, cookies: Cookies, now: int,
                                  production: bool)
    requires forall id :: id in users ==> users[id].id == id
    requires cookies.accessToken.Some? && cookies.accessToken.value.AccessJwt?
    requires now >= Exp(cookies.accessToken.value)
    requires cookies.refreshToken.Some? && VerifiesAsRefresh(cookies.refreshToken.value, now)
    requires cookies.refreshToken.value in records && cookies.refreshToken.value.userId in users
    requires cookies.refreshToken.value.userId != ""
    requires cookies.refreshToken.value.iat < now
    requires SignRefresh(cookies.refreshToken.value.userId, now) !in records
    ensures var (g, records') := Decide(records, users, cookies, now, production, true);
      && g.Pass? && |g.cookies| == 2
      && cookies.refreshToken.value !in records'
  {
    var prev := cookies.refreshToken.value;
    RotateSuccess(records, prev, now, true);
    assert prev != SignRefresh(prev.userId, now);
  }

  /** authenticate, on the refresh-token store and the users collection. */
  method Authenticate(store: CredentialStore, users: UserCollection, cookies: Cookies, now: int,
                      production: bool, persistOk: bool) returns (g: Gate)
    requires store.Valid()
    modifies store
    ensures store.Valid()
    ensures (g, store.records) == Decide(old(store.records), users.accounts, cookies, now, production, persistOk)
  {
    if Present(cookies.accessToken) {
      var decoded := VerifyAccessToken(cookies.accessToken.value, now);
      if decoded.Some? {
        return Pass(decoded.value, []);
      }
    }
    if !Present(cookies.refreshToken) {
      return Halt(403, "Please sign in again");
    }
    var result := store.VerifyAndRotateRefreshToken(cookies.refreshToken.value, now, persistOk);
    if result.None? {
      return Halt(401, "Invalid or expired refresh token");
    }
    var userDoc := users.FindById(result.value.userId);
    if userDoc.None? {
      return Halt(404, "User not found");
    }
    var user := QueryView(userDoc.value);
    var newAccessToken := CreateAccessToken(user, now);
    var options := CookieOptionsFor(production);
    g := Pass(user, [SetCookie(AccessCookie, newAccessToken, options),
                     SetCookie(RefreshCookie, result.value.refreshToken, options)]);
  }
}
