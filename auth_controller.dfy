/**
 * Backend/controllers/authController.js: sign-up, sign-in (with its
 * "session restored" shortcut) and sign-out, on the users collection and
 * the refresh-token store.  Every exception a handler catches becomes a
 * 500 "Server error", except in sign-out, whose handler answers 200 either way.
 */
module AuthController {

  import opened Wrappers
  import opened Jwt
  import opened Http
  import opened TokenService
  import opened UserModel
  import Text

  /**
   * The sign-up body.  A missing field is the empty string.  `city`,
   * `state` and `country` are passed to `User.create`, but the schema
   * nests them under `location`, so strict mode drops them.
   */
  datatype SignUpBody = SignUpBody(
    username: string, email: string, password: string,
    city: string, state: string, country: string, contactNumber: string)

  /** The sign-in body; the password is `None` when the field is missing. */
  datatype SignInBody = SignInBody(email: string, password: Option<string>)

  /** The account `User.create` is asked to store, under the generated id `newId`. */
  function NewAccount(body: SignUpBody, newId: UserId): (a: Account)
    ensures a.id == newId && a.email == body.email && a.username == body.username
    ensures a.password == body.password && a.contactNumber == body.contactNumber && a.version == 0
  {
    Account(newId, body.email, body.username, body.password, body.contactNumber, 0)
  }

  /** The sign-up snapshot: `toObject()` of the created document minus `__v`; the password hash stays. */
  function SignUpView(stored: Account): (s: UserSnapshot)
    ensures s.id == stored.id && s.password == Some(stored.password) && s.version.None?
  {
    FullObject(stored).(version := None)
  }

  /** The sign-in snapshot: `toObject()` of the document read with `+password`, minus `password` and `__v`. */
  function SignInView(a: Account): (s: UserSnapshot)
    ensures s.id == a.id && s.email == a.email && s.username == a.username
    ensures s.password.None? && s.version.None?
  {
    FullObject(a).(password := None, version := None)
  }

  /**
   * `User.create` accepts the new account: once trimmed it passes
   * validation, and neither its id nor its trimmed username is taken (the
   * email was checked first).
   */
  predicate Creatable(accounts: map<UserId, Account>, body: SignUpBody, newId: UserId,
                      isEmail: string -> bool, isPhone: string -> bool)
  {
    && SchemaAccepts(Normalized(NewAccount(body, newId)), isEmail, isPhone)
    && newId != "" && newId !in accounts
    && !(exists id :: id in accounts && accounts[id].username == Text.Trim(body.username))
  }

  const ServerError: Response := Response(500, "Server error", [], None)

  /** signup. */
  method SignUp(users: UserCollection, store: CredentialStore, body: SignUpBody, newId: UserId,
                hash: string -> string, isEmail: string -> bool, isPhone: string -> bool,
                now: int, production: bool, persistOk: bool) returns (resp: Response)
    requires users.Valid() && store.Valid()
    modifies users, store
    ensures users.Valid() && store.Valid()
    // an email already registered: 400, nothing created
    ensures old(users.HasEmail(body.email)) ==>
      && resp == Response(400, "User already exists", [], None)
      && users.accounts == old(users.accounts) && store.records == old(store.records)
    // validation or a unique index rejects the account: 500, nothing created
    ensures !old(users.HasEmail(body.email)) && !Creatable(old(users.accounts), body, newId, isEmail, isPhone) ==>
      && resp == ServerError
      && users.accounts == old(users.accounts) && store.records == old(store.records)
    // the account is created, then one refresh token is issued for it
    ensures !old(users.HasEmail(body.email)) && Creatable(old(users.accounts), body, newId, isEmail, isPhone) ==>
      var stored := Normalized(NewAccount(body, newId)).(password := hash(body.password));
      var user := SignUpView(stored);
      var (issued, records') := Issue(old(store.records), newId, now, persistOk);
      && users.accounts == old(users.accounts)[newId := stored]
      && store.records == records'
      && (issued.Err? ==> resp == ServerError)
      && (issued.Ok? ==> resp == Response(201, "Signed up successfully",
            [ SetCookie(RefreshCookie, issued.value, CookieOptionsFor(production)),
              SetCookie(AccessCookie, CreateAccessToken(user, now), CookieOptionsFor(production)) ],
            Some(user)))
  {
    var existing := users.FindByEmail(body.email);
    if existing.Some? {
      return Response(400, "User already exists", [], None);
    }
    var account := NewAccount(body, newId);
    var created := users.Create(account, hash, isEmail, isPhone);
    if !created {
      return ServerError;
    }
    var user := SignUpView(Normalized(account).(password := hash(body.password)));
    var accessToken := CreateAccessToken(user, now);
    var refreshToken := store.CreateRotatingRefreshToken(user.id, now, persistOk);
    if refreshToken.Err? {
      return ServerError;
    }
    var options := CookieOptionsFor(production);
    resp := Response(201, "Signed up successfully",
                     [SetCookie(RefreshCookie, refreshToken.value, options),
                      SetCookie(AccessCookie, accessToken, options)],
                     Some(user));
  }

  /**
   * signin.  The password is handed to `comparePassword`, whose result is
   * discarded: only a missing password (bcrypt throws) changes the outcome.
   * A verifying refresh cookie restores the session without consulting the
   * store, whatever user the cookie was issued to.
   */
  method SignIn(users: UserCollection, store: CredentialStore, body: SignInBody, cookies: Cookies,
                now: int, production: bool, persistOk: bool) returns (resp: Response)
    requires users.Valid() && store.Valid()
    modifies store
    ensures store.Valid()
    ensures var found := AccountByEmail(users.accounts, body.email);
      && (found.None? ==> resp == Response(400, "Invalid credentials", [], None) && store.records == old(store.records))
      && (found.Some? && body.password.None? ==> resp == ServerError && store.records == old(store.records))
      && (found.Some? && body.password.Some? ==>
            var user := SignInView(found.value);
            var options := CookieOptionsFor(production);
            && (Present(cookies.refreshToken) && VerifiesAsRefresh(cookies.refreshToken.value, now) ==>
                  && resp == Response(200, "Session restored",
                                      [SetCookie(AccessCookie, CreateAccessToken(user, now), options)], Some(user))
                  && store.records == old(store.records))
            && (Present(cookies.refreshToken) && !VerifiesAsRefresh(cookies.refreshToken.value, now) ==>
                  resp == ServerError && store.records == old(store.records))
            && (!Present(cookies.refreshToken) ==>
                  var (issued, records') := Issue(old(store.records), found.value.id, now, persistOk);
                  && store.records == records'
                  && (issued.Err? ==> resp == ServerError)
                  && (issued.Ok? ==> resp == Response(200, "Signed in successfully",
                        [ SetCookie(RefreshCookie, issued.value, options),
                          SetCookie(AccessCookie, CreateAccessToken(user, now), options) ],
                        Some(user)))))
  {
    var found := users.FindByEmail(body.email);
    if found.None? {
      return Response(400, "Invalid credentials", [], None);
    }
    if body.password.None? {
      return ServerError;
    }
    var user := SignInView(found.value);
    var options := CookieOptionsFor(production);
    if Present(cookies.refreshToken) {
      if !VerifiesAsRefresh(cookies.refreshToken.value, now) {
        return ServerError;
      }
      var accessToken := CreateAccessToken(user, now);
      return Response(200, "Session restored", [SetCookie(AccessCookie, accessToken, options)], Some(user));
    }
    var accessToken := CreateAccessToken(user, now);
    var refreshToken := store.CreateRotatingRefreshToken(user.id, now, persistOk);
    if refreshToken.Err? {
      return ServerError;
    }
    resp := Response(200, "Signed in successfully",
                     [SetCookie(RefreshCookie, refreshToken.value, options),
                      SetCookie(AccessCookie, accessToken, options)],
                     Some(user));
  }

  /** The two cookie-clearing calls of sign-out. */
  function ClearBoth(production: bool): seq<CookieOp>
  {
    [ClearCookie(RefreshCookie, CookieOptionsFor(production)), ClearCookie(AccessCookie, CookieOptionsFor(production))]
  }

  /** signout as a transition of the refresh-token records. */
  function SignOutOutcome(records: Records, cookies: Cookies, now: int, production: bool): (r: (Response, Records))
    ensures r.0.status in {200, 400}
    ensures r.0.status == 400 <==> !Present(cookies.refreshToken)
    ensures r.1.Keys <= records.Keys && |records.Keys - r.1.Keys| <= 1
  {
    if !Present(cookies.refreshToken) then (Response(400, "No token found", [], None), records)
    else if !VerifiesAsRefresh(cookies.refreshToken.value, now) then
      (Response(200, "Session expired, logged out", ClearBoth(production), None), records)
    else
      (Response(200, "Logged out successfully", ClearBoth(production), None), records - {cookies.refreshToken.value})
  }

  /**
   * Sign-out without a cookie answers 400 and clears nothing; otherwise it
   * answers 200 and clears both cookies, and a record is deleted only for a
   * token that verifies, and then it is exactly that token's record.
   */
  lemma SignOutCases(records: Records, cookies: Cookies, now: int, production: bool)
    ensures var (resp, records') := SignOutOutcome(records, cookies, now, production);
      && (!Present(cookies.refreshToken) <==> resp.status == 400)
      && (resp.status == 400 ==> resp.cookies == [] && records' == records)
      && (resp.status != 400 ==>
            (resp.status == 200 && |resp.cookies| == 2
             && resp.cookies[0] == ClearCookie(RefreshCookie, CookieOptionsFor(production))
             && resp.cookies[1] == ClearCookie(AccessCookie, CookieOptionsFor(production))))
      && records'.Keys <= records.Keys
      && (records' != records <==>
            (Present(cookies.refreshToken) && VerifiesAsRefresh(cookies.refreshToken.value, now)
             && cookies.refreshToken.value in records))
      && (records' != records ==> records' == records - {cookies.refreshToken.value})
  {
    if Present(cookies.refreshToken) && VerifiesAsRefresh(cookies.refreshToken.value, now) {
      var t := cookies.refreshToken.value;
      if t in records {
        assert t !in records - {t};
      }
    }
  }

  /**
   * Once sign-out has deleted a refresh token's record, that token can
   * never be rotated by the session gate again.
   */
  lemma {:induction false} SignedOutTokenIsDead(records: Records, cookies: Cookies, now: int, production: bool,
                                                later: int, persistOk: bool)
    requires Present(cookies.refreshToken) && VerifiesAsRefresh(cookies.refreshToken.value, now)
    ensures var records' := SignOutOutcome(records, cookies, now, production).1;
      Rotate(records', cookies.refreshToken.value, later, persistOk) == (None, records')
  {
    var records' := SignOutOutcome(records, cookies, now, production).1;
    assert cookies.refreshToken.value !in records';
    RotateRejectsConsumed(records', cookies.refreshToken.value, later, persistOk);
  }

  /** signout. */
  method SignOut(store: CredentialStore, cookies: Cookies, now: int, production: bool) returns (resp: Response)
    requires store.Valid()
    modifies store
    ensures store.Valid()
    ensures (resp, store.records) == SignOutOutcome(old(store.records), cookies, now, production)
  {
    if !Present(cookies.refreshToken) {
      return Response(400, "No token found", [], None);
    }
    var token := cookies.refreshToken.value;
    if !VerifiesAsRefresh(token, now) {
      return Response(200, "Session expired, logged out", ClearBoth(production), None);
    }
    var stored := store.FindOne(token);
    if stored.Some? {
      store.DeleteOne(token);
    } else {
      assert store.records - {token} == store.records;
    }
    resp := Response(200, "Logged out successfully", ClearBoth(production), None);
  }
}
