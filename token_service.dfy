/**
 * Backend/utils/tokenService.js: issuing access tokens, issuing rotating
 * refresh tokens backed by the RefreshToken collection, and rotating a
 * refresh token (consume the old record, persist a new one).
 *
 * The collection is a map from token to record.  The store operations are
 * specified by the pure functions `Issue` and `Rotate` on that map; the
 * class `CredentialStore` performs the same steps in place, in the order
 * the source performs them.
 */
module TokenService {

  import opened Wrappers
  import opened Jwt

  /** One RefreshToken document; `expiresAt` is in milliseconds, as a JavaScript `Date`. */
  datatype Record = Record(userId: UserId, token: Token, expiresAt: int)

  type Records = map<Token, Record>

  /** "Error occurred while creating refresh token". */
  datatype IssueError = PersistenceError

  /** The `{ userId, refreshToken }` object a successful rotation returns. */
  datatype Rotation = Rotation(userId: UserId, refreshToken: Token)

  /** createAccessToken: a stateless token carrying `{ user }`. */
  function CreateAccessToken(user: UserSnapshot, now: int): Token
  {
    SignAccess(user, now)
  }

  /** verifyAccessToken: the embedded user, or `None` where `jwt.verify` throws. */
  function VerifyAccessToken(t: Token, now: int): (r: Option<UserSnapshot>)
    ensures r.Some? <==> VerifiesAsAccess(t, now)
  {
    if VerifiesAsAccess(t, now) then Some(t.user) else None
  }

  /**
   * The record persisted for a refresh token: its `expiresAt` is computed
   * from the token's own decoded `exp` claim, times 1000.
   */
  function RecordFor(t: Token): Record
    requires t.RefreshJwt?
  {
    Record(t.userId, t, Exp(t) * 1000)
  }

  /** Every stored record is keyed by its own refresh token and agrees with its claims. */
  predicate Consistent(m: Records)
  {
    forall t :: t in m ==> t.RefreshJwt? && m[t] == RecordFor(t)
  }

  /**
   * createRotatingRefreshToken as a transition of the collection: sign
   * `{ userId }`, then insert its record.  The insert fails when the store
   * is unavailable (`persistOk` false) or when a record with the same token
   * already exists (the token is the collection's unique key); the error is
   * rethrown and nothing is inserted.
   */
  function Issue(m: Records, userId: UserId, now: int, persistOk: bool): (r: (Result<Token, IssueError>, Records))
    ensures r.0.Err? ==> r.1 == m
    ensures r.0.Ok? ==> r.0.value !in m && r.0.value.RefreshJwt? && r.0.value.userId == userId
                        && r.1 == m[r.0.value := RecordFor(r.0.value)]
    ensures Consistent(m) ==> Consistent(r.1)
  {
    var t := SignRefresh(userId, now);
    if persistOk && t !in m then (Ok(t), m[t := RecordFor(t)]) else (Err(PersistenceError), m)
  }

  /**
   * verifyAndRotateRefreshToken as a transition of the collection:
   * verify, look the old token up, delete its record, issue a new token for
   * the decoded userId, and return it only when that userId is truthy.
   * Every exception in between is caught and turned into `None`.
   */
  function Rotate(m: Records, prev: Token, now: int, persistOk: bool): (r: (Option<Rotation>, Records))
    ensures !(VerifiesAsRefresh(prev, now) && prev in m) ==> r == (None, m)
    ensures r.0.Some? ==> r.0.value.userId == DecodedUserId(prev) != "" && r.0.value.refreshToken in r.1
                          && r.1[r.0.value.refreshToken].userId == r.0.value.userId
    ensures r.1.Keys <= m.Keys + {SignRefresh(DecodedUserId(prev), now)}
    ensures Consistent(m) ==> Consistent(r.1)
  {
    if !VerifiesAsRefresh(prev, now) then (None, m)
    else if prev !in m then (None, m)
    else
      var userId := DecodedUserId(prev);
      var issued := Issue(m - {prev}, userId, now, persistOk);
      if issued.0.Err? then (None, issued.1)
      else if userId == "" then (None, issued.1)
      else (Some(Rotation(userId, issued.0.value)), issued.1)
  }

  /** Issuance: the returned token carries `{ userId }` for 7 days and its record agrees with it. */
  lemma IssueOutcome(m: Records, userId: UserId, now: int, persistOk: bool)
    ensures var (r, m') := Issue(m, userId, now, persistOk);
      && (r.Ok? <==> persistOk && SignRefresh(userId, now) !in m)
      && (r.Ok? ==> r.value == RefreshJwt(userId, now) && Exp(r.value) == now + 7 * 24 * 60 * 60
                    && m' == m[r.value := Record(userId, r.value, Exp(r.value) * 1000)])
      && (r.Err? ==> m' == m)
  {
  }

  /** A persistence failure raises an error instead of returning a token, and stores nothing. */
  lemma IssueFailureStoresNothing(m: Records, userId: UserId, now: int)
    ensures Issue(m, userId, now, false) == (Err(PersistenceError), m)
  {
  }

  /** A token that does not verify (bad signature or expired) is rejected and nothing changes. */
  lemma RotateRejectsUnverified(m: Records, prev: Token, now: int, persistOk: bool)
    requires !VerifiesAsRefresh(prev, now)
    ensures Rotate(m, prev, now, persistOk) == (None, m)
  {
  }

  /** A token whose record is gone (consumed or signed out) is rejected and nothing changes. */
  lemma RotateRejectsConsumed(m: Records, prev: Token, now: int, persistOk: bool)
    requires prev !in m
    ensures Rotate(m, prev, now, persistOk) == (None, m)
  {
  }

  /**
   * A successful rotation removes exactly the old record and adds exactly
   * one record, for a token of the same user issued now; it succeeds exactly
   * when the old token verifies, is stored, carries a userId, and the new
   * record can be persisted.
   */
  lemma RotateSuccess(m: Records, prev: Token, now: int, persistOk: bool)
    ensures var (r, m') := Rotate(m, prev, now, persistOk);
      && (r.Some? <==> VerifiesAsRefresh(prev, now) && prev in m && prev.userId != ""
                       && persistOk && SignRefresh(prev.userId, now) !in m - {prev})
      && (r.Some? ==> r.value.userId == prev.userId
                      && r.value.refreshToken == SignRefresh(prev.userId, now)
                      && m' == (m - {prev})[r.value.refreshToken := RecordFor(r.value.refreshToken)])
  {
  }

  /**
   * A verified, stored token whose userId claim is missing yields `None`,
   * yet its record has already been deleted and, when the write succeeds, a
   * record for a new token without a userId has been inserted; only a
   * rotation in the second the old token was issued puts the same token back.
   */
  lemma RotateFalsyUserIdConsumes(m: Records, prev: Token, now: int, persistOk: bool)
    requires VerifiesAsRefresh(prev, now) && prev in m && prev.userId == ""
    ensures var (r, m') := Rotate(m, prev, now, persistOk);
      && r == None
      && m' - {SignRefresh("", now)} == m - {prev, SignRefresh("", now)}
      && (persistOk && SignRefresh("", now) !in m - {prev} ==>
            m' == (m - {prev})[SignRefresh("", now) := RecordFor(SignRefresh("", now))])
      && (!persistOk ==> m' == m - {prev})
      && (now != prev.iat ==> prev !in m')
  {
  }

  /** Every rotation outcome leaves the store consistent with the tokens' claims. */
  lemma RotatePreservesConsistency(m: Records, prev: Token, now: int, persistOk: bool)
    requires Consistent(m)
    ensures Consistent(Rotate(m, prev, now, persistOk).1)
    ensures Consistent(Issue(m, DecodedUserId(prev), now, persistOk).1)
  {
  }

  /**
   * Single use.  After one successful rotation of `prev` at time `now1`, the
   * old record survives exactly when the rotation happened in the second
   * the old token was issued: signing is deterministic, so the "new" token
   * is then the old token itself and its record is re-inserted.  At any
   * other time a second rotation of `prev` is rejected.
   */
  lemma {:induction false} SingleUse(m: Records, prev: Token, now1: int, ok1: bool, now2: int, ok2: bool)
    requires Rotate(m, prev, now1, ok1).0.Some?
    ensures var m1 := Rotate(m, prev, now1, ok1).1;
      && (prev in m1 <==> now1 == prev.iat)
      && (now1 != prev.iat ==> Rotate(m1, prev, now2, ok2) == (None, m1))
  {
    RotateSuccess(m, prev, now1, ok1);
    var m1 := Rotate(m, prev, now1, ok1).1;
    var next := SignRefresh(prev.userId, now1);
    assert m1 == (m - {prev})[next := RecordFor(next)];
    SignRefreshInjective(prev.userId, now1, prev.userId, prev.iat);
    assert prev == SignRefresh(prev.userId, prev.iat);
    if now1 != prev.iat {
      assert prev != next;
      assert prev !in m1;
      RotateRejectsConsumed(m1, prev, now2, ok2);
    }
  }

  /** The collection of refresh-token records, updated in place. */
  class CredentialStore {
    var records: Records

    predicate Valid()
      reads this
    {
      Consistent(records)
    }

    constructor ()
      ensures Valid() && records == map[]
    {
      records := map[];
    }

    /** `RefreshToken.findOne({ token })`. */
    method FindOne(t: Token) returns (r: Option<Record>)
      ensures r.Some? <==> t in records
      ensures r.Some? ==> r.value == records[t]
    {
      if t in records {
        r := Some(records[t]);
      } else {
        r := None;
      }
    }

    /** `RefreshToken.deleteOne({ token })`. */
    method DeleteOne(t: Token)
      modifies this
      ensures records == old(records) - {t}
    {
      records := records - {t};
    }

    /** `RefreshToken.create(record)`: fails when the store is down or the token is taken. */
    method Insert(rec: Record, persistOk: bool) returns (ok: bool)
      modifies this
      ensures ok <==> persistOk && rec.token !in old(records)
      ensures records == if ok then old(records)[rec.token := rec] else old(records)
    {
      ok := persistOk && rec.token !in records;
      if ok {
        records := records[rec.token := rec];
      }
    }

    /** createRotatingRefreshToken. */
    method CreateRotatingRefreshToken(userId: UserId, now: int, persistOk: bool)
      returns (r: Result<Token, IssueError>)
      requires Valid()
      modifies this
      ensures Valid()
      ensures (r, records) == Issue(old(records), userId, now, persistOk)
    {
      var token := SignRefresh(userId, now);
      var ok := Insert(RecordFor(token), persistOk);
      if ok {
        r := Ok(token);
      } else {
        r := Err(PersistenceError);
      }
    }

    /** verifyAndRotateRefreshToken. */
    method VerifyAndRotateRefreshToken(oldToken: Token, now: int, persistOk: bool)
      returns (r: Option<Rotation>)
      requires Valid()
      modifies this
      ensures Valid()
      ensures (r, records) == Rotate(old(records), oldToken, now, persistOk)
    {
      if !VerifiesAsRefresh(oldToken, now) {
        return None;
      }
      var stored := FindOne(oldToken);
      if stored.None? {
        return None;
      }
      DeleteOne(oldToken);
      var userId := DecodedUserId(oldToken);
      var newToken := CreateRotatingRefreshToken(userId, now, persistOk);
      if newToken.Err? {
        return None;
      }
      if userId == "" {
        return None;
      }
      r := Some(Rotation(userId, newToken.value));
    }
  }
}
