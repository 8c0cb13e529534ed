/**
 The `user_sessions` and `refresh_tokens` tables, the statements run on them, and the
 transactions the auth service builds from the statements. Times are milliseconds.
 A token is known by its hash; equal hashes are equal tokens.
 */
module Sessions {
  import opened Wrappers

  type UserId = nat
  type SessionId = nat
  type TokenId = nat
  type Hash = nat

  const REFRESH_LIFETIME_MS := 7 * 24 * 60 * 60 * 1000
  const RETENTION_MS := 30 * 24 * 60 * 60 * 1000
  const TOUCH_INTERVAL_MS := 5 * 60 * 1000

  datatype Session = Session(userId: UserId, lastUsedAt: int, expiresAt: int, revokedAt: Option<int>)

  datatype Token = Token(
    userId: UserId, hash: Hash, expiresAt: int, revokedAt: Option<int>,
    sessionId: Option<SessionId>, replacedBy: Option<TokenId>)

  datatype Db = Db(sessions: map<SessionId, Session>, tokens: map<TokenId, Token>)

  // The clock as a transaction reads it: at BEGIN, at the expiry check, when it stamps expiries.
  datatype Times = Times(begun: int, checked: int, stamped: int)

  // What a transaction would create: never seen before.
  datatype Fresh = Fresh(sessionId: SessionId, tokenId: TokenId, hash: Hash)

  datatype Result =
    | Invalid
    | Reuse(exposed: Option<SessionId>)
    | Refreshed(spent: TokenId, session: SessionId, token: TokenId)

  // -------------------------------------------------------------- statements

  function CreateSession(db: Db, id: SessionId, userId: UserId, expiresAt: int, now: int): Db {
    db.(sessions := db.sessions[id := Session(userId, now, expiresAt, None)])
  }

  function StoreRefreshToken(
    db: Db, id: TokenId, userId: UserId, hash: Hash, expiresAt: int, sessionId: SessionId): Db
  {
    db.(tokens := db.tokens[id := Token(userId, hash, expiresAt, None, Some(sessionId), None)])
  }

  predicate HashesDiffer(tokens: map<TokenId, Token>) {
    forall t, u | t in tokens && u in tokens && tokens[t].hash == tokens[u].hash :: t == u
  }

  // The unique key on token_hash leaves at most one row to find.
  ghost function FindByHash(tokens: map<TokenId, Token>, hash: Hash): Option<TokenId> {
    if t :| t in tokens && tokens[t].hash == hash then Some(t) else None
  }

  predicate Active(db: Db, id: SessionId, now: int) {
    id in db.sessions && db.sessions[id].revokedAt.None? && db.sessions[id].expiresAt > now
  }

  predicate ActiveFor(db: Db, id: SessionId, userId: UserId, now: int) {
    Active(db, id, now) && db.sessions[id].userId == userId
  }

  function Coalesce<T>(a: Option<T>, b: T): T {
    if a.Some? then a.value else b
  }

  function RevokeSessionForReuse(db: Db, id: Option<SessionId>, now: int): Db {
    if id.Some? then RevokeEach(db, {id.value}, now) else db
  }

  function AttachRefreshToken(db: Db, tokenId: TokenId, sessionId: SessionId): Db {
    if tokenId in db.tokens && db.tokens[tokenId].sessionId.None?
    then db.(tokens := db.tokens[tokenId := db.tokens[tokenId].(sessionId := Some(sessionId))])
    else db
  }

  function RotateRefreshToken(
    db: Db, spent: TokenId, next: TokenId, sessionId: SessionId, expiresAt: int, now: int): Db
  {
    var tokens := if spent in db.tokens && db.tokens[spent].revokedAt.None?
      then db.tokens[spent := db.tokens[spent].(revokedAt := Some(now), replacedBy := Some(next),
                                            sessionId := Some(Coalesce(db.tokens[spent].sessionId, sessionId)))]
      else db.tokens;
    var sessions := if sessionId in db.sessions
      then db.sessions[sessionId := db.sessions[sessionId].(lastUsedAt := now, expiresAt := expiresAt)]
      else db.sessions;
    Db(sessions, tokens)
  }

  // What a logout of these sessions does; a session already revoked keeps its date.
  function RevokeEach(db: Db, ids: set<SessionId>, now: int): Db {
    db.(sessions := map id | id in db.sessions ::
          if id in ids then db.sessions[id].(revokedAt := Some(Coalesce(db.sessions[id].revokedAt, now)))
          else db.sessions[id])
  }

  // isSessionActive also moves last_used_at, at most once per interval.
  function Touch(db: Db, id: SessionId, userId: UserId, now: int): Db {
    if ActiveFor(db, id, userId, now) && db.sessions[id].lastUsedAt < now - TOUCH_INTERVAL_MS
    then db.(sessions := db.sessions[id := db.sessions[id].(lastUsedAt := now)])
    else db
  }

  predicate Stale(expiresAt: int, revokedAt: Option<int>, now: int) {
    expiresAt < now - RETENTION_MS || (revokedAt.Some? && revokedAt.value < now - RETENTION_MS)
  }

  predicate SessionStale(db: Db, id: SessionId, now: int) {
    id in db.sessions && Stale(db.sessions[id].expiresAt, db.sessions[id].revokedAt, now)
  }

  // Deleting a session deletes its tokens.
  function SweepSessions(db: Db, now: int): Db {
    Db(map id | id in db.sessions && !SessionStale(db, id, now) :: db.sessions[id],
       map t | t in db.tokens && !(db.tokens[t].sessionId.Some? && SessionStale(db, db.tokens[t].sessionId.value, now))
         :: db.tokens[t])
  }

  // Tokens without a session go by their own dates.
  function SweepTokens(db: Db, now: int): Db {
    db.(tokens := map t | t in db.tokens
          && !(db.tokens[t].sessionId.None? && Stale(db.tokens[t].expiresAt, db.tokens[t].revokedAt, now))
          :: db.tokens[t])
  }

  // ------------------------------------------------------------ transactions

  function CreateUserSession(db: Db, userId: UserId, f: Fresh, at: Times): Db {
    var expiresAt := at.stamped + REFRESH_LIFETIME_MS;
    StoreRefreshToken(CreateSession(db, f.sessionId, userId, expiresAt, at.begun),
                      f.tokenId, userId, f.hash, expiresAt, f.sessionId)
  }

  // What refreshAccessToken decides from the token row it has locked.
  ghost function Decide(db: Db, found: Option<TokenId>, f: Fresh, at: Times): Result
    requires found.Some? ==> found.value in db.tokens
  {
    if found.None? then Invalid
    else
      var t := db.tokens[found.value];
      if t.revokedAt.Some? then if t.replacedBy.Some? then Reuse(t.sessionId) else Invalid
      else if t.expiresAt <= at.checked then Invalid
      else if t.sessionId.None? then Refreshed(found.value, f.sessionId, f.tokenId)
      else if Active(db, t.sessionId.value, at.begun) then Refreshed(found.value, t.sessionId.value, f.tokenId)
      else Invalid
  }

  // What it writes for that decision.
  function Rotated(db: Db, spent: TokenId, f: Fresh, at: Times): Db
    requires spent in db.tokens
  {
    var t := db.tokens[spent];
    var expiresAt := at.stamped + REFRESH_LIFETIME_MS;
    var attached := if t.sessionId.Some? then db
      else AttachRefreshToken(CreateSession(db, f.sessionId, t.userId, expiresAt, at.begun), spent, f.sessionId);
    var sessionId := if t.sessionId.Some? then t.sessionId.value else f.sessionId;
    RotateRefreshToken(StoreRefreshToken(attached, f.tokenId, t.userId, f.hash, expiresAt, sessionId),
                       spent, f.tokenId, sessionId, expiresAt, at.begun)
  }

  ghost function Write(db: Db, result: Result, f: Fresh, at: Times): Db
    requires result.Refreshed? ==> result.spent in db.tokens
  {
    match result
    case Invalid => db
    case Reuse(session) => RevokeSessionForReuse(db, session, at.begun)
    case Refreshed(spent, _, _) => Rotated(db, spent, f, at)
  }

  ghost function Refresh(db: Db, hash: Hash, f: Fresh, at: Times): (Db, Result) {
    var result := Decide(db, FindByHash(db.tokens, hash), f, at);
    (Write(db, result, f, at), result)
  }
}
