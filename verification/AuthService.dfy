/**
 The auth service and its repository as code that changes the two tables in place, statement by
 statement, inside transactions that roll back when a statement throws.
 */
module AuthService {
  import opened Wrappers
  import opened Sessions
  import opened SessionChain

  // What the caller of the service gets to see.
  datatype Answer = Tokens(session: SessionId, hash: Hash) | Unauthorized | DatabaseError

  datatype Reply = Done | DoneButLost | Refused

  function AnswerFor(result: Result, newHash: Hash): Answer {
    match result
    case Refreshed(_, session, _) => Tokens(session, newHash)
    case _ => Unauthorized
  }

  // Revoking sessions that are not revoked yet.
  lemma FirstRevocation(db: Db, ids: set<SessionId>, now: int)
    requires forall id | id in ids :: id in db.sessions && db.sessions[id].revokedAt.None?
    ensures RevokeEach(db, ids, now).sessions
            == Stamped(db.sessions, ids, now)
  {
  }

  function Stamped(sessions: map<SessionId, Session>, ids: set<SessionId>, now: int): map<SessionId, Session> {
    map id | id in sessions :: if id in ids then sessions[id].(revokedAt := Some(now)) else sessions[id]
  }

  function UnrevokedOf(sessions: map<SessionId, Session>, userId: UserId): set<SessionId> {
    set id | id in sessions && sessions[id].userId == userId && sessions[id].revokedAt.None?
  }

  lemma LoginValid(db: Db, userId: UserId, f: Fresh, at: Times)
    requires Chained(db) && Bounded(db, f.tokenId) && f.sessionId !in db.sessions
    requires forall t | t in db.tokens :: db.tokens[t].hash != f.hash
    ensures Chained(CreateUserSession(db, userId, f, at))
    ensures Bounded(CreateUserSession(db, userId, f, at), f.tokenId + 1)
  {
    LoginChained(db, userId, f, at);
  }

  lemma LooseSwept(db: Db, stale: set<TokenId>, now: int)
    requires stale == set t | t in db.tokens
                              && db.tokens[t].sessionId.None?
                              && Stale(db.tokens[t].expiresAt, db.tokens[t].revokedAt, now)
    ensures |db.tokens| == |SweepTokens(db, now).tokens| + |stale|
  {
    var kept := SweepTokens(db, now).tokens.Keys;
    assert db.tokens.Keys == kept + stale && kept !! stale;
    assert |db.tokens.Keys| == |kept| + |stale|;
  }

  lemma SessionsSwept(db: Db, stale: set<SessionId>, now: int)
    requires stale == set id | id in db.sessions && SessionStale(db, id, now)
    ensures |db.sessions| == |SweepSessions(db, now).sessions| + |stale|
  {
    var kept := SweepSessions(db, now).sessions.Keys;
    assert db.sessions.Keys == kept + stale && kept !! stale;
    assert |db.sessions.Keys| == |kept| + |stale|;
  }

  // The sweeps in the columns.
  lemma SessionsGone(db: Db, now: int)
    requires Chained(db)
    ensures var after := SweepSessions(db, now);
            && (forall s :: s in after.sessions <==>
                  && s in db.sessions && db.sessions[s].expiresAt >= now - 2_592_000_000
                  && (db.sessions[s].revokedAt.Some? ==> db.sessions[s].revokedAt.value >= now - 2_592_000_000))
            && (forall s | s in after.sessions :: after.sessions[s] == db.sessions[s])
            && (forall t :: t in after.tokens <==>
                  t in db.tokens && (db.tokens[t].sessionId.Some? ==> db.tokens[t].sessionId.value in after.sessions))
            && (forall t | t in after.tokens :: after.tokens[t] == db.tokens[t])
  {
    forall t | t in db.tokens ensures GoodToken(db, t, db.tokens[t]) {
    }
  }

  lemma TokensGone(db: Db, now: int)
    ensures var after := SweepTokens(db, now).tokens;
            && (forall t :: t in after <==>
                  && t in db.tokens
                  && (db.tokens[t].sessionId.None? ==>
                        && db.tokens[t].expiresAt >= now - 2_592_000_000
                        && (db.tokens[t].revokedAt.Some? ==> db.tokens[t].revokedAt.value >= now - 2_592_000_000)))
            && (forall t | t in after :: after[t] == db.tokens[t])
  {
  }

  class AuthTables {
    var sessions: map<SessionId, Session>
    var tokens: map<TokenId, Token>
    var nextTokenId: TokenId

    function View(): Db
      reads this
    {
      Db(sessions, tokens)
    }

    // What every committed state keeps, with the token ids handed out so far.
    ghost predicate Valid()
      reads this
    {
      Chained(View()) && Bounded(View(), nextTokenId)
    }

    // Ids and hashes are drawn anew.
    ghost predicate IsNew(sessionId: SessionId, hash: Hash)
      reads this
    {
      sessionId !in sessions && forall t | t in tokens :: tokens[t].hash != hash
    }

    constructor (sessions: map<SessionId, Session>, tokens: map<TokenId, Token>, nextTokenId: TokenId)
      requires Chained(Db(sessions, tokens)) && Bounded(Db(sessions, tokens), nextTokenId)
      ensures Valid()
      ensures this.sessions == sessions && this.tokens == tokens && this.nextTokenId == nextTokenId
    {
      this.sessions, this.tokens, this.nextTokenId := sessions, tokens, nextTokenId;
    }

    // ------------------------------------------------------------ repository

    method CreateSession(id: SessionId, userId: UserId, expiresAt: int, now: int)
      modifies this`sessions
      ensures View() == Sessions.CreateSession(old(View()), id, userId, expiresAt, now)
      ensures sessions == old(sessions)[id := Session(userId, now, expiresAt, None)]
    {
      sessions := sessions[id := Session(userId, now, expiresAt, None)];
    }

    method StoreRefreshToken(userId: UserId, hash: Hash, expiresAt: int, sessionId: SessionId) returns (id: TokenId)
      modifies this`tokens, this`nextTokenId
      ensures id == old(nextTokenId) && nextTokenId == id + 1
      ensures View() == Sessions.StoreRefreshToken(old(View()), id, userId, hash, expiresAt, sessionId)
      ensures tokens == old(tokens)[id := Token(userId, hash, expiresAt, None, Some(sessionId), None)]
    {
      id := nextTokenId;
      nextTokenId := nextTokenId + 1;
      tokens := tokens[id := Token(userId, hash, expiresAt, None, Some(sessionId), None)];
    }

    method FindRefreshTokenForUpdate(hash: Hash) returns (id: Option<TokenId>)
      requires HashesDiffer(tokens)
      ensures id == FindByHash(tokens, hash)
      ensures id.Some? ==> id.value in tokens && tokens[id.value].hash == hash
      ensures id.None? ==> forall t | t in tokens :: tokens[t].hash != hash
    {
      if t :| t in tokens && tokens[t].hash == hash {
        id := Some(t);
      } else {
        id := None;
      }
    }

    method LockActiveSession(id: SessionId, now: int) returns (found: bool)
      ensures found <==> Active(View(), id, now)
      ensures found <==> id in sessions && sessions[id].revokedAt.None? && sessions[id].expiresAt > now
    {
      found := id in sessions && sessions[id].revokedAt.None? && sessions[id].expiresAt > now;
    }

    method RevokeSessionForReuse(id: Option<SessionId>, now: int)
      requires Valid()
      modifies this`sessions
      ensures Valid()
      ensures View() == Sessions.RevokeSessionForReuse(old(View()), id, now)
      ensures sessions.Keys == old(sessions).Keys
      ensures forall s | s in sessions && id != Some(s) :: sessions[s] == old(sessions)[s]
      ensures forall s | s in sessions && id == Some(s) ::
        var was := old(sessions)[s].revokedAt;
        sessions[s] == old(sessions)[s].(revokedAt := if was.Some? then was else Some(now))
    {
      if id.None? {
        return;
      }
      ghost var db := View();
      if id.value in sessions {
        var session := sessions[id.value];
        sessions := sessions[id.value := session.(revokedAt := Some(Coalesce(session.revokedAt, now)))];
      }
      assert sessions == RevokeEach(db, {id.value}, now).sessions;
      RevokeEachChained(db, {id.value}, now);
    }

    method AttachRefreshTokenToSession(tokenId: TokenId, sessionId: SessionId)
      modifies this`tokens
      ensures View() == AttachRefreshToken(old(View()), tokenId, sessionId)
      ensures tokens == if tokenId in old(tokens) && old(tokens)[tokenId].sessionId.None?
                        then old(tokens)[tokenId := old(tokens)[tokenId].(sessionId := Some(sessionId))]
                        else old(tokens)
    {
      if tokenId in tokens && tokens[tokenId].sessionId.None? {
        tokens := tokens[tokenId := tokens[tokenId].(sessionId := Some(sessionId))];
      }
    }

    method RotateRefreshToken(spent: TokenId, next: TokenId, sessionId: SessionId, expiresAt: int, now: int)
      modifies this`sessions, this`tokens
      ensures View() == Sessions.RotateRefreshToken(old(View()), spent, next, sessionId, expiresAt, now)
      ensures sessions == if sessionId in old(sessions)
                          then old(sessions)[sessionId :=
                                 old(sessions)[sessionId].(lastUsedAt := now, expiresAt := expiresAt)]
                          else old(sessions)
      ensures spent !in old(tokens) || old(tokens)[spent].revokedAt.Some? ==> tokens == old(tokens)
      ensures spent in old(tokens) && old(tokens)[spent].revokedAt.None? ==>
        var t := old(tokens)[spent];
        tokens == old(tokens)[spent :=
          Token(t.userId, t.hash, t.expiresAt, Some(now),
                if t.sessionId.Some? then t.sessionId else Some(sessionId), Some(next))]
    {
      if spent in tokens && tokens[spent].revokedAt.None? {
        tokens := tokens[spent := tokens[spent].(
          revokedAt := Some(now), replacedBy := Some(next),
          sessionId := Some(Coalesce(tokens[spent].sessionId, sessionId)))];
      }
      if sessionId in sessions {
        sessions := sessions[sessionId := sessions[sessionId].(lastUsedAt := now, expiresAt := expiresAt)];
      }
    }

    method RevokeSession(id: SessionId, userId: UserId, now: int) returns (revoked: bool)
      requires Valid()
      modifies this`sessions
      ensures Valid()
      ensures revoked <==> id in old(sessions) && old(sessions)[id].userId == userId
      ensures View() == if revoked then RevokeEach(old(View()), {id}, now) else old(View())
      ensures sessions.Keys == old(sessions).Keys && (!revoked ==> sessions == old(sessions))
      ensures forall s | s in sessions && s != id :: sessions[s] == old(sessions)[s]
      ensures revoked ==>
        var was := old(sessions)[id].revokedAt;
        sessions[id] == old(sessions)[id].(revokedAt := if was.Some? then was else Some(now))
    {
      revoked := id in sessions && sessions[id].userId == userId;
      if revoked {
        RevokeSessionForReuse(Some(id), now);
      }
    }

    method RevokeAllSessions(userId: UserId, now: int) returns (ids: set<SessionId>)
      requires Valid()
      modifies this`sessions
      ensures Valid()
      ensures forall id :: id in ids <==>
        id in old(sessions) && old(sessions)[id].userId == userId && old(sessions)[id].revokedAt.None?
      ensures View() == RevokeEach(old(View()), ids, now)
      ensures sessions.Keys == old(sessions).Keys
      ensures forall s | s in sessions ::
        sessions[s] == if s in ids then old(sessions)[s].(revokedAt := Some(now)) else old(sessions)[s]
    {
      ghost var db := View();
      ids := UnrevokedOf(sessions, userId);
      sessions := Stamped(sessions, ids, now);
      FirstRevocation(db, ids, now);
      RevokeEachChained(db, ids, now);
    }

    method IsSessionActive(id: SessionId, userId: UserId, now: int) returns (active: bool)
      requires Valid()
      modifies this`sessions
      ensures Valid()
      ensures active <==> ActiveFor(old(View()), id, userId, now)
      ensures View() == Touch(old(View()), id, userId, now)
      ensures active <==> ActiveFor(View(), id, userId, now)
      ensures active <==> && id in old(sessions) && old(sessions)[id].userId == userId
                          && old(sessions)[id].revokedAt.None? && old(sessions)[id].expiresAt > now
      ensures sessions == if active && old(sessions)[id].lastUsedAt < now - 300_000
                          then old(sessions)[id := old(sessions)[id].(lastUsedAt := now)] else old(sessions)
      ensures active ==> sessions[id].lastUsedAt >= now - TOUCH_INTERVAL_MS
    {
      active := ActiveFor(View(), id, userId, now);
      if active && sessions[id].lastUsedAt < now - TOUCH_INTERVAL_MS {
        ghost var db := View();
        sessions := sessions[id := sessions[id].(lastUsedAt := now)];
        SessionsTouched(db, View());
      }
    }

    method DeleteStaleSessions(now: int) returns (removed: nat)
      requires Valid()
      modifies this`sessions, this`tokens
      ensures Valid()
      ensures View() == SweepSessions(old(View()), now)
      ensures forall s :: s in sessions <==>
        && s in old(sessions) && old(sessions)[s].expiresAt >= now - 2_592_000_000
        && (old(sessions)[s].revokedAt.Some? ==> old(sessions)[s].revokedAt.value >= now - 2_592_000_000)
      ensures forall s | s in sessions :: sessions[s] == old(sessions)[s]
      ensures forall t :: t in tokens <==>
        t in old(tokens) && (old(tokens)[t].sessionId.Some? ==> old(tokens)[t].sessionId.value in sessions)
      ensures forall t | t in tokens :: tokens[t] == old(tokens)[t]
      ensures removed == |old(sessions)| - |sessions|
    {
      var stale := set id | id in sessions && SessionStale(View(), id, now);
      var kept := SweepSessions(View(), now);
      SessionsGone(View(), now);
      SessionsSwept(View(), stale, now);
      SweepsChained(View(), now);
      sessions, tokens := kept.sessions, kept.tokens;
      removed := |stale|;
    }

    method DeleteLooseTokens(now: int) returns (removed: nat)
      requires Valid()
      modifies this`tokens
      ensures Valid()
      ensures View() == SweepTokens(old(View()), now)
      ensures forall t :: t in tokens <==>
        && t in old(tokens)
        && (old(tokens)[t].sessionId.None? ==>
              && old(tokens)[t].expiresAt >= now - 2_592_000_000
              && (old(tokens)[t].revokedAt.Some? ==> old(tokens)[t].revokedAt.value >= now - 2_592_000_000))
      ensures forall t | t in tokens :: tokens[t] == old(tokens)[t]
      ensures removed == |old(tokens)| - |tokens|
    {
      var stale := set t | t in tokens
                           && tokens[t].sessionId.None? && Stale(tokens[t].expiresAt, tokens[t].revokedAt, now);
      SweepsChained(View(), now);
      LooseSwept(View(), stale, now);
      TokensGone(View(), now);
      tokens := SweepTokens(View(), now).tokens;
      removed := |stale|;
    }

    /** Two statements, each committed on its own and reading its own time; the count leaves out the tokens that
        go with their session. */
    method CleanupExpiredSessions(now: int, later: int) returns (removed: nat)
      requires Valid()
      modifies this`sessions, this`tokens
      ensures Valid()
      ensures View() == SweepTokens(SweepSessions(old(View()), now), later)
      ensures forall s :: s in sessions <==>
        && s in old(sessions) && old(sessions)[s].expiresAt >= now - 2_592_000_000
        && (old(sessions)[s].revokedAt.Some? ==> old(sessions)[s].revokedAt.value >= now - 2_592_000_000)
      ensures forall t :: t in tokens <==>
        && t in old(tokens)
        && (if old(tokens)[t].sessionId.Some? then old(tokens)[t].sessionId.value in sessions
            else && old(tokens)[t].expiresAt >= later - 2_592_000_000
                 && (old(tokens)[t].revokedAt.Some? ==> old(tokens)[t].revokedAt.value >= later - 2_592_000_000))
      ensures removed == (|old(sessions)| - |sessions|) + (|SweepSessions(old(View()), now).tokens| - |tokens|)
    {
      var count := DeleteStaleSessions(now);
      var loose := DeleteLooseTokens(later);
      removed := count + loose;
    }

    // --------------------------------------------------------------- service

    // How COMMIT ends: acknowledged, in effect but reported as an error, or refused.
    method Commit() returns (reply: Reply)
    {
      reply := *;
    }

    /** A transaction of createUserSession: both rows, or neither. `committed` also if only the answer was lost. */
    method Login(userId: UserId, sessionId: SessionId, hash: Hash, at: Times)
      returns (answer: Answer, ghost committed: bool)
      requires Valid() && IsNew(sessionId, hash)
      modifies this
      ensures Valid()
      ensures nextTokenId >= old(nextTokenId)
      ensures !committed ==> answer.DatabaseError? && View() == old(View())
      ensures committed ==>
        && (answer.DatabaseError? || answer == Tokens(sessionId, hash))
        && View() == CreateUserSession(old(View()), userId, Fresh(sessionId, old(nextTokenId), hash), at)
        && var expiresAt := at.stamped + 604_800_000;
           && sessions == old(sessions)[sessionId := Session(userId, at.begun, expiresAt, None)]
           && tokens == old(tokens)[old(nextTokenId) := Token(userId, hash, expiresAt, None, Some(sessionId), None)]
    {
      var savedSessions, savedTokens := sessions, tokens;
      LoginValid(View(), userId, Fresh(sessionId, nextTokenId, hash), at);
      var expiresAt := at.stamped + REFRESH_LIFETIME_MS;
      CreateSession(sessionId, userId, expiresAt, at.begun);
      var throws: bool := *;
      var reply := Refused;
      if !throws {
        var _ := StoreRefreshToken(userId, hash, expiresAt, sessionId);
        reply := Commit();
      }
      if reply.Refused? {
        sessions, tokens := savedSessions, savedTokens;
      }
      committed := !reply.Refused?;
      answer := if reply.Done? then Tokens(sessionId, hash) else DatabaseError;
    }

    /** The callback of refreshAccessToken; None when a statement threw half way. */
    method Rotate(hash: Hash, sessionId: SessionId, newHash: Hash, at: Times) returns (result: Option<Result>)
      requires Valid()
      modifies this
      ensures nextTokenId >= old(nextTokenId)
      ensures result.Some? && result.value.Refreshed? ==> nextTokenId == old(nextTokenId) + 1
      ensures result.Some? ==>
        (View(), result.value) == Refresh(old(View()), hash, Fresh(sessionId, old(nextTokenId), newHash), at)
    {
      var found := FindRefreshTokenForUpdate(hash);
      if found.None? {
        return Some(Invalid);
      }
      var stored := tokens[found.value];
      if stored.revokedAt.Some? {
        if stored.replacedBy.Some? {
          RevokeSessionForReuse(stored.sessionId, at.begun);
          return Some(Reuse(stored.sessionId));
        }
        return Some(Invalid);
      }
      if stored.expiresAt <= at.checked {
        return Some(Invalid);
      }
      var session := sessionId;
      var expiresAt := at.stamped + REFRESH_LIFETIME_MS;
      if stored.sessionId.Some? {
        session := stored.sessionId.value;
        var active := LockActiveSession(session, at.begun);
        if !active {
          return Some(Invalid);
        }
      } else {
        CreateSession(session, stored.userId, expiresAt, at.begun);
        AttachRefreshTokenToSession(found.value, session);
      }
      var throws: bool := *;
      if throws {
        return None;
      }
      var next := StoreRefreshToken(stored.userId, newHash, expiresAt, session);
      throws := *;
      if throws {
        return None;
      }
      RotateRefreshToken(found.value, next, session, expiresAt, at.begun);
      result := Some(Refreshed(found.value, session, next));
    }

    /** All or nothing, and an error answer does not undo the revocation a replay has earned. */
    method RefreshAccessToken(hash: Hash, sessionId: SessionId, newHash: Hash, at: Times)
      returns (answer: Answer, ghost committed: bool, ghost result: Result)
      requires Valid() && IsNew(sessionId, newHash)
      modifies this
      ensures Valid()
      ensures !committed ==> answer.DatabaseError? && View() == old(View())
      ensures committed ==>
        (View(), result) == Refresh(old(View()), hash, Fresh(sessionId, old(nextTokenId), newHash), at)
      ensures !answer.DatabaseError? ==> (answer.Tokens? <==> result.Refreshed?)
      ensures answer.Tokens? ==> answer == Tokens(result.session, newHash)
      ensures committed && result.Reuse? ==>
        !answer.Tokens? && forall now :: result.exposed.Some? ==> !Active(View(), result.exposed.value, now)
    {
      var savedSessions, savedTokens := sessions, tokens;
      RefreshChained(View(), hash, Fresh(sessionId, nextTokenId, newHash), at);
      RefreshBounded(View(), hash, Fresh(sessionId, nextTokenId, newHash), at);
      var returned := Rotate(hash, sessionId, newHash, at);
      var reply := Refused;
      if returned.Some? {
        reply := Commit();
      }
      committed, result := !reply.Refused?, if returned.Some? then returned.value else Invalid;
      if reply.Refused? {
        sessions, tokens := savedSessions, savedTokens;
        return DatabaseError, committed, result;
      }
      answer := AnswerFor(returned.value, newHash);
      if reply.DoneButLost? {
        answer := DatabaseError;
      }
    }
  }
}
