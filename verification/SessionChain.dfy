/**
 What every committed state of the two tables keeps: one unrevoked token per session at the end
 of a chain of replaced ones, all of one user, with the expiry of the session.
 */
module SessionChain {
  import opened Wrappers
  import opened Sessions

  predicate IsLive(db: Db, s: SessionId, t: TokenId) {
    t in db.tokens && db.tokens[t].sessionId == Some(s) && db.tokens[t].revokedAt.None?
  }

  // One token of a session, on its own.
  ghost predicate GoodToken(db: Db, id: TokenId, t: Token) {
    && (t.sessionId.Some? ==> t.sessionId.value in db.sessions && db.sessions[t.sessionId.value].userId == t.userId)
    && (t.replacedBy.Some? ==>
          && t.revokedAt.Some? && t.sessionId.Some? && t.replacedBy.value > id
          && t.replacedBy.value in db.tokens && db.tokens[t.replacedBy.value].sessionId == t.sessionId)
    && (t.sessionId.Some? && t.revokedAt.Some? ==> t.replacedBy.Some?)
    && (t.sessionId.Some? && t.revokedAt.None? ==> t.expiresAt == db.sessions[t.sessionId.value].expiresAt)
  }

  ghost predicate Chained(db: Db) {
    && HashesDiffer(db.tokens)
    && (forall t | t in db.tokens :: GoodToken(db, t, db.tokens[t]))
    && (forall t, u | t in db.tokens && u in db.tokens && db.tokens[t].replacedBy.Some?
                      && db.tokens[t].replacedBy == db.tokens[u].replacedBy :: t == u)
    && (forall s, t, u | IsLive(db, s, t) && IsLive(db, s, u) :: t == u)
    && (forall s | s in db.sessions :: exists t :: IsLive(db, s, t))
  }

  ghost predicate Unused(db: Db, f: Fresh) {
    f.sessionId !in db.sessions && f.tokenId !in db.tokens && forall t | t in db.tokens :: db.tokens[t].hash != f.hash
  }

  lemma LoginLive(db: Db, userId: UserId, f: Fresh, at: Times, s: SessionId, t: TokenId)
    requires Chained(db) && Unused(db, f)
    ensures IsLive(CreateUserSession(db, userId, f, at), s, t)
            <==> if s == f.sessionId then t == f.tokenId else IsLive(db, s, t)
  {
    if t in db.tokens {
      assert GoodToken(db, t, db.tokens[t]);
    }
  }

  lemma LoginGoodTokens(db: Db, userId: UserId, f: Fresh, at: Times, t: TokenId)
    requires Chained(db) && Unused(db, f) && t in CreateUserSession(db, userId, f, at).tokens
    ensures GoodToken(CreateUserSession(db, userId, f, at), t, CreateUserSession(db, userId, f, at).tokens[t])
  {
    if t != f.tokenId {
      assert GoodToken(db, t, db.tokens[t]);
    }
  }

  lemma LoginChained(db: Db, userId: UserId, f: Fresh, at: Times)
    requires Chained(db) && Unused(db, f)
    ensures Chained(CreateUserSession(db, userId, f, at))
  {
    var db' := CreateUserSession(db, userId, f, at);
    forall t | t in db'.tokens ensures GoodToken(db', t, db'.tokens[t]) {
      LoginGoodTokens(db, userId, f, at, t);
    }
    forall s, t, u | IsLive(db', s, t) && IsLive(db', s, u) ensures t == u {
      LoginLive(db, userId, f, at, s, t);
      LoginLive(db, userId, f, at, s, u);
    }
    forall s | s in db'.sessions ensures exists t :: IsLive(db', s, t) {
      if s == f.sessionId {
        LoginLive(db, userId, f, at, s, f.tokenId);
      } else {
        var t :| IsLive(db, s, t);
        LoginLive(db, userId, f, at, s, t);
      }
    }
  }

  function SessionFor(t: Token, f: Fresh): SessionId {
    if t.sessionId.Some? then t.sessionId.value else f.sessionId
  }

  // Ids come from a sequence: the successor's was drawn after that of the token it replaces.
  predicate Rotatable(db: Db, spent: TokenId, f: Fresh) {
    spent in db.tokens && db.tokens[spent].revokedAt.None? && spent < f.tokenId
  }

  // A rotation in one piece: the spent token, its successor and their session.
  lemma RotationAtOnce(db: Db, spent: TokenId, f: Fresh, at: Times)
    requires spent in db.tokens && db.tokens[spent].revokedAt.None? && spent != f.tokenId
    requires db.tokens[spent].sessionId.Some? ==> db.tokens[spent].sessionId.value in db.sessions
    ensures var t := db.tokens[spent]; var sid := SessionFor(t, f); var expiresAt := at.stamped + REFRESH_LIFETIME_MS;
            var session := if t.sessionId.Some? then db.sessions[sid] else Session(t.userId, at.begun, expiresAt, None);
            Rotated(db, spent, f, at) == Db(
              db.sessions[sid := session.(lastUsedAt := at.begun, expiresAt := expiresAt)],
              db.tokens[spent := Token(t.userId, t.hash, t.expiresAt, Some(at.begun), Some(sid), Some(f.tokenId))]
                       [f.tokenId := Token(t.userId, f.hash, expiresAt, None, Some(sid), None)])
  {
    var t := db.tokens[spent];
    var sid := SessionFor(t, f);
    var db' := Rotated(db, spent, f, at);
    var spentToken := Token(t.userId, t.hash, t.expiresAt, Some(at.begun), Some(sid), Some(f.tokenId));
    var next := Token(t.userId, f.hash, at.stamped + REFRESH_LIFETIME_MS, None, Some(sid), None);
    assert db'.tokens == db.tokens[spent := spentToken][f.tokenId := next];
  }

  lemma RotationLive(db: Db, spent: TokenId, f: Fresh, at: Times, s: SessionId, t: TokenId)
    requires Chained(db) && Unused(db, f) && Rotatable(db, spent, f)
    ensures var sid := SessionFor(db.tokens[spent], f);
            IsLive(Rotated(db, spent, f, at), s, t) <==> if s == sid then t == f.tokenId else IsLive(db, s, t)
  {
    assert GoodToken(db, spent, db.tokens[spent]);
    RotationAtOnce(db, spent, f, at);
    var sid := SessionFor(db.tokens[spent], f);
    if s == sid && IsLive(db, s, t) {
      assert GoodToken(db, t, db.tokens[t]);
      assert IsLive(db, s, spent);
    }
  }

  lemma RotationGoodTokens(db: Db, spent: TokenId, f: Fresh, at: Times, t: TokenId)
    requires Chained(db) && Unused(db, f) && Rotatable(db, spent, f)
    requires t in Rotated(db, spent, f, at).tokens
    ensures GoodToken(Rotated(db, spent, f, at), t, Rotated(db, spent, f, at).tokens[t])
  {
    assert GoodToken(db, spent, db.tokens[spent]);
    RotationAtOnce(db, spent, f, at);
    if t != spent && t != f.tokenId {
      var sid := SessionFor(db.tokens[spent], f);
      assert GoodToken(db, t, db.tokens[t]);
      if db.tokens[t].sessionId == Some(sid) && db.tokens[t].revokedAt.None? {
        assert IsLive(db, sid, t) && IsLive(db, sid, spent);
      }
    }
  }

  lemma {:induction false} RotationChained(db: Db, spent: TokenId, f: Fresh, at: Times)
    requires Chained(db) && Unused(db, f) && Rotatable(db, spent, f)
    ensures Chained(Rotated(db, spent, f, at))
  {
    var db' := Rotated(db, spent, f, at);
    forall t | t in db'.tokens ensures GoodToken(db', t, db'.tokens[t]) {
      RotationGoodTokens(db, spent, f, at, t);
    }
    forall s, t, u | IsLive(db', s, t) && IsLive(db', s, u) ensures t == u {
      RotationLive(db, spent, f, at, s, t);
      RotationLive(db, spent, f, at, s, u);
    }
    assert GoodToken(db, spent, db.tokens[spent]);
    RotationAtOnce(db, spent, f, at);
    forall s | s in db'.sessions ensures exists t :: IsLive(db', s, t) {
      if s == SessionFor(db.tokens[spent], f) {
        RotationLive(db, spent, f, at, s, f.tokenId);
      } else {
        var t :| IsLive(db, s, t);
        RotationLive(db, spent, f, at, s, t);
      }
    }
    RotationKeys(db, spent, f, at);
  }

  // Hashes stay unique and replaced_by_id injective.
  lemma RotationKeys(db: Db, spent: TokenId, f: Fresh, at: Times)
    requires Chained(db) && Unused(db, f) && Rotatable(db, spent, f)
    ensures var tokens := Rotated(db, spent, f, at).tokens;
            && HashesDiffer(tokens)
            && forall t, u | t in tokens && u in tokens && tokens[t].replacedBy.Some?
                             && tokens[t].replacedBy == tokens[u].replacedBy :: t == u
  {
    assert GoodToken(db, spent, db.tokens[spent]);
    RotationAtOnce(db, spent, f, at);
    var tokens := Rotated(db, spent, f, at).tokens;
    forall t, u | t in tokens && u in tokens
                  && tokens[t].replacedBy.Some? && tokens[t].replacedBy == tokens[u].replacedBy
      ensures t == u
    {
      assert t != spent ==> GoodToken(db, t, db.tokens[t]);
      assert u != spent ==> GoodToken(db, u, db.tokens[u]);
    }
  }

  // Statements that leave tokens alone and change neither owners nor expiries of sessions.
  lemma SessionsTouched(db: Db, db': Db)
    requires Chained(db) && db'.tokens == db.tokens && db'.sessions.Keys == db.sessions.Keys
    requires forall s | s in db.sessions ::
               db'.sessions[s].userId == db.sessions[s].userId && db'.sessions[s].expiresAt == db.sessions[s].expiresAt
    ensures Chained(db')
  {
    forall t | t in db'.tokens ensures GoodToken(db', t, db'.tokens[t]) {
      assert GoodToken(db, t, db.tokens[t]);
    }
    forall s, t ensures IsLive(db', s, t) <==> IsLive(db, s, t) {
    }
    forall s | s in db'.sessions ensures exists t :: IsLive(db', s, t) {
      var t :| IsLive(db, s, t);
      assert IsLive(db', s, t);
    }
  }

  lemma RevokeEachChained(db: Db, ids: set<SessionId>, now: int)
    requires Chained(db)
    ensures Chained(RevokeEach(db, ids, now))
  {
    SessionsTouched(db, RevokeEach(db, ids, now));
  }

  predicate Dangling(db: Db, t: TokenId) {
    t in db.tokens && db.tokens[t].replacedBy.Some? && db.tokens[t].replacedBy.value !in db.tokens
  }

  /** Cleanup sweeps whole sessions and loose tokens, so no chain is cut and nothing active is lost. */
  lemma SweepsChained(db: Db, now: int)
    requires Chained(db)
    ensures Chained(SweepSessions(db, now)) && Chained(SweepTokens(db, now))
    ensures forall t :: !Dangling(SweepSessions(db, now), t) && !Dangling(SweepTokens(db, now), t)
    ensures forall s | Active(db, s, now) ::
              && s in SweepSessions(db, now).sessions && SweepSessions(db, now).sessions[s] == db.sessions[s]
              && forall t | t in db.tokens && db.tokens[t].sessionId == Some(s) ::
                   && t in SweepSessions(db, now).tokens && SweepSessions(db, now).tokens[t] == db.tokens[t]
                   && t in SweepTokens(db, now).tokens && SweepTokens(db, now).tokens[t] == db.tokens[t]
  {
    SweepChained(db, SweepSessions(db, now));
    SweepChained(db, SweepTokens(db, now));
  }

  // Dropping sessions with all their tokens, and tokens without a session.
  lemma SweepChained(db: Db, db': Db)
    requires Chained(db) && db'.tokens.Keys <= db.tokens.Keys && db'.sessions.Keys <= db.sessions.Keys
    requires forall s | s in db'.sessions :: db'.sessions[s] == db.sessions[s]
    requires forall t | t in db'.tokens :: db'.tokens[t] == db.tokens[t]
    requires forall t | t in db.tokens && db.tokens[t].sessionId.Some? ::
               t in db'.tokens <==> db.tokens[t].sessionId.value in db'.sessions
    ensures Chained(db') && forall t :: !Dangling(db', t)
  {
    forall t | t in db.tokens ensures GoodToken(db, t, db.tokens[t]) {
    }
    forall t | t in db'.tokens ensures GoodToken(db', t, db'.tokens[t]) {
      assert GoodToken(db, t, db.tokens[t]);
    }
    forall s, t | IsLive(db', s, t) ensures IsLive(db, s, t) {
    }
    forall s | s in db'.sessions ensures exists t :: IsLive(db', s, t) {
      var t :| IsLive(db, s, t);
      assert IsLive(db', s, t);
    }
  }

  // ------------------------------------------------------- following the chain

  ghost predicate Bounded(db: Db, next: TokenId) {
    forall t | t in db.tokens :: t < next
  }

  // The token that following replaced_by_id from `t` ends at.
  ghost function ChainEnd(db: Db, t: TokenId, next: TokenId): TokenId
    requires Chained(db) && Bounded(db, next) && t in db.tokens
    decreases next - t
  {
    if db.tokens[t].replacedBy.None? then t
    else
      assert GoodToken(db, t, db.tokens[t]);
      ChainEnd(db, db.tokens[t].replacedBy.value, next)
  }

  /** From any token of a session the chain ends at its one unrevoked token, of the same user. */
  lemma {:induction false} ChainReachesLive(db: Db, t: TokenId, next: TokenId)
    requires Chained(db) && Bounded(db, next) && t in db.tokens && db.tokens[t].sessionId.Some?
    ensures var end := ChainEnd(db, t, next);
            && IsLive(db, db.tokens[t].sessionId.value, end) && end >= t
            && db.tokens[end].userId == db.tokens[t].userId
            && forall u | IsLive(db, db.tokens[t].sessionId.value, u) :: u == end
    decreases next - t
  {
    assert GoodToken(db, t, db.tokens[t]);
    if db.tokens[t].replacedBy.Some? {
      var r := db.tokens[t].replacedBy.value;
      assert GoodToken(db, r, db.tokens[r]);
      ChainReachesLive(db, r, next);
    } else {
      assert IsLive(db, db.tokens[t].sessionId.value, t);
    }
  }

  lemma FindsIt(db: Db, t: TokenId)
    requires HashesDiffer(db.tokens) && t in db.tokens
    ensures FindByHash(db.tokens, db.tokens[t].hash) == Some(t)
  {
  }

  /**
   A session is active for its owner at the expiry check exactly when its one unrevoked token can be refreshed;
   no other of its tokens can.
   */
  lemma ActiveIffRefreshable(db: Db, s: SessionId, t: TokenId, f: Fresh, at: Times)
    requires Chained(db) && t in db.tokens && db.tokens[t].sessionId == Some(s) && at.begun <= at.checked
    ensures var result := Refresh(db, db.tokens[t].hash, f, at).1;
            && (IsLive(db, s, t) ==> (result.Refreshed? <==> ActiveFor(db, s, db.tokens[t].userId, at.checked)))
            && (IsLive(db, s, t) && result.Refreshed? ==> result == Refreshed(t, s, f.tokenId))
            && (!IsLive(db, s, t) ==> result == Reuse(Some(s)))
  {
    FindsIt(db, t);
    assert GoodToken(db, t, db.tokens[t]);
  }

  /** A token from before sessions: refreshed until it expires, and adopted into a new session of its user. */
  lemma LooseTokenIsAdopted(db: Db, t: TokenId, f: Fresh, at: Times)
    requires Chained(db) && Unused(db, f) && t in db.tokens && db.tokens[t].sessionId.None? && t < f.tokenId
    ensures var (db', result) := Refresh(db, db.tokens[t].hash, f, at);
            && (result.Refreshed? <==> db.tokens[t].revokedAt.None? && db.tokens[t].expiresAt > at.checked)
            && (!result.Refreshed? ==> result.Invalid? && db' == db)
            && (result.Refreshed? ==>
                  && ActiveFor(db', f.sessionId, db.tokens[t].userId, at.stamped)
                  && db'.tokens[t].sessionId == Some(f.sessionId) && db'.tokens[t].replacedBy == Some(f.tokenId)
                  && forall u :: IsLive(db', f.sessionId, u) <==> u == f.tokenId)
  {
    FindsIt(db, t);
    assert GoodToken(db, t, db.tokens[t]);
    if db.tokens[t].revokedAt.None? && db.tokens[t].expiresAt > at.checked {
      RotationAtOnce(db, t, f, at);
      forall u {
        RotationLive(db, t, f, at, f.sessionId, u);
      }
    }
  }

  lemma {:induction false} RefreshChained(db: Db, hash: Hash, f: Fresh, at: Times)
    requires Chained(db) && Unused(db, f)
    requires var found := FindByHash(db.tokens, hash); found.Some? ==> found.value < f.tokenId
    ensures Chained(Refresh(db, hash, f, at).0)
  {
    var found := FindByHash(db.tokens, hash);
    var result := Decide(db, found, f, at);
    match result
    case Invalid =>
    case Reuse(session) => SessionsTouched(db, RevokeSessionForReuse(db, session, at.begun));
    case Refreshed(spent, _, _) => RotationChained(db, spent, f, at);
  }

  // A refresh adds at most the token whose id it drew.
  lemma RefreshBounded(db: Db, hash: Hash, f: Fresh, at: Times)
    requires Chained(db) && Bounded(db, f.tokenId)
    ensures var (db', result) := Refresh(db, hash, f, at);
            Bounded(db', if result.Refreshed? then f.tokenId + 1 else f.tokenId)
  {
    var result := Refresh(db, hash, f, at).1;
    if result.Refreshed? {
      assert GoodToken(db, result.spent, db.tokens[result.spent]);
      RotationAtOnce(db, result.spent, f, at);
    }
  }

  // ------------------------------------------------ what a refresh does, in the columns

  // Refused, and nothing is written.
  predicate Refuses(db: Db, hash: Hash, at: Times) {
    || (forall t | t in db.tokens :: db.tokens[t].hash != hash)
    || (exists t | t in db.tokens ::
          && db.tokens[t].hash == hash
          && (if db.tokens[t].revokedAt.Some? then db.tokens[t].replacedBy.None?
              else || db.tokens[t].expiresAt <= at.checked
                   || (&& db.tokens[t].sessionId.Some?
                       && var s := db.tokens[t].sessionId.value;
                          s !in db.sessions || db.sessions[s].revokedAt.Some? || db.sessions[s].expiresAt <= at.begun)))
  }

  /** An unknown token, one revoked without a successor, an expired one, or one whose session is over is refused. */
  lemma RefusedRefresh(db: Db, hash: Hash, f: Fresh, at: Times)
    requires HashesDiffer(db.tokens)
    ensures Refuses(db, hash, at) <==> Refresh(db, hash, f, at).1 == Invalid
    ensures Refuses(db, hash, at) ==> Refresh(db, hash, f, at).0 == db
  {
    if t :| t in db.tokens && db.tokens[t].hash == hash {
      FindsIt(db, t);
    }
  }

  /** A token already replaced revokes its session, at its first such moment, and changes nothing else. */
  lemma ReplayedRefresh(db: Db, t: TokenId, f: Fresh, at: Times)
    requires HashesDiffer(db.tokens) && t in db.tokens
    requires db.tokens[t].revokedAt.Some? && db.tokens[t].replacedBy.Some?
    ensures var (db', result) := Refresh(db, db.tokens[t].hash, f, at);
            && result == Reuse(db.tokens[t].sessionId) && db'.tokens == db.tokens
            && db'.sessions.Keys == db.sessions.Keys
            && forall s | s in db.sessions ::
                 var was := db.sessions[s];
                 db'.sessions[s] == if db.tokens[t].sessionId != Some(s) || was.revokedAt.Some? then was
                                    else Session(was.userId, was.lastUsedAt, was.expiresAt, Some(at.begun))
  {
    FindsIt(db, t);
  }

  /** Any other is exchanged: it is revoked, points to the new token, and both are of its session, extended. */
  lemma GrantedRefresh(db: Db, t: TokenId, f: Fresh, at: Times)
    requires Chained(db) && Unused(db, f) && t in db.tokens && db.tokens[t].revokedAt.None? && t != f.tokenId
    requires !Refuses(db, db.tokens[t].hash, at)
    ensures var (db', result) := Refresh(db, db.tokens[t].hash, f, at);
            var was, expiresAt := db.tokens[t], at.stamped + 604_800_000;
            var s := if was.sessionId.Some? then was.sessionId.value else f.sessionId;
            && result == Refreshed(t, s, f.tokenId)
            && db'.tokens == db.tokens[
                 t := Token(was.userId, was.hash, was.expiresAt, Some(at.begun), Some(s), Some(f.tokenId))][
                 f.tokenId := Token(was.userId, f.hash, expiresAt, None, Some(s), None)]
            && db'.sessions == db.sessions[s := Session(was.userId, at.begun, expiresAt, None)]
  {
    FindsIt(db, t);
    assert GoodToken(db, t, db.tokens[t]);
    RefusedRefresh(db, db.tokens[t].hash, f, at);
    RotationAtOnce(db, t, f, at);
  }
}
