/**
 Runs of logins, refreshes, logouts, activity checks and cleanups, each a committed transaction,
 starting from any set of session-less tokens left by earlier versions.
 */
module SessionRuns {
  import opened Wrappers
  import opened Sessions
  import opened SessionChain

  // Facts of the past, latest last.
  datatype Fact =
    | Issued(session: SessionId, token: TokenId)
    | Spent(token: TokenId, session: SessionId)   // a refresh of the token returned ok
    | Revoked(session: SessionId)

  datatype Past = Nothing | Then(before: Past, fact: Fact)

  datatype Auth = Auth(
    db: Db, clock: int, next: TokenId, usedSessions: set<SessionId>, usedTokens: set<TokenId>,
    usedHashes: set<Hash>, past: Past)

  datatype Action =
    | Tick(to: int)
    | Login(userId: UserId, f: Fresh, at: Times)
    | RefreshToken(hash: Hash, f: Fresh, at: Times)
    | Logout(ids: set<SessionId>, now: int)
    | CheckActive(id: SessionId, userId: UserId, now: int)
    | CleanSessions(now: int)
    | CleanTokens(now: int)

  predicate Knows(p: Past, fact: Fact) {
    p.Then? && (p.fact == fact || Knows(p.before, fact))
  }

  ghost predicate IsFresh(a: Auth, f: Fresh) {
    f.sessionId !in a.usedSessions && f.tokenId !in a.usedTokens && f.hash !in a.usedHashes
  }

  // One clock: nobody reads a time that has not come.
  predicate Read(a: Auth, at: Times) {
    at.begun <= at.checked <= at.stamped <= a.clock
  }

  ghost predicate Enabled(a: Auth, action: Action) {
    match action
    case Tick(to) => a.clock <= to
    case Login(_, f, at) => IsFresh(a, f) && Read(a, at)
    case RefreshToken(hash, f, at) =>
      && IsFresh(a, f) && Read(a, at)
      && (FindByHash(a.db.tokens, hash).Some? ==> FindByHash(a.db.tokens, hash).value < f.tokenId)
    case Logout(_, now) => now <= a.clock
    case CheckActive(_, _, now) => now <= a.clock
    case CleanSessions(now) => now <= a.clock
    case CleanTokens(now) => now <= a.clock
  }

  function Record(a: Auth, fact: Fact): Auth {
    a.(past := Then(a.past, fact))
  }

  function Use(a: Auth, f: Fresh): Auth {
    a.(next := if a.next <= f.tokenId then f.tokenId + 1 else a.next,
       usedSessions := a.usedSessions + {f.sessionId}, usedTokens := a.usedTokens + {f.tokenId},
       usedHashes := a.usedHashes + {f.hash})
  }

  ghost function RecordAll(a: Auth, ids: set<SessionId>): Auth
    decreases ids
  {
    if ids == {} then a
    else var s :| s in ids; Record(RecordAll(a, ids - {s}), Revoked(s))
  }

  ghost function AfterRefresh(a: Auth, hash: Hash, f: Fresh, at: Times): Auth {
    var (db, result) := Refresh(a.db, hash, f, at);
    match result
    case Invalid => a
    case Reuse(exposed) =>
      if exposed.Some? then Record(a.(db := db), Revoked(exposed.value)) else a.(db := db)
    case Refreshed(spent, session, token) =>
      var issued := Record(Record(Use(a.(db := db), f), Issued(session, spent)), Issued(session, token));
      Record(issued, Spent(spent, session))
  }

  ghost function Act(a: Auth, action: Action): Auth
    requires Enabled(a, action)
  {
    match action
    case Tick(to) => a.(clock := to)
    case Login(userId, f, at) =>
      Record(Use(a.(db := CreateUserSession(a.db, userId, f, at)), f), Issued(f.sessionId, f.tokenId))
    case RefreshToken(hash, f, at) => AfterRefresh(a, hash, f, at)
    case Logout(ids, now) => RecordAll(a.(db := RevokeEach(a.db, ids, now)), ids * a.db.sessions.Keys)
    case CheckActive(id, userId, now) => a.(db := Touch(a.db, id, userId, now))
    case CleanSessions(now) => a.(db := SweepSessions(a.db, now))
    case CleanTokens(now) => a.(db := SweepTokens(a.db, now))
  }

  // ------------------------------------------------------------------- runs

  datatype Run = Begin(a: Auth) | After(before: Run, action: Action)

  // Before managed sessions: tokens without a session, none of them replaced.
  ghost predicate Legacy(a: Auth) {
    && a.db.sessions == map[] && a.usedSessions == {} && a.past == Nothing
    && a.usedTokens == a.db.tokens.Keys && Bounded(a.db, a.next) && HashesDiffer(a.db.tokens)
    && forall t | t in a.db.tokens ::
         && a.db.tokens[t].sessionId.None? && a.db.tokens[t].replacedBy.None?
         && a.db.tokens[t].hash in a.usedHashes
  }

  ghost predicate Legal(run: Run)
    decreases run, 0
  {
    match run
    case Begin(a) => Legacy(a)
    case After(before, action) => Legal(before) && Enabled(End(before), action)
  }

  ghost function End(run: Run): Auth
    requires Legal(run)
    decreases run, 1
  {
    match run
    case Begin(a) => a
    case After(before, action) => Act(End(before), action)
  }

  ghost predicate Extends(run: Run, earlier: Run) {
    run == earlier || (run.After? && Extends(run.before, earlier))
  }

  // -------------------------------------------------------------- invariants

  ghost predicate Registered(a: Auth) {
    && a.db.sessions.Keys <= a.usedSessions && a.db.tokens.Keys <= a.usedTokens && Bounded(a.db, a.next)
    && forall t | t in a.db.tokens :: a.db.tokens[t].hash in a.usedHashes
  }

  // What the facts say about a session and a token now.
  ghost predicate IssuedKept(a: Auth, s: SessionId, t: TokenId) {
    Knows(a.past, Issued(s, t)) ==>
      && s in a.usedSessions && t in a.usedTokens
      && (s in a.db.sessions ==> t in a.db.tokens && a.db.tokens[t].sessionId == Some(s))
      && (t in a.db.tokens ==> a.db.tokens[t].sessionId == Some(s))
  }

  ghost predicate RevokedStays(a: Auth, s: SessionId) {
    Knows(a.past, Revoked(s)) ==>
      s in a.usedSessions && (s in a.db.sessions ==> a.db.sessions[s].revokedAt.Some?)
  }

  ghost predicate SpentStays(a: Auth, t: TokenId, s: SessionId) {
    Knows(a.past, Spent(t, s)) ==>
      t in a.usedTokens && (t in a.db.tokens ==> a.db.tokens[t].revokedAt.Some? && a.db.tokens[t].replacedBy.Some?)
  }

  ghost predicate Faithful(a: Auth, s: SessionId, t: TokenId) {
    IssuedKept(a, s, t) && RevokedStays(a, s) && SpentStays(a, t, s)
  }

  // No token was refreshed twice, and none of a session after the session's revocation.
  ghost predicate OrderedPast(p: Past) {
    p.Nothing?
    || (&& OrderedPast(p.before)
        && (p.fact.Spent? ==>
              && !Knows(p.before, Revoked(p.fact.session))
              && forall s :: !Knows(p.before, Spent(p.fact.token, s))))
  }

  ghost predicate Kept(a: Auth) {
    && Chained(a.db) && Registered(a) && OrderedPast(a.past)
    && (forall s, t :: Faithful(a, s, t))
    && (forall t | t in a.db.tokens && a.db.tokens[t].sessionId.Some? ::
          Knows(a.past, Issued(a.db.tokens[t].sessionId.value, t)))
  }

  lemma LoginKept(a: Auth, action: Action)
    requires Kept(a) && Enabled(a, action) && action.Login?
    ensures Kept(Act(a, action))
  {
    var a' := Act(a, action);
    LoginChained(a.db, action.userId, action.f, action.at);
    forall s, t ensures Faithful(a', s, t) {
      assert Faithful(a, s, t);
    }
  }

  // Changes to the sessions that keep them all, and revoke at most.
  lemma SessionsKept(a: Auth, db: Db)
    requires Kept(a) && db.tokens == a.db.tokens && db.sessions.Keys == a.db.sessions.Keys
    requires forall s | s in db.sessions ::
               && db.sessions[s].userId == a.db.sessions[s].userId
               && db.sessions[s].expiresAt == a.db.sessions[s].expiresAt
               && (a.db.sessions[s].revokedAt.Some? ==> db.sessions[s].revokedAt.Some?)
    ensures Kept(a.(db := db))
  {
    SessionsTouched(a.db, db);
    var a' := a.(db := db);
    forall s, t ensures Faithful(a', s, t) {
      assert Faithful(a, s, t);
    }
  }

  lemma RevokedKept(a: Auth, s: SessionId)
    requires Kept(a) && s in a.db.sessions && a.db.sessions[s].revokedAt.Some?
    ensures Kept(Record(a, Revoked(s)))
  {
    var a' := Record(a, Revoked(s));
    forall r, t ensures Faithful(a', r, t) {
      assert Faithful(a, r, t);
    }
  }

  lemma {:induction false} AllRevokedKept(a: Auth, ids: set<SessionId>)
    requires Kept(a) && ids <= a.db.sessions.Keys
    requires forall s | s in ids :: a.db.sessions[s].revokedAt.Some?
    ensures Kept(RecordAll(a, ids)) && RecordAll(a, ids).db == a.db
    ensures RecordAll(a, ids) == a.(past := RecordAll(a, ids).past)
    decreases ids
  {
    if ids != {} {
      var s :| s in ids && RecordAll(a, ids) == Record(RecordAll(a, ids - {s}), Revoked(s));
      AllRevokedKept(a, ids - {s});
      RevokedKept(RecordAll(a, ids - {s}), s);
    }
  }

  lemma LogoutKept(a: Auth, ids: set<SessionId>, now: int)
    requires Kept(a)
    ensures Kept(RecordAll(a.(db := RevokeEach(a.db, ids, now)), ids * a.db.sessions.Keys))
  {
    SessionsKept(a, RevokeEach(a.db, ids, now));
    AllRevokedKept(a.(db := RevokeEach(a.db, ids, now)), ids * a.db.sessions.Keys);
  }

  lemma SweepKept(a: Auth, db: Db)
    requires Kept(a) && db.tokens.Keys <= a.db.tokens.Keys && db.sessions.Keys <= a.db.sessions.Keys
    requires forall s | s in db.sessions :: db.sessions[s] == a.db.sessions[s]
    requires forall t | t in db.tokens :: db.tokens[t] == a.db.tokens[t]
    requires forall t | t in a.db.tokens && a.db.tokens[t].sessionId.Some? ::
               t in db.tokens <==> a.db.tokens[t].sessionId.value in db.sessions
    ensures Kept(a.(db := db))
  {
    SweepChained(a.db, db);
    var a' := a.(db := db);
    forall s, t ensures Faithful(a', s, t) {
      assert Faithful(a, s, t);
    }
    forall t | t in db.tokens && db.tokens[t].sessionId.Some?
      ensures Knows(a.past, Issued(db.tokens[t].sessionId.value, t)) {
      assert a.db.tokens[t] == db.tokens[t];
    }
  }

  lemma FreshUnused(a: Auth, f: Fresh)
    requires Registered(a) && IsFresh(a, f)
    ensures Unused(a.db, f)
  {
  }

  ghost predicate Rotating(a: Auth, hash: Hash, f: Fresh, at: Times) {
    Kept(a) && Enabled(a, RefreshToken(hash, f, at)) && Refresh(a.db, hash, f, at).1.Refreshed?
  }

  lemma RotationFacts(a: Auth, hash: Hash, f: Fresh, at: Times, fact: Fact)
    requires Rotating(a, hash, f, at)
    ensures var result := Refresh(a.db, hash, f, at).1;
            Knows(AfterRefresh(a, hash, f, at).past, fact) <==>
              || Knows(a.past, fact) || fact == Issued(result.session, result.spent)
              || fact == Issued(result.session, f.tokenId) || fact == Spent(result.spent, result.session)
  {
    var result := Refresh(a.db, hash, f, at).1;
    var one := Then(a.past, Issued(result.session, result.spent));
    var two := Then(one, Issued(result.session, f.tokenId));
    assert AfterRefresh(a, hash, f, at).past == Then(two, Spent(result.spent, result.session));
    assert Knows(two, fact) <==> Knows(one, fact) || fact == two.fact;
  }

  // A refresh that goes through spends a token that was not spent, of a session that was not revoked.
  lemma RotationIsFirst(a: Auth, hash: Hash, f: Fresh, at: Times, s: SessionId)
    requires Rotating(a, hash, f, at)
    ensures var result := Refresh(a.db, hash, f, at).1;
            !Knows(a.past, Spent(result.spent, s)) && !Knows(a.past, Revoked(result.session))
  {
    var result := Refresh(a.db, hash, f, at).1;
    assert GoodToken(a.db, result.spent, a.db.tokens[result.spent]);
    assert Faithful(a, s, result.spent) && Faithful(a, result.session, result.spent);
  }

  lemma RotationIssued(a: Auth, hash: Hash, f: Fresh, at: Times, s: SessionId, t: TokenId)
    requires Rotating(a, hash, f, at)
    ensures IssuedKept(AfterRefresh(a, hash, f, at), s, t)
  {
    var result := Refresh(a.db, hash, f, at).1;
    assert GoodToken(a.db, result.spent, a.db.tokens[result.spent]);
    RotationAtOnce(a.db, result.spent, f, at);
    assert Faithful(a, s, t);
    RotationFacts(a, hash, f, at, Issued(s, t));
  }

  lemma RotationFaithful(a: Auth, hash: Hash, f: Fresh, at: Times, s: SessionId, t: TokenId)
    requires Rotating(a, hash, f, at)
    ensures Faithful(AfterRefresh(a, hash, f, at), s, t)
    ensures var result := Refresh(a.db, hash, f, at).1;
            !Knows(a.past, Spent(result.spent, s)) && !Knows(a.past, Revoked(result.session))
  {
    RotationIsFirst(a, hash, f, at, s);
    RotationIssued(a, hash, f, at, s, t);
    RotationRevokedSpent(a, hash, f, at, s, t);
  }

  lemma RotationRevokedSpent(a: Auth, hash: Hash, f: Fresh, at: Times, s: SessionId, t: TokenId)
    requires Rotating(a, hash, f, at)
    ensures RevokedStays(AfterRefresh(a, hash, f, at), s) && SpentStays(AfterRefresh(a, hash, f, at), t, s)
  {
    var result := Refresh(a.db, hash, f, at).1;
    assert GoodToken(a.db, result.spent, a.db.tokens[result.spent]);
    RotationAtOnce(a.db, result.spent, f, at);
    assert Faithful(a, s, t);
    RotationFacts(a, hash, f, at, Revoked(s));
    RotationFacts(a, hash, f, at, Spent(t, s));
  }

  lemma RotationKept(a: Auth, hash: Hash, f: Fresh, at: Times)
    requires Rotating(a, hash, f, at)
    ensures Kept(AfterRefresh(a, hash, f, at))
  {
    FreshUnused(a, f);
    RefreshChained(a.db, hash, f, at);
    var result := Refresh(a.db, hash, f, at).1;
    var a' := AfterRefresh(a, hash, f, at);
    forall s, t
      ensures Faithful(a', s, t) && !Knows(a.past, Spent(result.spent, s)) && !Knows(a.past, Revoked(result.session))
    {
      RotationFaithful(a, hash, f, at, s, t);
    }
    RotationOrdered(a, hash, f, at);
    RotationRegistered(a, hash, f, at);
  }

  lemma RotationOrdered(a: Auth, hash: Hash, f: Fresh, at: Times)
    requires Rotating(a, hash, f, at)
    ensures OrderedPast(AfterRefresh(a, hash, f, at).past)
  {
    var result := Refresh(a.db, hash, f, at).1;
    var one := Then(a.past, Issued(result.session, result.spent));
    var two := Then(one, Issued(result.session, f.tokenId));
    assert OrderedPast(one) && OrderedPast(two);
    forall s ensures !Knows(two, Spent(result.spent, s)) && !Knows(two, Revoked(result.session)) {
      RotationFaithful(a, hash, f, at, s, result.spent);
      assert Knows(two, Spent(result.spent, s)) <==> Knows(one, Spent(result.spent, s));
      assert Knows(two, Revoked(result.session)) <==> Knows(one, Revoked(result.session));
    }
  }

  lemma RotationRegistered(a: Auth, hash: Hash, f: Fresh, at: Times)
    requires Rotating(a, hash, f, at)
    ensures var a' := AfterRefresh(a, hash, f, at);
            && Registered(a')
            && forall t | t in a'.db.tokens && a'.db.tokens[t].sessionId.Some? ::
                 Knows(a'.past, Issued(a'.db.tokens[t].sessionId.value, t))
  {
    var result := Refresh(a.db, hash, f, at).1;
    var a' := AfterRefresh(a, hash, f, at);
    assert GoodToken(a.db, result.spent, a.db.tokens[result.spent]);
    RotationAtOnce(a.db, result.spent, f, at);
    forall t | t in a'.db.tokens && a'.db.tokens[t].sessionId.Some?
      ensures Knows(a'.past, Issued(a'.db.tokens[t].sessionId.value, t))
    {
      RotationFacts(a, hash, f, at, Issued(a'.db.tokens[t].sessionId.value, t));
    }
  }

  lemma RefreshKept(a: Auth, action: Action)
    requires Kept(a) && Enabled(a, action) && action.RefreshToken?
    ensures Kept(Act(a, action))
  {
    var (db, result) := Refresh(a.db, action.hash, action.f, action.at);
    match result
    case Invalid =>
    case Reuse(exposed) =>
      if exposed.Some? {
        var spent := FindByHash(a.db.tokens, action.hash).value;
        assert GoodToken(a.db, spent, a.db.tokens[spent]);
        SessionsKept(a, db);
        RevokedKept(a.(db := db), exposed.value);
      }
    case Refreshed(_, _, _) => RotationKept(a, action.hash, action.f, action.at);
  }

  lemma ActKept(a: Auth, action: Action)
    requires Kept(a) && Enabled(a, action)
    ensures Kept(Act(a, action))
  {
    match action
    case Tick(to) =>
      forall s, t ensures Faithful(a.(clock := to), s, t) {
        assert Faithful(a, s, t);
      }
    case Login(_, _, _) => FreshUnused(a, action.f); LoginKept(a, action);
    case RefreshToken(_, _, _) => RefreshKept(a, action);
    case Logout(ids, now) => LogoutKept(a, ids, now);
    case CheckActive(id, userId, now) => SessionsKept(a, Touch(a.db, id, userId, now));
    case CleanSessions(now) => SweepKept(a, SweepSessions(a.db, now));
    case CleanTokens(now) => SweepKept(a, SweepTokens(a.db, now));
  }

  lemma {:induction false} AlwaysKept(run: Run)
    requires Legal(run)
    ensures Kept(End(run))
    decreases run
  {
    match run
    case Begin(a) =>
    case After(before, action) =>
      AlwaysKept(before);
      ActKept(End(before), action);
  }

  lemma {:induction false} RecordAllKnows(a: Auth, ids: set<SessionId>, fact: Fact)
    ensures Knows(RecordAll(a, ids).past, fact) <==> Knows(a.past, fact) || (fact.Revoked? && fact.session in ids)
    decreases ids
  {
    if ids != {} {
      var s :| s in ids && RecordAll(a, ids) == Record(RecordAll(a, ids - {s}), Revoked(s));
      var rest := RecordAll(a, ids - {s});
      assert RecordAll(a, ids) == Record(rest, Revoked(s));
      var p := rest.past;
      RecordAllKnows(a, ids - {s}, fact);
      assert Knows(Then(p, Revoked(s)), fact) <==> Revoked(s) == fact || Knows(p, fact);
      assert fact.Revoked? && fact.session in ids
             <==> fact == Revoked(s) || (fact.Revoked? && fact.session in ids - {s});
    }
  }

  // Facts are never forgotten, and only a refresh of a live session adds a Spent.
  lemma ActKnows(a: Auth, action: Action, fact: Fact)
    requires Kept(a) && Enabled(a, action)
    ensures Knows(a.past, fact) ==> Knows(Act(a, action).past, fact)
    ensures fact.Spent? && Knows(a.past, Revoked(fact.session)) ==>
              (Knows(Act(a, action).past, fact) ==> Knows(a.past, fact))
  {
    match action
    case Logout(ids, now) => RecordAllKnows(a.(db := RevokeEach(a.db, ids, now)), ids * a.db.sessions.Keys, fact);
    case RefreshToken(hash, f, at) =>
      if Refresh(a.db, hash, f, at).1.Refreshed? {
        RotationFacts(a, hash, f, at, fact);
        RotationFaithful(a, hash, f, at, 0, 0);
      }
    case _ =>
  }

  // ------------------------------------------------------------ main results

  /** Whatever was committed: from any token of a session the chain leads to its one unrevoked token. */
  lemma {:induction false} ChainsAreWhole(run: Run, t: TokenId)
    requires Legal(run) && t in End(run).db.tokens && End(run).db.tokens[t].sessionId.Some?
    ensures var a := End(run);
            && Chained(a.db) && Bounded(a.db, a.next)
            && IsLive(a.db, a.db.tokens[t].sessionId.value, ChainEnd(a.db, t, a.next))
            && forall u | IsLive(a.db, a.db.tokens[t].sessionId.value, u) :: u == ChainEnd(a.db, t, a.next)
  {
    AlwaysKept(run);
    ChainReachesLive(End(run).db, t, End(run).next);
  }

  /** While a session has its row, every token ever issued for it has one too. */
  lemma {:induction false} IssuedTokensRemain(run: Run, s: SessionId, t: TokenId)
    requires Legal(run) && s in End(run).db.sessions
    ensures var a := End(run);
            Knows(a.past, Issued(s, t)) <==> t in a.db.tokens && a.db.tokens[t].sessionId == Some(s)
  {
    AlwaysKept(run);
    assert Faithful(End(run), s, t);
  }

  /** Presenting a token that is no longer the live one commits the revocation of its session. */
  lemma {:induction false} ReplayRevokes(run: Run, s: SessionId, t: TokenId, f: Fresh, at: Times)
    requires Legal(run) && s in End(run).db.sessions && Knows(End(run).past, Issued(s, t))
    requires !IsLive(End(run).db, s, t)
    requires t in End(run).db.tokens ==> Enabled(End(run), RefreshToken(End(run).db.tokens[t].hash, f, at))
    ensures var a := End(run);
            t in a.db.tokens
            && Refresh(a.db, a.db.tokens[t].hash, f, at).1 == Reuse(Some(s))
            && var a' := Act(a, RefreshToken(a.db.tokens[t].hash, f, at));
               && Knows(a'.past, Revoked(s)) && a'.db.tokens == a.db.tokens
               && s in a'.db.sessions && a'.db.sessions[s].revokedAt.Some?
  {
    IssuedTokensRemain(run, s, t);
    AlwaysKept(run);
    var a := End(run);
    FindsIt(a.db, t);
    assert GoodToken(a.db, t, a.db.tokens[t]);
  }

  /** A revoked session is over: never active again, none of its tokens refreshed again, cleaned up or not. */
  lemma {:induction false} RevokedForGood(earlier: Run, run: Run, s: SessionId)
    requires Legal(earlier) && Legal(run) && Extends(run, earlier) && Knows(End(earlier).past, Revoked(s))
    ensures Knows(End(run).past, Revoked(s))
    ensures forall now :: !Active(End(run).db, s, now)
    ensures forall t :: Knows(End(run).past, Spent(t, s)) <==> Knows(End(earlier).past, Spent(t, s))
    decreases run
  {
    AlwaysKept(run);
    if run != earlier {
      RevokedForGood(earlier, run.before, s);
      AlwaysKept(run.before);
      ActKnows(End(run.before), run.action, Revoked(s));
      forall t ensures Knows(End(run).past, Spent(t, s)) <==> Knows(End(run.before).past, Spent(t, s)) {
        ActKnows(End(run.before), run.action, Spent(t, s));
      }
    }
    assert Faithful(End(run), s, 0);
  }

  function TimesSpent(p: Past, t: TokenId): nat {
    if p.Nothing? then 0 else TimesSpent(p.before, t) + if p.fact.Spent? && p.fact.token == t then 1 else 0
  }

  lemma {:induction false} SpentAtMostOnce(p: Past, t: TokenId)
    requires OrderedPast(p)
    ensures TimesSpent(p, t) <= 1
    ensures TimesSpent(p, t) == 0 <==> forall s :: !Knows(p, Spent(t, s))
  {
    if p.Then? {
      SpentAtMostOnce(p.before, t);
      if p.fact.Spent? && p.fact.token == t {
        assert Knows(p, Spent(t, p.fact.session));
      }
    }
  }

  /** No token is ever exchanged twice. */
  lemma {:induction false} TokensAreSpentOnce(run: Run, t: TokenId)
    requires Legal(run)
    ensures TimesSpent(End(run).past, t) <= 1
  {
    AlwaysKept(run);
    SpentAtMostOnce(End(run).past, t);
  }

  /** At any moment of any run: a session is active for its owner iff its live token refreshes; others expose it. */
  lemma {:induction false} ActiveMeansRefreshable(run: Run, t: TokenId, f: Fresh, at: Times)
    requires Legal(run) && t in End(run).db.tokens && End(run).db.tokens[t].sessionId.Some? && at.begun <= at.checked
    ensures var db := End(run).db; var s := db.tokens[t].sessionId.value;
            var result := Refresh(db, db.tokens[t].hash, f, at).1;
            && (IsLive(db, s, t) ==> (result.Refreshed? <==> ActiveFor(db, s, db.tokens[t].userId, at.checked)))
            && (!IsLive(db, s, t) ==> result == Reuse(Some(s)))
  {
    AlwaysKept(run);
    ActiveIffRefreshable(End(run).db, End(run).db.tokens[t].sessionId.value, t, f, at);
  }

  // --------------------------------------------------- the actions in the columns

  /** Whoever has new ids and has read the clock may act. */
  lemma AnyoneMayAct(a: Auth, userId: UserId, ids: set<SessionId>, id: SessionId, f: Fresh, at: Times, now: int)
    requires f.sessionId !in a.usedSessions && f.tokenId !in a.usedTokens && f.hash !in a.usedHashes
    requires at.begun <= at.checked <= at.stamped <= a.clock && now <= a.clock
    ensures Enabled(a, Login(userId, f, at)) && Enabled(a, Logout(ids, now)) && Enabled(a, CheckActive(id, userId, now))
    ensures Enabled(a, CleanSessions(now)) && Enabled(a, CleanTokens(now))
    ensures forall hash | forall t | t in a.db.tokens && a.db.tokens[t].hash == hash :: t < f.tokenId ::
              Enabled(a, RefreshToken(hash, f, at))
  {
  }

  /** A login makes one session with one live token, and says so. */
  lemma LoginIssues(a: Auth, userId: UserId, f: Fresh, at: Times)
    requires Kept(a) && Enabled(a, Login(userId, f, at))
    ensures var a' := Act(a, Login(userId, f, at)); var expiresAt := at.stamped + 604_800_000;
            && a'.db.sessions == a.db.sessions[f.sessionId := Session(userId, at.begun, expiresAt, None)]
            && a'.db.tokens == a.db.tokens[
                 f.tokenId := Token(userId, f.hash, expiresAt, None, Some(f.sessionId), None)]
            && Knows(a'.past, Issued(f.sessionId, f.tokenId))
  {
  }

  /** A logout revokes the sessions it names, keeps earlier dates and everything else, and says so. */
  lemma LogoutRevokes(a: Auth, ids: set<SessionId>, now: int, s: SessionId)
    requires Kept(a) && Enabled(a, Logout(ids, now)) && s in a.db.sessions
    ensures var a' := Act(a, Logout(ids, now)); var was := a.db.sessions[s];
            && a'.db.tokens == a.db.tokens && a'.db.sessions.Keys == a.db.sessions.Keys
            && (s in ids ==> Knows(a'.past, Revoked(s)))
            && a'.db.sessions[s] == if s !in ids || was.revokedAt.Some? then was
                                    else Session(was.userId, was.lastUsedAt, was.expiresAt, Some(now))
  {
    SessionsKept(a, RevokeEach(a.db, ids, now));
    AllRevokedKept(a.(db := RevokeEach(a.db, ids, now)), ids * a.db.sessions.Keys);
    RecordAllKnows(a.(db := RevokeEach(a.db, ids, now)), ids * a.db.sessions.Keys, Revoked(s));
  }

  /** A check of activity moves the last use of an active session of that user, at most once in five minutes. */
  lemma CheckTouches(a: Auth, id: SessionId, userId: UserId, now: int)
    requires Kept(a) && Enabled(a, CheckActive(id, userId, now))
    ensures var db := a.db; var db' := Act(a, CheckActive(id, userId, now)).db;
            && db'.tokens == db.tokens
            && db'.sessions ==
                 if id in db.sessions && db.sessions[id].userId == userId && db.sessions[id].revokedAt.None?
                    && db.sessions[id].expiresAt > now && db.sessions[id].lastUsedAt < now - 300_000
                 then db.sessions[id := db.sessions[id].(lastUsedAt := now)] else db.sessions
  {
  }

  /** Cleanup deletes exactly what is 30 days past expiry or revocation: sessions with their tokens, loose tokens. */
  lemma CleanupDeletes(a: Auth, now: int, s: SessionId, t: TokenId)
    requires Kept(a) && now <= a.clock
    ensures var sessions := Act(a, CleanSessions(now)).db.sessions;
            s in sessions <==>
              && s in a.db.sessions && a.db.sessions[s].expiresAt >= now - 2_592_000_000
              && (a.db.sessions[s].revokedAt.Some? ==> a.db.sessions[s].revokedAt.value >= now - 2_592_000_000)
    ensures t in Act(a, CleanSessions(now)).db.tokens <==>
              && t in a.db.tokens
              && (a.db.tokens[t].sessionId.Some? ==>
                    a.db.tokens[t].sessionId.value in Act(a, CleanSessions(now)).db.sessions)
    ensures t in Act(a, CleanTokens(now)).db.tokens <==>
              && t in a.db.tokens
              && (a.db.tokens[t].sessionId.None? ==>
                    && a.db.tokens[t].expiresAt >= now - 2_592_000_000
                    && (a.db.tokens[t].revokedAt.Some? ==> a.db.tokens[t].revokedAt.value >= now - 2_592_000_000))
  {
    if t in a.db.tokens {
      assert GoodToken(a.db, t, a.db.tokens[t]);
    }
  }

  /** After a logout the session is never active again. */
  lemma {:induction false} LogoutIsForGood(earlier: Run, ids: set<SessionId>, now: int, run: Run, s: SessionId)
    requires Legal(After(earlier, Logout(ids, now))) && Legal(run) && Extends(run, After(earlier, Logout(ids, now)))
    requires s in ids && s in End(earlier).db.sessions
    ensures forall later :: !Active(End(run).db, s, later)
  {
    AlwaysKept(earlier);
    LogoutRevokes(End(earlier), ids, now, s);
    RevokedForGood(After(earlier, Logout(ids, now)), run, s);
  }

  // ------------------------------------------------------------ whose session

  // The user a session was made for: by the login that made it, or by the refresh of the token it adopted.
  ghost function OwnerOf(run: Run, s: SessionId): Option<UserId>
    requires Legal(run)
  {
    if run.Begin? then None
    else
      var a := End(run.before);
      match run.action
      case Login(userId, f, _) => if f.sessionId == s then Some(userId) else OwnerOf(run.before, s)
      case RefreshToken(hash, f, at) =>
        var result := Refresh(a.db, hash, f, at).1;
        if f.sessionId == s && result.Refreshed? && result.spent in a.db.tokens
           && a.db.tokens[result.spent].sessionId.None?
        then Some(a.db.tokens[result.spent].userId)
        else OwnerOf(run.before, s)
      case _ => OwnerOf(run.before, s)
  }

  lemma SameOwners(a: Auth, action: Action, s: SessionId)
    requires Kept(a) && Enabled(a, action) && s in Act(a, action).db.sessions
    requires !action.Login? && !action.RefreshToken?
    ensures s in a.db.sessions && Act(a, action).db.sessions[s].userId == a.db.sessions[s].userId
  {
    if action.Logout? {
      LogoutKeepsOwners(a, action.ids, action.now);
    }
  }

  lemma LogoutKeepsOwners(a: Auth, ids: set<SessionId>, now: int)
    requires Kept(a)
    ensures RecordAll(a.(db := RevokeEach(a.db, ids, now)), ids * a.db.sessions.Keys).db == RevokeEach(a.db, ids, now)
  {
    SessionsKept(a, RevokeEach(a.db, ids, now));
    AllRevokedKept(a.(db := RevokeEach(a.db, ids, now)), ids * a.db.sessions.Keys);
  }

  // A refresh makes a session only for the user of the token it adopts.
  lemma RefreshOwners(a: Auth, hash: Hash, f: Fresh, at: Times, s: SessionId)
    requires Kept(a) && Enabled(a, RefreshToken(hash, f, at)) && s in AfterRefresh(a, hash, f, at).db.sessions
    ensures var result := Refresh(a.db, hash, f, at).1;
            if f.sessionId == s && result.Refreshed? && result.spent in a.db.tokens
               && a.db.tokens[result.spent].sessionId.None?
            then AfterRefresh(a, hash, f, at).db.sessions[s].userId == a.db.tokens[result.spent].userId
            else s in a.db.sessions && AfterRefresh(a, hash, f, at).db.sessions[s].userId == a.db.sessions[s].userId
  {
    var result := Refresh(a.db, hash, f, at).1;
    if result.Refreshed? {
      assert GoodToken(a.db, result.spent, a.db.tokens[result.spent]);
      RotationAtOnce(a.db, result.spent, f, at);
    }
  }

  lemma {:induction false} SessionsAreOwned(run: Run, s: SessionId)
    requires Legal(run) && s in End(run).db.sessions
    ensures OwnerOf(run, s) == Some(End(run).db.sessions[s].userId)
    decreases run
  {
    if run.After? {
      var a, action := End(run.before), run.action;
      AlwaysKept(run.before);
      match action
      case Login(_, f, _) => if s != f.sessionId { SessionsAreOwned(run.before, s); }
      case RefreshToken(hash, f, at) =>
        RefreshOwners(a, hash, f, at, s);
        if s in a.db.sessions { SessionsAreOwned(run.before, s); }
      case _ =>
        SameOwners(a, action, s);
        SessionsAreOwned(run.before, s);
    }
  }

  /** A session is active for one user only: the one who logged in, or whose old token it adopted. */
  lemma {:induction false} ActiveForItsOwner(run: Run, s: SessionId, userId: UserId, now: int)
    requires Legal(run) && ActiveFor(End(run).db, s, userId, now)
    ensures OwnerOf(run, s) == Some(userId)
  {
    SessionsAreOwned(run, s);
  }
}
