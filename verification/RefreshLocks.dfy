/**
 refreshAccessToken split at its row locks: begin, lock the token row and decide, lock the session
 row, write and commit. Any number of them, interleaved with everything else that touches the two
 tables. Each commit is one atomic refresh, so what holds of atomic runs holds here.
 */
module RefreshLocks {
  import opened Wrappers
  import opened Sessions
  import opened SessionChain
  import opened SessionRuns

  type TxnId = nat

  datatype Stage =
    | Waiting                                                     // for the token row, or not yet asked
    | Decided(token: TokenId, checked: int)                       // holds the token row
    | Ready(token: TokenId, checked: int, stamped: int, f: Fresh)  // holds the session row too, if there is one

  datatype Txn = Txn(hash: Hash, begun: int, stage: Stage)

  // `sequence` hands out token ids; rolled-back transactions waste theirs.
  datatype System = System(a: Auth, open: map<TxnId, Txn>, sequence: TokenId)

  datatype Move =
    | Start(x: TxnId, hash: Hash)
    | LockToken(x: TxnId)
    | LockSession(x: TxnId, f: Fresh)
    | Commit(x: TxnId)
    | Abort(x: TxnId)
    | Other(action: Action)

  predicate HoldsToken(y: System, x: TxnId, t: TokenId) {
    x in y.open && !y.open[x].stage.Waiting? && y.open[x].stage.token == t
  }

  predicate HoldsSession(y: System, x: TxnId, s: SessionId) {
    x in y.open && y.open[x].stage.Ready? && y.open[x].stage.token in y.a.db.tokens
    && y.a.db.tokens[y.open[x].stage.token].sessionId == Some(s)
  }

  ghost predicate TokenHeld(y: System, t: TokenId) {
    exists x :: HoldsToken(y, x, t)
  }

  ghost predicate SessionHeld(y: System, s: SessionId) {
    exists x :: HoldsSession(y, x, s)
  }

  // Ids no finished or open transaction has.
  ghost predicate Drawable(y: System, f: Fresh) {
    && IsFresh(y.a, f) && f.tokenId == y.sequence
    && forall x | x in y.open && y.open[x].stage.Ready? ::
         y.open[x].stage.f.sessionId != f.sessionId && y.open[x].stage.f.hash != f.hash
  }

  // Rows that other statements write, and therefore wait for.
  ghost predicate Free(y: System, action: Action) {
    match action
    case Logout(ids, _) => forall s | s in ids :: !SessionHeld(y, s)
    case CheckActive(id, userId, now) => SessionHeld(y, id) ==> Touch(y.a.db, id, userId, now) == y.a.db
    case CleanSessions(now) =>
      && (forall s | SessionStale(y.a.db, s, now) :: !SessionHeld(y, s))
      && (forall t | t in y.a.db.tokens && t !in SweepSessions(y.a.db, now).tokens :: !TokenHeld(y, t))
    case CleanTokens(now) =>
      forall t | t in y.a.db.tokens && t !in SweepTokens(y.a.db, now).tokens :: !TokenHeld(y, t)
    case _ => true
  }

  predicate IsReuse(t: Token) {
    t.revokedAt.Some? && t.replacedBy.Some?
  }

  ghost predicate MayMove(y: System, m: Move) {
    match m
    case Start(x, _) => x !in y.open
    case LockToken(x) =>
      && x in y.open && y.open[x].stage.Waiting?
      && var found := FindByHash(y.a.db.tokens, y.open[x].hash);
         found.Some? ==> !TokenHeld(y, found.value)
    case LockSession(x, f) =>
      && x in y.open && y.open[x].stage.Decided? && y.open[x].stage.token in y.a.db.tokens && Drawable(y, f)
      && var t := y.a.db.tokens[y.open[x].stage.token];
         // a row that fails the condition is not waited for
         (t.sessionId.Some? && (IsReuse(t) || Active(y.a.db, t.sessionId.value, y.open[x].begun))) ==>
           !SessionHeld(y, t.sessionId.value)
    case Commit(x) => x in y.open && y.open[x].stage.Ready?
    case Abort(x) => x in y.open
    case Other(action) =>
      && !action.RefreshToken? && Enabled(y.a, action) && Free(y, action)
      && (action.Login? ==> Drawable(y, action.f))
  }

  function Staged(y: System, x: TxnId, stage: Stage): System
    requires x in y.open
  {
    y.(open := y.open[x := y.open[x].(stage := stage)])
  }

  function Ended(y: System, x: TxnId): System {
    y.(open := y.open - {x})
  }

  // After the token row is locked: an error answer ends the transaction, which has written nothing.
  ghost function TokenLocked(y: System, x: TxnId): System
    requires x in y.open
  {
    var found := FindByHash(y.a.db.tokens, y.open[x].hash);
    if found.None? then Ended(y, x)
    else
      var t := y.a.db.tokens[found.value];
      if IsReuse(t) || (t.revokedAt.None? && t.expiresAt > y.a.clock)
      then Staged(y, x, Decided(found.value, y.a.clock))
      else Ended(y, x)
  }

  ghost function SessionLocked(y: System, x: TxnId, f: Fresh): System
    requires x in y.open && y.open[x].stage.Decided? && y.open[x].stage.token in y.a.db.tokens
  {
    var stage := y.open[x].stage;
    var t := y.a.db.tokens[stage.token];
    if IsReuse(t) || t.sessionId.None? || Active(y.a.db, t.sessionId.value, y.open[x].begun)
    then Staged(y, x, Ready(stage.token, stage.checked, y.a.clock, f)).(sequence := y.sequence + 1)
    else Ended(y, x)
  }

  function CommitAction(txn: Txn): Action
    requires txn.stage.Ready?
  {
    RefreshToken(txn.hash, txn.stage.f, Times(txn.begun, txn.stage.checked, txn.stage.stamped))
  }

  ghost function Moved(y: System, m: Move): System
    requires Sound(y) && MayMove(y, m)
  {
    match m
    case Start(x, hash) => y.(open := y.open[x := Txn(hash, y.a.clock, Waiting)])
    case LockToken(x) => TokenLocked(y, x)
    case LockSession(x, f) => SessionLocked(y, x, f)
    case Commit(x) =>
      CommitIsRefresh(y, x);
      Ended(y, x).(a := Act(y.a, CommitAction(y.open[x])))
    case Abort(x) => Ended(y, x)
    case Other(action) =>
      y.(a := Act(y.a, action), sequence := if action.Login? then y.sequence + 1 else y.sequence)
  }

  // --------------------------------------------------------------- invariant

  // What a transaction has seen of the rows it holds is still so.
  ghost predicate SoundTxn(y: System, txn: Txn) {
    && txn.begun <= y.a.clock
    && (!txn.stage.Waiting? ==>
          && txn.begun <= txn.stage.checked <= y.a.clock
          && txn.stage.token in y.a.db.tokens
          && var t := y.a.db.tokens[txn.stage.token];
             && t.hash == txn.hash
             && (IsReuse(t) || (t.revokedAt.None? && t.expiresAt > txn.stage.checked))
             && (txn.stage.Ready? ==>
                   && txn.stage.checked <= txn.stage.stamped <= y.a.clock
                   && IsFresh(y.a, txn.stage.f) && txn.stage.token < txn.stage.f.tokenId < y.sequence
                   && (IsReuse(t) || t.sessionId.None? || Active(y.a.db, t.sessionId.value, txn.begun))))
  }

  ghost predicate Exclusive(y: System) {
    && (forall x, z, t | HoldsToken(y, x, t) && HoldsToken(y, z, t) :: x == z)
    && (forall x, z, s | HoldsSession(y, x, s) && HoldsSession(y, z, s) :: x == z)
    && (forall x, z | x in y.open && z in y.open && x != z && y.open[x].stage.Ready? && y.open[z].stage.Ready? ::
          var f, g := y.open[x].stage.f, y.open[z].stage.f;
          f.tokenId != g.tokenId && f.sessionId != g.sessionId && f.hash != g.hash)
  }

  ghost predicate Sound(y: System) {
    && Kept(y.a) && (forall t | t in y.a.usedTokens :: t < y.sequence)
    && Exclusive(y) && forall x | x in y.open :: SoundTxn(y, y.open[x])
  }

  /** A commit is an atomic refresh, decided on the rows as they are when it commits. */
  lemma CommitIsRefresh(y: System, x: TxnId)
    requires Sound(y) && x in y.open && y.open[x].stage.Ready?
    ensures Enabled(y.a, CommitAction(y.open[x]))
    ensures var stage := y.open[x].stage; var t := y.a.db.tokens[stage.token];
            var result := Refresh(y.a.db, y.open[x].hash, stage.f, CommitAction(y.open[x]).at).1;
            && stage.token in y.a.db.tokens
            && (IsReuse(t) ==> result == Reuse(t.sessionId))
            && (!IsReuse(t) ==> result.Refreshed? && result.spent == stage.token)
  {
    assert SoundTxn(y, y.open[x]);
    FindsIt(y.a.db, y.open[x].stage.token);
  }

  // Everything this transaction relies on is the same in `b`.
  ghost predicate Undisturbed(a: Auth, b: Auth, txn: Txn) {
    && a.clock <= b.clock
    && (!txn.stage.Waiting? && txn.stage.token in a.db.tokens ==>
          && txn.stage.token in b.db.tokens && b.db.tokens[txn.stage.token] == a.db.tokens[txn.stage.token]
          && (txn.stage.Ready? ==>
                && IsFresh(b, txn.stage.f)
                && var t := a.db.tokens[txn.stage.token];
                   (!IsReuse(t) && t.sessionId.Some? && Active(a.db, t.sessionId.value, txn.begun) ==>
                      Active(b.db, t.sessionId.value, txn.begun))))
  }

  // The database moved on without disturbing any transaction that stays open.
  lemma Framed(y: System, y': System)
    requires Sound(y) && Kept(y'.a) && y.sequence <= y'.sequence
    requires forall t | t in y'.a.usedTokens :: t < y'.sequence
    requires y'.open.Keys <= y.open.Keys && forall x | x in y'.open :: y'.open[x] == y.open[x]
    requires forall x | x in y'.open :: Undisturbed(y.a, y'.a, y.open[x])
    ensures Sound(y')
  {
    forall x | x in y'.open ensures SoundTxn(y', y'.open[x]) {
      assert SoundTxn(y, y.open[x]) && Undisturbed(y.a, y'.a, y.open[x]);
    }
    forall x, t | HoldsToken(y', x, t) ensures HoldsToken(y, x, t) {
    }
    forall x, s | HoldsSession(y', x, s) ensures HoldsSession(y, x, s) {
      assert SoundTxn(y, y.open[x]) && Undisturbed(y.a, y'.a, y.open[x]);
    }
  }

  // A commit writes its own token, its own session and new rows.
  ghost predicate WritesOnlyItsOwn(a: Auth, b: Auth, token: TokenId, f: Fresh) {
    && token in a.db.tokens && b.clock == a.clock
    && (forall u | u in a.db.tokens && u != token :: u in b.db.tokens && b.db.tokens[u] == a.db.tokens[u])
    && (forall s | s in a.db.sessions && a.db.tokens[token].sessionId != Some(s) ::
          s in b.db.sessions && b.db.sessions[s] == a.db.sessions[s])
    && b.usedSessions <= a.usedSessions + {f.sessionId} && b.usedTokens <= a.usedTokens + {f.tokenId}
    && b.usedHashes <= a.usedHashes + {f.hash}
  }

  lemma RotationEffect(a: Auth, hash: Hash, f: Fresh, at: Times)
    requires Rotating(a, hash, f, at)
    ensures WritesOnlyItsOwn(a, AfterRefresh(a, hash, f, at), Refresh(a.db, hash, f, at).1.spent, f)
  {
    var spent := Refresh(a.db, hash, f, at).1.spent;
    assert GoodToken(a.db, spent, a.db.tokens[spent]);
    RotationAtOnce(a.db, spent, f, at);
  }

  lemma ReuseEffect(a: Auth, token: TokenId, f: Fresh, db: Db, now: int, past: Past)
    requires Kept(a) && token in a.db.tokens
    requires db == RevokeSessionForReuse(a.db, a.db.tokens[token].sessionId, now)
    ensures WritesOnlyItsOwn(a, a.(db := db, past := past), token, f)
  {
  }

  lemma CommitEffect(y: System, x: TxnId)
    requires Sound(y) && MayMove(y, Commit(x))
    ensures WritesOnlyItsOwn(y.a, Moved(y, Commit(x)).a, y.open[x].stage.token, y.open[x].stage.f)
  {
    CommitIsRefresh(y, x);
    var stage := y.open[x].stage;
    var t := y.a.db.tokens[stage.token];
    var action := CommitAction(y.open[x]);
    if IsReuse(t) {
      ReuseEffect(y.a, stage.token, stage.f, Refresh(y.a.db, action.hash, action.f, action.at).0, action.at.begun,
                  Act(y.a, action).past);
    } else {
      RotationEffect(y.a, action.hash, action.f, action.at);
    }
  }

  lemma BystanderUndisturbed(y: System, b: Auth, x: TxnId, z: TxnId)
    requires Exclusive(y) && x in y.open && y.open[x].stage.Ready? && z in y.open && z != x
    requires SoundTxn(y, y.open[z]) && WritesOnlyItsOwn(y.a, b, y.open[x].stage.token, y.open[x].stage.f)
    ensures Undisturbed(y.a, b, y.open[z])
  {
    var token := y.open[x].stage.token;
    assert HoldsToken(y, x, token);
    if !y.open[z].stage.Waiting? {
      assert HoldsToken(y, z, y.open[z].stage.token);
      var u := y.a.db.tokens[y.open[z].stage.token];
      if y.open[z].stage.Ready? && u.sessionId.Some? {
        assert HoldsSession(y, z, u.sessionId.value);
        assert y.a.db.tokens[token].sessionId == u.sessionId ==> HoldsSession(y, x, u.sessionId.value);
      }
    }
  }

  // The new rows' ids came from the sequence before this commit.
  lemma CommitWithinSequence(y: System, x: TxnId)
    requires Sound(y) && MayMove(y, Commit(x))
    ensures Kept(Moved(y, Commit(x)).a)
    ensures forall t | t in Moved(y, Commit(x)).a.usedTokens :: t < y.sequence
  {
    CommitIsRefresh(y, x);
    CommitEffect(y, x);
    ActKept(y.a, CommitAction(y.open[x]));
    assert SoundTxn(y, y.open[x]);
  }

  lemma CommitUndisturbs(y: System, x: TxnId, z: TxnId)
    requires Sound(y) && MayMove(y, Commit(x)) && z in y.open && z != x
    ensures Undisturbed(y.a, Moved(y, Commit(x)).a, y.open[z])
  {
    CommitEffect(y, x);
    assert SoundTxn(y, y.open[z]);
    BystanderUndisturbed(y, Moved(y, Commit(x)).a, x, z);
  }

  lemma CommitSound(y: System, x: TxnId)
    requires Sound(y) && MayMove(y, Commit(x))
    ensures Sound(Moved(y, Commit(x)))
  {
    var y' := Moved(y, Commit(x));
    CommitWithinSequence(y, x);
    forall z | z in y'.open ensures Undisturbed(y.a, y'.a, y.open[z]) {
      CommitUndisturbs(y, x, z);
    }
    Framed(y, y');
  }

  // Other statements wait for the rows a refresh holds, and draw ids of their own.
  lemma HeldTokenStays(y: System, action: Action, token: TokenId)
    requires Sound(y) && MayMove(y, Other(action)) && TokenHeld(y, token) && token in y.a.db.tokens
    ensures token in Act(y.a, action).db.tokens && Act(y.a, action).db.tokens[token] == y.a.db.tokens[token]
  {
    assert GoodToken(y.a.db, token, y.a.db.tokens[token]);
    if action.Logout? {
      LogoutOnlyRecords(y.a, action);
    }
  }

  lemma HeldSessionStays(y: System, action: Action, s: SessionId, begun: int)
    requires Sound(y) && MayMove(y, Other(action)) && SessionHeld(y, s) && Active(y.a.db, s, begun)
    ensures Active(Act(y.a, action).db, s, begun)
  {
    if action.Logout? {
      LogoutOnlyRecords(y.a, action);
    }
  }

  lemma DrawnStaysFresh(y: System, action: Action, z: TxnId)
    requires Sound(y) && MayMove(y, Other(action)) && z in y.open && y.open[z].stage.Ready?
    ensures IsFresh(Act(y.a, action), y.open[z].stage.f)
  {
    assert SoundTxn(y, y.open[z]);
    if action.Logout? {
      LogoutOnlyRecords(y.a, action);
    }
  }

  lemma OtherClock(y: System, action: Action)
    requires Sound(y) && MayMove(y, Other(action))
    ensures y.a.clock <= Act(y.a, action).clock
  {
    if action.Logout? {
      LogoutOnlyRecords(y.a, action);
    }
  }

  lemma OtherUndisturbed(y: System, action: Action, z: TxnId)
    requires Sound(y) && MayMove(y, Other(action)) && z in y.open
    ensures Undisturbed(y.a, Act(y.a, action), y.open[z])
  {
    var txn := y.open[z];
    assert SoundTxn(y, txn);
    OtherClock(y, action);
    if !txn.stage.Waiting? {
      assert HoldsToken(y, z, txn.stage.token);
      HeldTokenStays(y, action, txn.stage.token);
      if txn.stage.Ready? {
        DrawnStaysFresh(y, action, z);
        var t := y.a.db.tokens[txn.stage.token];
        if t.sessionId.Some? && Active(y.a.db, t.sessionId.value, txn.begun) {
          assert HoldsSession(y, z, t.sessionId.value);
          HeldSessionStays(y, action, t.sessionId.value, txn.begun);
        }
      }
    }
  }

  lemma LogoutOnlyRecords(a: Auth, action: Action)
    requires Kept(a) && Enabled(a, action) && action.Logout?
    ensures var b := a.(db := RevokeEach(a.db, action.ids, action.now));
            Act(a, action) == b.(past := Act(a, action).past)
  {
    SessionsKept(a, RevokeEach(a.db, action.ids, action.now));
    AllRevokedKept(a.(db := RevokeEach(a.db, action.ids, action.now)), action.ids * a.db.sessions.Keys);
  }

  lemma OtherSound(y: System, action: Action)
    requires Sound(y) && MayMove(y, Other(action))
    ensures Sound(Moved(y, Other(action)))
  {
    var y' := Moved(y, Other(action));
    ActKept(y.a, action);
    forall z | z in y'.open ensures Undisturbed(y.a, y'.a, y.open[z]) {
      OtherUndisturbed(y, action, z);
    }
    if action.Logout? {
      LogoutOnlyRecords(y.a, action);
    }
    Framed(y, y');
  }

  // One transaction moved to a new stage; the database did not change.
  lemma StagedSound(y: System, x: TxnId, txn: Txn, sequence: TokenId)
    requires Sound(y) && y.sequence <= sequence
    requires var y' := System(y.a, y.open[x := txn], sequence);
             && SoundTxn(y', txn)
             && (forall t, z | z != x && HoldsToken(y, z, t) :: !HoldsToken(y', x, t))
             && (forall s, z | z != x && HoldsSession(y, z, s) :: !HoldsSession(y', x, s))
             && (txn.stage.Ready? ==> Drawable(y.(open := y.open - {x}), txn.stage.f))
    ensures Sound(System(y.a, y.open[x := txn], sequence))
  {
    var y' := System(y.a, y.open[x := txn], sequence);
    forall z | z in y'.open ensures SoundTxn(y', y'.open[z]) {
      assert z != x ==> SoundTxn(y, y.open[z]);
    }
    StagedExclusive(y, x, txn, sequence);
  }

  lemma StagedExclusive(y: System, x: TxnId, txn: Txn, sequence: TokenId)
    requires Exclusive(y) && forall z | z in y.open :: SoundTxn(y, y.open[z])
    requires var y' := System(y.a, y.open[x := txn], sequence);
             && (forall t, z | z != x && HoldsToken(y, z, t) :: !HoldsToken(y', x, t))
             && (forall s, z | z != x && HoldsSession(y, z, s) :: !HoldsSession(y', x, s))
             && (txn.stage.Ready? ==> Drawable(y.(open := y.open - {x}), txn.stage.f))
    ensures Exclusive(System(y.a, y.open[x := txn], sequence))
  {
    var y' := System(y.a, y.open[x := txn], sequence);
    forall z, w, t | HoldsToken(y', z, t) && HoldsToken(y', w, t) ensures z == w {
      assert z != x ==> HoldsToken(y, z, t);
      assert w != x ==> HoldsToken(y, w, t);
    }
    forall z, w, s | HoldsSession(y', z, s) && HoldsSession(y', w, s) ensures z == w {
      assert z != x ==> HoldsSession(y, z, s);
      assert w != x ==> HoldsSession(y, w, s);
    }
    forall z | z in y.open && z != x && y.open[z].stage.Ready? && txn.stage.Ready?
      ensures var f, g := y.open[z].stage.f, txn.stage.f;
              f.tokenId != g.tokenId && f.sessionId != g.sessionId && f.hash != g.hash
    {
      assert SoundTxn(y, y.open[z]);
      assert z in (y.open - {x});
    }
  }

  lemma EndedSound(y: System, x: TxnId)
    requires Sound(y)
    ensures Sound(Ended(y, x))
  {
    Framed(y, Ended(y, x));
  }

  lemma LockTokenSound(y: System, x: TxnId)
    requires Sound(y) && MayMove(y, LockToken(x))
    ensures Sound(Moved(y, LockToken(x)))
  {
    var y' := TokenLocked(y, x);
    if x in y'.open {
      var found := FindByHash(y.a.db.tokens, y.open[x].hash).value;
      assert SoundTxn(y, y.open[x]);
      forall t, z | z != x && HoldsToken(y, z, t) ensures !HoldsToken(y', x, t) {
        assert TokenHeld(y, t);
      }
      StagedSound(y, x, y'.open[x], y.sequence);
    } else {
      EndedSound(y, x);
    }
  }

  lemma LockSessionSound(y: System, x: TxnId, f: Fresh)
    requires Sound(y) && MayMove(y, LockSession(x, f))
    ensures Sound(Moved(y, LockSession(x, f)))
  {
    var y' := SessionLocked(y, x, f);
    assert SoundTxn(y, y.open[x]);
    if x in y'.open {
      var token := y.open[x].stage.token;
      assert HoldsToken(y, x, token);
      forall s, z | z != x && HoldsSession(y, z, s) ensures !HoldsSession(y', x, s) {
        assert SessionHeld(y, s);
      }
      assert token in y.a.usedTokens;
      StagedSound(y, x, y'.open[x], y.sequence + 1);
    } else {
      EndedSound(y, x);
    }
  }

  lemma MoveSound(y: System, m: Move)
    requires Sound(y) && MayMove(y, m)
    ensures Sound(Moved(y, m))
  {
    match m
    case Start(x, hash) => StagedSound(y, x, Txn(hash, y.a.clock, Waiting), y.sequence);
    case LockToken(x) => LockTokenSound(y, x);
    case LockSession(x, f) => LockSessionSound(y, x, f);
    case Commit(x) => CommitSound(y, x);
    case Abort(x) => EndedSound(y, x);
    case Other(action) => OtherSound(y, action);
  }

  // ------------------------------------------------------------ main results

  datatype Trace = Outset(a: Auth) | Onward(before: Trace, move: Move)

  ghost predicate Possible(trace: Trace)
    decreases trace, 0
  {
    match trace
    case Outset(a) => Legacy(a)
    case Onward(before, move) => Possible(before) && MayMove(Reached(before), move)
  }

  ghost function Reached(trace: Trace): (y: System)
    requires Possible(trace)
    ensures Sound(y)
    decreases trace, 1
  {
    match trace
    case Outset(a) =>
      AlwaysKept(Begin(a));
      System(a, map[], a.next)
    case Onward(before, move) =>
      MoveSound(Reached(before), move);
      Moved(Reached(before), move)
  }

  lemma MoveRefines(y: System, m: Move, run: Run) returns (run': Run)
    requires Sound(y) && MayMove(y, m) && Legal(run) && End(run) == y.a
    ensures Legal(run') && End(run') == Moved(y, m).a
  {
    run' := run;
    if m.Other? {
      run' := After(run, m.action);
    } else if m.Commit? {
      CommitIsRefresh(y, m.x);
      run' := After(run, CommitAction(y.open[m.x]));
    }
  }

  /** Refinement: whatever the interleaving, the committed tables are those of a run of atomic refreshes. */
  lemma {:induction false} LocksRefineRefreshes(trace: Trace) returns (run: Run)
    requires Possible(trace)
    ensures Legal(run) && End(run) == Reached(trace).a
    decreases trace
  {
    if trace.Outset? {
      run := Begin(trace.a);
    } else {
      run := LocksRefineRefreshes(trace.before);
      run := MoveRefines(Reached(trace.before), trace.move, run);
    }
  }

  /** Of any number of concurrent refreshes of one token, at most one ever returns ok. */
  lemma {:induction false} OneWinner(trace: Trace, t: TokenId)
    requires Possible(trace)
    ensures TimesSpent(Reached(trace).a.past, t) <= 1
  {
    var run := LocksRefineRefreshes(trace);
    TokensAreSpentOnce(run, t);
  }

  // A commit on a token that is already spent.
  lemma SpentMeansReuse(y: System, x: TxnId, s: SessionId)
    requires Sound(y) && MayMove(y, Commit(x)) && Knows(y.a.past, Spent(y.open[x].stage.token, s))
    ensures var token := y.open[x].stage.token; var sid := y.a.db.tokens[token].sessionId;
            && token in y.a.db.tokens && IsReuse(y.a.db.tokens[token]) && sid.Some? && sid.value in y.a.db.sessions
  {
    var token := y.open[x].stage.token;
    assert Faithful(y.a, s, token) && SoundTxn(y, y.open[x]);
    assert GoodToken(y.a.db, token, y.a.db.tokens[token]);
  }

  /** The loser, once it gets the row, finds it rotated: its commit revokes the session. */
  lemma {:induction false} LoserRevokes(trace: Trace, y: System, x: TxnId, s: SessionId)
    requires Possible(trace) && y == Reached(trace) && MayMove(y, Commit(x))
    requires Knows(y.a.past, Spent(y.open[x].stage.token, s))
    ensures var y' := Moved(y, Commit(x));
            var session := y.a.db.tokens[y.open[x].stage.token].sessionId;
            && session.Some? && session.value in y'.a.db.sessions
            && y'.a.db.sessions[session.value].revokedAt.Some? && Knows(y'.a.past, Revoked(session.value))
            && y'.a.db.tokens == y.a.db.tokens
  {
    SpentMeansReuse(y, x, s);
    CommitIsRefresh(y, x);
  }

  /** A blocked competitor that is handed the row after a rotation goes down the reuse path. */
  lemma {:induction false} BlockedCompetitorRereads(trace: Trace, y: System, x: TxnId, t: TokenId, s: SessionId)
    requires Possible(trace) && y == Reached(trace) && MayMove(y, LockToken(x)) && t in y.a.db.tokens
    requires y.open[x].hash == y.a.db.tokens[t].hash && Knows(y.a.past, Spent(t, s))
    ensures var y' := Moved(y, LockToken(x));
            x in y'.open && HoldsToken(y', x, t) && IsReuse(y'.a.db.tokens[t])
  {
    FindsIt(y.a.db, t);
    assert Faithful(y.a, s, t);
  }

  /** No refresh that asks for the session row after a committed revocation gets past it. */
  lemma {:induction false} RevokedBlocksRefresh(trace: Trace, y: System, x: TxnId, f: Fresh, s: SessionId)
    requires Possible(trace) && y == Reached(trace) && MayMove(y, LockSession(x, f))
    requires Knows(y.a.past, Revoked(s))
    requires y.a.db.tokens[y.open[x].stage.token].sessionId == Some(s)
    requires y.a.db.tokens[y.open[x].stage.token].revokedAt.None?
    ensures x !in Moved(y, LockSession(x, f)).open && Moved(y, LockSession(x, f)).a == y.a
  {
    assert Faithful(y.a, s, 0);
  }

  // ---------------------------------------------------- what the locks decide

  /** With the token row locked, a refresh goes on exactly for a replaced token or one neither revoked nor expired. */
  lemma {:induction false} TokenDecides(trace: Trace, y: System, x: TxnId)
    requires Possible(trace) && y == Reached(trace) && MayMove(y, LockToken(x))
    ensures x in Moved(y, LockToken(x)).open <==>
              exists t | t in y.a.db.tokens ::
                && y.a.db.tokens[t].hash == y.open[x].hash
                && if y.a.db.tokens[t].revokedAt.Some? then y.a.db.tokens[t].replacedBy.Some?
                   else y.a.db.tokens[t].expiresAt > y.a.clock
  {
    if t :| t in y.a.db.tokens && y.a.db.tokens[t].hash == y.open[x].hash {
      FindsIt(y.a.db, t);
    }
  }

  /** Then it gets to write exactly on a replay, for a token without a session, or for one whose session is active. */
  lemma {:induction false} SessionDecides(trace: Trace, y: System, x: TxnId, f: Fresh)
    requires Possible(trace) && y == Reached(trace) && MayMove(y, LockSession(x, f))
    ensures x in Moved(y, LockSession(x, f)).open <==>
              var t := y.a.db.tokens[y.open[x].stage.token];
              || (t.revokedAt.Some? && t.replacedBy.Some?)
              || t.sessionId.None?
              || (&& t.sessionId.value in y.a.db.sessions && y.a.db.sessions[t.sessionId.value].revokedAt.None?
                  && y.a.db.sessions[t.sessionId.value].expiresAt > y.open[x].begun)
  {
  }

  // The transaction's time is the clock's when it began.
  ghost predicate BegunAt(trace: Trace, x: TxnId, begun: int)
    requires Possible(trace)
  {
    && trace.Onward?
    && if trace.move.Start? && trace.move.x == x then begun == Reached(trace.before).a.clock
       else x in Reached(trace.before).open && BegunAt(trace.before, x, begun)
  }

  lemma KeepsBegun(y: System, m: Move, x: TxnId)
    requires Sound(y) && MayMove(y, m) && x in Moved(y, m).open && !(m.Start? && m.x == x)
    ensures x in y.open && Moved(y, m).open[x].begun == y.open[x].begun
  {
  }

  lemma {:induction false} OneTimePerTransaction(trace: Trace, x: TxnId)
    requires Possible(trace)
    ensures x in Reached(trace).open ==> BegunAt(trace, x, Reached(trace).open[x].begun)
    decreases trace
  {
    if trace.Onward? && x in Reached(trace).open && !(trace.move.Start? && trace.move.x == x) {
      KeepsBegun(Reached(trace.before), trace.move, x);
      OneTimePerTransaction(trace.before, x);
    }
  }

  // ---------------------------------------- and every refresh can be carried out

  // Ids that nobody has drawn.
  predicate Unclaimed(y: System, f: Fresh) {
    f.sessionId !in y.a.usedSessions && f.hash !in y.a.usedHashes && f.tokenId == y.sequence
  }

  // A move made is a trace made longer.
  lemma Further(trace: Trace, m: Move)
    requires Possible(trace) && MayMove(Reached(trace), m)
    ensures Possible(Onward(trace, m)) && Reached(Onward(trace, m)) == Moved(Reached(trace), m)
  {
  }

  // The one open transaction, at this stage.
  predicate Alone(y: System, x: TxnId, hash: Hash, stage: Stage) {
    y.open == map[x := Txn(hash, y.a.clock, stage)]
  }

  lemma LockTokenAlone(y: System, x: TxnId, t: TokenId)
    requires Sound(y) && t in y.a.db.tokens && Alone(y, x, y.a.db.tokens[t].hash, Waiting)
    requires var token := y.a.db.tokens[t];
             if token.revokedAt.Some? then token.replacedBy.Some? else token.expiresAt > y.a.clock
    ensures MayMove(y, LockToken(x))
    ensures var y' := Moved(y, LockToken(x));
            y'.a == y.a && y'.sequence == y.sequence && Alone(y', x, y.a.db.tokens[t].hash, Decided(t, y.a.clock))
  {
    FindsIt(y.a.db, t);
    assert !TokenHeld(y, t);
  }

  lemma LockSessionAlone(y: System, x: TxnId, t: TokenId, f: Fresh)
    requires Sound(y) && t in y.a.db.tokens && Alone(y, x, y.a.db.tokens[t].hash, Decided(t, y.a.clock))
    requires Unclaimed(y, f)
    requires var token := y.a.db.tokens[t];
             IsReuse(token) || token.sessionId.None? || Active(y.a.db, token.sessionId.value, y.a.clock)
    ensures MayMove(y, LockSession(x, f))
    ensures var y' := Moved(y, LockSession(x, f));
            y'.a == y.a && Alone(y', x, y.a.db.tokens[t].hash, Ready(t, y.a.clock, y.a.clock, f))
  {
    var token := y.a.db.tokens[t];
    assert token.sessionId.Some? ==> !SessionHeld(y, token.sessionId.value);
  }

  lemma CommitAlone(y: System, x: TxnId, t: TokenId, f: Fresh)
    requires Sound(y) && t in y.a.db.tokens && Alone(y, x, y.a.db.tokens[t].hash, Ready(t, y.a.clock, y.a.clock, f))
    ensures var at := Times(y.a.clock, y.a.clock, y.a.clock); var hash := y.a.db.tokens[t].hash;
            && Enabled(y.a, RefreshToken(hash, f, at))
            && Moved(y, Commit(x)).open == map[] && Moved(y, Commit(x)).a == Act(y.a, RefreshToken(hash, f, at))
  {
    CommitIsRefresh(y, x);
    assert y.open - {x} == map[];
  }

  lemma GrantedAlone(db: Db, t: TokenId, f: Fresh, now: int)
    requires HashesDiffer(db.tokens) && t in db.tokens
    requires Refresh(db, db.tokens[t].hash, f, Times(now, now, now)).1 != Invalid
    ensures var token := db.tokens[t];
            && (if token.revokedAt.Some? then token.replacedBy.Some? else token.expiresAt > now)
            && (IsReuse(token) || token.sessionId.None? || Active(db, token.sessionId.value, now))
  {
    FindsIt(db, t);
  }

  /** With nobody in the way the locks let a refresh through, and it commits what an atomic one would. */
  lemma {:induction false} LoneRefreshCommits(trace: Trace, y: System, x: TxnId, t: TokenId, f: Fresh)
    returns (trace': Trace)
    requires Possible(trace) && y == Reached(trace) && y.open == map[] && t in y.a.db.tokens && Unclaimed(y, f)
    requires Refresh(y.a.db, y.a.db.tokens[t].hash, f, Times(y.a.clock, y.a.clock, y.a.clock)).1 != Invalid
    ensures Possible(trace') && Reached(trace').open == map[]
    ensures var at := Times(y.a.clock, y.a.clock, y.a.clock); var hash := y.a.db.tokens[t].hash;
            Enabled(y.a, RefreshToken(hash, f, at)) && Reached(trace').a == Act(y.a, RefreshToken(hash, f, at))
  {
    var hash := y.a.db.tokens[t].hash;
    GrantedAlone(y.a.db, t, f, y.a.clock);
    Further(trace, Start(x, hash));
    var started := Onward(trace, Start(x, hash));
    LockTokenAlone(Reached(started), x, t);
    Further(started, LockToken(x));
    var decided := Onward(started, LockToken(x));
    LockSessionAlone(Reached(decided), x, t, f);
    Further(decided, LockSession(x, f));
    var ready := Onward(decided, LockSession(x, f));
    CommitAlone(Reached(ready), x, t, f);
    Further(ready, Commit(x));
    trace' := Onward(ready, Commit(x));
  }
}
