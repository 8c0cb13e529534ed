/**
 What a run's history says about a row: how its attempts add up, how long they took, and which
 columns its status allows.
 */
module OutboxLedger {
  import opened Wrappers
  import opened Numbers
  import opened OutboxRepository
  import opened OutboxProtocol
  import opened OutboxFencing

  // ------------------------------------- read off the history, latest entry last

  // The row was inserted or replayed: counting starts over.
  predicate Restarts(e: Entry, id: EventId) {
    e == Enqueued(id) || e == Requeued(id)
  }

  predicate Takes(e: Entry, id: EventId) {
    e.Took? && (id in e.fromPending || id in e.takenOver)
  }

  // Retries since the last restart.
  function Retries(h: History, id: EventId): nat {
    if h.Nothing? || Restarts(h.entry, id) then 0
    else Retries(h.past, id) + if h.entry == Retried(id) then 1 else 0
  }

  // Claims of a row whose lease had run out, since the last restart.
  function Takeovers(h: History, id: EventId): nat {
    if h.Nothing? || Restarts(h.entry, id) then 0
    else Takeovers(h.past, id) + if h.entry.Took? && id in h.entry.takenOver then 1 else 0
  }

  function FirstClaim(h: History, id: EventId): Option<int> {
    if h.Nothing? || Restarts(h.entry, id) then None
    else if FirstClaim(h.past, id).None? && Takes(h.entry, id) then Some(h.entry.now)
    else FirstClaim(h.past, id)
  }

  function LastClaim(h: History, id: EventId): Option<int> {
    if h.Nothing? || Restarts(h.entry, id) then None
    else if Takes(h.entry, id) then Some(h.entry.now)
    else LastClaim(h.past, id)
  }

  // -------------------------------------------------------- what a row obeys

  ghost predicate WellFormed(r: Row) {
    && (r.lockedBy.Some? <==> r.status.Processing?) && (r.lockedAt.Some? <==> r.status.Processing?)
    && (r.processedAt.Some? <==> r.status.Published?)
    && (r.deadLetteredAt.Some? <==> r.status.DeadLetter?)
    && (r.lastError.Some? <==> r.status.DeadLetter? || (r.status.Pending? && r.attempts > 0))
  }

  ghost predicate Accounts(c: Config, h: History, id: EventId, r: Row) {
    && r.attempts == Retries(h, id) + Takeovers(h, id) + (if r.status.Pending? then 0 else 1)
    && Retries(h, id) <= c.maxAttempts - 1
  }

  ghost predicate RowLedger(c: Config, s: State, id: EventId)
    requires id in s.rows
  {
    WellFormed(s.rows[id]) && Accounts(c, s.history, id, s.rows[id])
    && (s.rows[id].lockedAt.Some? ==> s.rows[id].lockedAt.value <= s.clock)
  }

  // A worker that saw an error saw it after the claims of the rows it still holds.
  ghost predicate FailedLater(s: State, w: WorkerId, a: Activity) {
    a.Busy? && a.phase.Failing? ==>
      && a.phase.failedAt <= s.clock
      && forall i | 0 <= i < |a.todo| && Holds(s.rows, a.todo[i].event.id, w) ::
           var r := s.rows[a.todo[i].event.id]; r.lockedAt.Some? && r.lockedAt.value <= a.phase.failedAt
  }

  ghost predicate Ledger(c: Config, s: State) {
    && (forall id | id in s.rows :: RowLedger(c, s, id))
    && (forall w | w in s.workers :: FailedLater(s, w, s.workers[w]))
  }

  // ------------------------------------------------------------------- steps

  // Entries that say nothing about claims and retries.
  ghost predicate SameLedger(h: History, h': History, id: EventId) {
    && Retries(h', id) == Retries(h, id) && Takeovers(h', id) == Takeovers(h, id)
    && FirstClaim(h', id) == FirstClaim(h, id) && LastClaim(h', id) == LastClaim(h, id)
  }

  lemma EffectsKeepLedger(h: History, h': History, dispatched: EventId, id: EventId)
    requires Effects(h, h', dispatched)
    ensures SameLedger(h, h', id)
  {
  }

  lemma QuietHistory(c: Config, s: State, step: Step, id: EventId)
    requires Enabled(c, s, step) && IsQuiet(step)
    ensures SameLedger(s.history, Apply(c, s, step).history, id)
  {
    if IsDispatching(step) {
      DispatchingWorks(c, s, step);
      EffectsKeepLedger(s.history, Apply(c, s, step).history, Head(s, step.w).event.id, id);
    }
  }

  lemma QuietFailure(c: Config, s: State, s': State, w: WorkerId)
    requires Ledger(c, s) && s'.rows == s.rows && s'.clock >= s.clock && SameTodo(s, s')
    requires w in s'.workers && s'.workers[w].Busy? && s'.workers[w].phase.Failing?
    ensures FailedLater(s', w, s'.workers[w])
  {
    assert FailedLater(s, w, s.workers[w]);
    var todo := s.workers[w].todo;
    forall i | 0 <= i < |todo| && Holds(s.rows, todo[i].event.id, w)
      ensures var r := s.rows[todo[i].event.id];
              r.lockedAt.Some? && r.lockedAt.value <= s'.workers[w].phase.failedAt
    {
      assert RowLedger(c, s, todo[i].event.id);
    }
  }

  lemma QuietLedger(c: Config, s: State, step: Step)
    requires Ledger(c, s) && Enabled(c, s, step) && IsQuiet(step)
    ensures Ledger(c, Apply(c, s, step))
  {
    var s' := Apply(c, s, step);
    QuietStep(c, s, step);
    ClockAdvances(c, s, step);
    forall id | id in s'.rows ensures RowLedger(c, s', id) {
      QuietHistory(c, s, step, id);
      assert RowLedger(c, s, id);
    }
    forall w | w in s'.workers ensures FailedLater(s', w, s'.workers[w]) {
      if s'.workers[w].Busy? && s'.workers[w].phase.Failing? {
        QuietFailure(c, s, s', w);
      }
    }
  }

  predicate Concerns(e: Entry, id: EventId) {
    e == Enqueued(id) || e == Requeued(id) || e == Retried(id) || e == Finished(id) || e == Buried(id)
  }

  lemma LedgerOneRow(c: Config, s: State, id: EventId, r: Row, e: Entry)
    requires Ledger(c, s) && Concerns(e, id) && !r.status.Processing? && WellFormed(r)
    requires Accounts(c, Then(s.history, e), id, r)
    ensures Ledger(c, Log(s.(rows := s.rows[id := r]), e))
  {
    var s' := Log(s.(rows := s.rows[id := r]), e);
    forall k | k in s'.rows ensures RowLedger(c, s', k) {
      if k != id {
        assert RowLedger(c, s, k);
      }
    }
    forall w | w in s'.workers ensures FailedLater(s', w, s'.workers[w]) {
      assert FailedLater(s, w, s.workers[w]);
    }
  }

  // The worker finishes, drops or fails its first copy.
  lemma LedgerProgress(c: Config, s: State, w: WorkerId, a: Activity)
    requires Ledger(c, s) && In(s, w)
    requires a.Busy? && a.phase.Failing? ==> a.todo == s.workers[w].todo && a.phase.failedAt == s.clock
    ensures Ledger(c, s.(workers := s.workers[w := a]))
  {
    var s' := s.(workers := s.workers[w := a]);
    assert forall id | id in s'.rows :: RowLedger(c, s, id) && RowLedger(c, s', id);
    forall v | v in s'.workers ensures FailedLater(s', v, s'.workers[v]) {
      if v != w {
        assert FailedLater(s, v, s.workers[v]);
      } else if a.Busy? && a.phase.Failing? {
        forall i | 0 <= i < |a.todo| && Holds(s.rows, a.todo[i].event.id, w)
          ensures var r := s.rows[a.todo[i].event.id]; r.lockedAt.Some? && r.lockedAt.value <= s.clock
        {
          assert RowLedger(c, s, a.todo[i].event.id);
        }
      }
    }
  }

  lemma LedgerEnqueue(c: Config, s: State, e: Event)
    requires c.maxAttempts >= 1 && Ledger(c, s) && e.id !in s.rows
    ensures Ledger(c, Log(s.(rows := Inserted(s.rows, e, s.clock)), Enqueued(e.id)))
  {
    LedgerOneRow(c, s, e.id, NewRow(e, s.clock), Enqueued(e.id));
  }

  lemma LedgerReplay(c: Config, s: State, id: EventId)
    requires c.maxAttempts >= 1 && Ledger(c, s) && CanReplay(s.rows, id)
    ensures Ledger(c, Log(s.(rows := Replayed(s.rows, id, s.clock)), Requeued(id)))
  {
    LedgerOneRow(c, s, id, ReplayRow(s.rows[id], s.clock), Requeued(id));
  }

  lemma FinishedLedger(c: Config, s: State, id: EventId)
    requires Ledger(c, s) && id in s.rows && s.rows[id].status.Processing?
    ensures Ledger(c, Log(s.(rows := s.rows[id := PublishRow(s.rows[id], s.clock)]), Finished(id)))
  {
    assert RowLedger(c, s, id);
    LedgerOneRow(c, s, id, PublishRow(s.rows[id], s.clock), Finished(id));
  }

  lemma PublishMovesOn(c: Config, s: State, step: Step) returns (mid: State, a: Activity)
    requires Enabled(c, s, step) && step.Publish?
    ensures var id := Head(s, step.w).event.id;
            mid == if !step.reply.Refused? && Holds(s.rows, id, step.w)
                   then Log(s.(rows := s.rows[id := PublishRow(s.rows[id], s.clock)]), Finished(id)) else s
    ensures In(mid, step.w) && Apply(c, s, step) == mid.(workers := mid.workers[step.w := a])
    ensures a.Busy? && a.phase.Failing? ==> a.todo == mid.workers[step.w].todo && a.phase.failedAt == mid.clock
  {
    var id := Head(s, step.w).event.id;
    mid := if !step.reply.Refused? && Holds(s.rows, id, step.w)
           then Log(s.(rows := s.rows[id := PublishRow(s.rows[id], s.clock)]), Finished(id)) else s;
    a := Apply(c, s, step).workers[step.w];
  }

  lemma LedgerPublish(c: Config, s: State, step: Step)
    requires Ledger(c, s) && Enabled(c, s, step) && step.Publish?
    ensures Ledger(c, Apply(c, s, step))
  {
    var mid, a := PublishMovesOn(c, s, step);
    if Holds(s.rows, Head(s, step.w).event.id, step.w) {
      FinishedLedger(c, s, Head(s, step.w).event.id);
    }
    LedgerProgress(c, mid, step.w, a);
  }

  // The row after the catch block, given when its worker failed.
  lemma SettledRowLedger(c: Config, s: State, id: EventId, failedAt: int, error: string)
    requires id in s.rows && RowLedger(c, s, id) && WithinBudget(c, s.rows[id]) && s.rows[id].status.Processing?
    ensures var n := s.rows[id].attempts;
            var r := if n >= c.maxAttempts then BuryRow(s.rows[id], s.clock, error)
                     else ReleaseRow(s.rows[id], RetryAt(c, failedAt, n), error);
            var h := Then(s.history, if n >= c.maxAttempts then Buried(id) else Retried(id));
            WellFormed(r) && Accounts(c, h, id, r)
  {
  }

  // The fence: what the worker has in hand is what the row says.
  lemma HeldCopy(c: Config, s: State, w: WorkerId)
    requires Fencing(c, s) && Ledger(c, s) && In(s, w) && PhaseOf(s, w).Failing?
    requires Holds(s.rows, Head(s, w).event.id, w)
    ensures var r := s.rows[Head(s, w).event.id];
            && RowLedger(c, s, Head(s, w).event.id) && WithinBudget(c, r) && r.attempts == Head(s, w).attempts
            && r.lockedAt.Some? && r.lockedAt.value <= PhaseOf(s, w).failedAt
  {
    assert s.workers[w].todo[0] == Head(s, w) && FailedLater(s, w, s.workers[w]);
    assert Agrees(s.rows, w, s.workers[w].todo);
  }

  lemma SettledLedger(c: Config, s: State, w: WorkerId, error: string)
    requires Fencing(c, s) && Ledger(c, s) && In(s, w) && PhaseOf(s, w).Failing?
    ensures Ledger(c, SettledRows(c, s, w, error))
  {
    var copy := Head(s, w);
    var id := copy.event.id;
    if Holds(s.rows, id, w) {
      HeldCopy(c, s, w);
      var failedAt := PhaseOf(s, w).failedAt;
      SettledRowLedger(c, s, id, failedAt, error);
      if copy.attempts >= c.maxAttempts {
        LedgerOneRow(c, s, id, BuryRow(s.rows[id], s.clock, error), Buried(id));
      } else {
        LedgerOneRow(c, s, id, ReleaseRow(s.rows[id], RetryAt(c, failedAt, copy.attempts), error), Retried(id));
      }
    }
  }

  lemma SettleMovesOn(c: Config, s: State, step: Step) returns (mid: State, a: Activity)
    requires Enabled(c, s, step) && step.Settle?
    ensures mid == if step.reply.Refused? then s else SettledRows(c, s, step.w, step.error)
    ensures In(mid, step.w) && Apply(c, s, step) == mid.(workers := mid.workers[step.w := a])
    ensures a.Busy? ==> a.phase.Starting?
  {
    mid := if step.reply.Refused? then s else SettledRows(c, s, step.w, step.error);
    a := Apply(c, s, step).workers[step.w];
  }

  lemma LedgerSettle(c: Config, s: State, step: Step)
    requires Fencing(c, s) && Ledger(c, s) && Enabled(c, s, step) && step.Settle?
    ensures Ledger(c, Apply(c, s, step))
  {
    var mid, a := SettleMovesOn(c, s, step);
    if !step.reply.Refused? {
      SettledLedger(c, s, step.w, step.error);
    }
    LedgerProgress(c, mid, step.w, a);
  }

  lemma ClaimAccounts(c: Config, h: History, id: EventId, r: Row, e: Entry, w: WorkerId, now: int)
    requires Accounts(c, h, id, r) && e.Took? && (r.status.Pending? || r.status.Processing?)
    requires id in e.takenOver <==> !r.status.Pending?
    ensures Accounts(c, Then(h, e), id, ClaimRow(r, w, now))
  {
  }

  lemma LedgerClaimRow(
    c: Config, s: State, w: WorkerId, now: int, ids: set<EventId>, id: EventId, s': State)
    requires id in s.rows && RowLedger(c, s, id) && now <= s.clock
    requires id in ids ==> Claimable(s.rows[id], now, c.leaseMs)
    requires s'.clock == s.clock && s'.rows == Claimed(s.rows, ids, w, now)
    requires s'.history == Then(s.history, Took(now, FromPending(s.rows, ids), ids - FromPending(s.rows, ids)))
    ensures id in s'.rows && RowLedger(c, s', id)
  {
    var e := s'.history.entry;
    if id in ids {
      ClaimAccounts(c, s.history, id, s.rows[id], e, w, now);
    }
  }

  lemma ClaimFailedLater(c: Config, s: State, step: Step, w: WorkerId)
    requires Ledger(c, s) && Enabled(c, s, step) && step.Claim? && !step.reply.Refused?
    requires w in Apply(c, s, step).workers
    ensures FailedLater(Apply(c, s, step), w, Apply(c, s, step).workers[w])
  {
    if w in s.workers {
      assert FailedLater(s, w, s.workers[w]);
    }
  }

  lemma LedgerClaim(c: Config, s: State, step: Step)
    requires Fencing(c, s) && Ledger(c, s) && Enabled(c, s, step) && step.Claim?
    ensures Ledger(c, Apply(c, s, step))
  {
    if !step.reply.Refused? {
      var s' := Apply(c, s, step);
      forall id | id in s'.rows ensures RowLedger(c, s', id) {
        assert RowLedger(c, s, id);
        LedgerClaimRow(c, s, step.w, step.now, Ids(step.copies), id, s');
      }
      forall w | w in s'.workers ensures FailedLater(s', w, s'.workers[w]) {
        ClaimFailedLater(c, s, step, w);
      }
    }
  }

  lemma LedgerStep(c: Config, s: State, step: Step)
    requires c.maxAttempts >= 1 && Fencing(c, s) && Ledger(c, s) && Enabled(c, s, step)
    ensures Ledger(c, Apply(c, s, step))
  {
    match step
    case Claim(_, _, _, _) => LedgerClaim(c, s, step);
    case Publish(_, _) => LedgerPublish(c, s, step);
    case Settle(_, _, _) => LedgerSettle(c, s, step);
    case Enqueue(e) => if e.id !in s.rows { LedgerEnqueue(c, s, e); }
    case Replay(id) => if CanReplay(s.rows, id) { LedgerReplay(c, s, id); }
    case _ => QuietLedger(c, s, step);
  }

  lemma {:induction false} AlwaysLedger(c: Config, run: Run)
    requires c.maxAttempts >= 1 && Legal(c, run)
    ensures Ledger(c, End(c, run))
    decreases run
  {
    if run.After? {
      AlwaysLedger(c, run.before);
      AlwaysFenced(c, run.before);
      LedgerStep(c, End(c, run.before), run.step);
    }
  }

  lemma {:induction false} AnyLedger(c: Config, run: Run, id: EventId)
    requires c.maxAttempts >= 1 && Legal(c, run) && id in End(c, run).rows
    ensures WellFormed(End(c, run).rows[id]) && Accounts(c, End(c, run).history, id, End(c, run).rows[id])
  {
    AlwaysLedger(c, run);
    assert RowLedger(c, End(c, run), id);
  }

  // -------------------------------------------------- how much time attempts take

  // `slack`: by how much the millisecond a failure is dated to may begin before the claim.
  // The least time from the claim that sets attempts to n to the one that sets it to n + 1.
  function Gap(c: Config, slack: nat, n: nat): int {
    Min(BackoffMs(c, n) * MICROS_PER_MS - slack, c.leaseMs * MICROS_PER_MS + 1)
  }

  function GapSum(c: Config, slack: nat, n: nat): int {
    if n <= 1 then 0 else GapSum(c, slack, n - 1) + Gap(c, slack, n - 1)
  }

  ghost predicate Paced(c: Config, slack: nat, clock: int, h: History, id: EventId, r: Row) {
    var first, last := FirstClaim(h, id), LastClaim(h, id);
    if r.attempts == 0 then first.None? && last.None?
    else
      && first.Some? && last.Some? && last.value <= clock
      && last.value - first.value >= GapSum(c, slack, r.attempts)
      && (r.status.Processing? ==> r.lockedAt == last)
      && (r.status.Pending? ==>
            r.availableAt >= last.value + Gap(c, slack, r.attempts))
  }

  // The millisecond a failure is dated to begins at most `slack` before the claim, or the lease decides.
  predicate DatedWithin(c: Config, slack: nat, lockedAt: int, failedAt: int, n: nat) {
    lockedAt - ClockMs(failedAt) * MICROS_PER_MS <= slack || BackoffMs(c, n) > c.leaseMs
  }

  // This step puts a row back for a retry.
  predicate Releases(c: Config, s: State, step: Step) {
    && step.Settle? && !step.reply.Refused? && In(s, step.w) && PhaseOf(s, step.w).Failing?
    && Holds(s.rows, Head(s, step.w).event.id, step.w) && Head(s, step.w).attempts < c.maxAttempts
  }

  predicate DatedWell(c: Config, slack: nat, s: State, step: Step) {
    Releases(c, s, step) ==>
      var r := s.rows[Head(s, step.w).event.id];
      r.lockedAt.Some? ==>
        DatedWithin(c, slack, r.lockedAt.value, PhaseOf(s, step.w).failedAt, Head(s, step.w).attempts)
  }

  lemma RoundedDown(clock: int)
    ensures ClockMs(clock) * MICROS_PER_MS == clock - clock % MICROS_PER_MS
  {
  }

  // This step inserts or replays the row.
  predicate StartsOver(s: State, step: Step, id: EventId) {
    (step.Enqueue? && step.event.id == id && id !in s.rows) || (step.Replay? && step.id == id && CanReplay(s.rows, id))
  }

  // Every retry of this row since its insert or last replay was dated within `slack` of its claim.
  ghost predicate WithinOf(c: Config, slack: nat, run: Run, id: EventId)
    requires Legal(c, run)
  {
    run.After? ==>
      var s := End(c, run.before);
      || StartsOver(s, run.step, id)
      || (&& WithinOf(c, slack, run.before, id)
          && (Releases(c, s, run.step) && Head(s, run.step.w).event.id == id ==> DatedWell(c, slack, s, run.step)))
  }

  // A worker fails after its claim, and reading whole milliseconds drops less than one.
  lemma LessThanAMillisecond(c: Config, s: State, step: Step)
    requires Fencing(c, s) && Ledger(c, s) && Enabled(c, s, step)
    ensures DatedWell(c, MICROS_PER_MS - 1, s, step)
  {
    if Releases(c, s, step) {
      HeldCopy(c, s, step.w);
      RoundedDown(PhaseOf(s, step.w).failedAt);
    }
  }

  lemma {:induction false} AlwaysWithinOf(c: Config, run: Run, id: EventId)
    requires c.maxAttempts >= 1 && Legal(c, run)
    ensures WithinOf(c, MICROS_PER_MS - 1, run, id)
    decreases run
  {
    if run.After? {
      AlwaysWithinOf(c, run.before, id);
      AlwaysLedger(c, run.before);
      AlwaysFenced(c, run.before);
      LessThanAMillisecond(c, End(c, run.before), run.step);
    }
  }

  ghost predicate PacedIn(c: Config, slack: nat, s: State, id: EventId) {
    id in s.rows && Paced(c, slack, s.clock, s.history, id, s.rows[id])
  }

  lemma PacedQuiet(c: Config, slack: nat, s: State, step: Step, id: EventId)
    requires PacedIn(c, slack, s, id) && Enabled(c, s, step) && IsQuiet(step)
    ensures PacedIn(c, slack, Apply(c, s, step), id)
  {
    QuietStep(c, s, step);
    QuietHistory(c, s, step, id);
    ClockAdvances(c, s, step);
  }

  lemma PacedPublish(c: Config, slack: nat, s: State, step: Step, id: EventId)
    requires PacedIn(c, slack, s, id) && Enabled(c, s, step) && step.Publish?
    ensures PacedIn(c, slack, Apply(c, s, step), id)
  {
    var mid, a := PublishMovesOn(c, s, step);
  }

  // A row put back, given when its claim was and what its failure was dated to.
  lemma ReleasePaced(c: Config, slack: nat, clock: int, h: History, id: EventId, r: Row, failedAt: int, error: string)
    requires Paced(c, slack, clock, h, id, r) && r.status.Processing? && r.lockedAt.Some? && r.attempts > 0
    requires r.lockedAt.value <= failedAt && DatedWithin(c, slack, r.lockedAt.value, failedAt, r.attempts)
    ensures Paced(c, slack, clock, Then(h, Retried(id)), id, ReleaseRow(r, RetryAt(c, failedAt, r.attempts), error))
  {
    RoundedDown(failedAt);
  }

  lemma SettledPaced(c: Config, slack: nat, s: State, w: WorkerId, error: string, id: EventId)
    requires Fencing(c, s) && Ledger(c, s) && PacedIn(c, slack, s, id) && In(s, w) && PhaseOf(s, w).Failing?
    requires Head(s, w).event.id == id ==> DatedWell(c, slack, s, Settle(w, Done, error))
    ensures PacedIn(c, slack, SettledRows(c, s, w, error), id)
  {
    var copy := Head(s, w);
    if Holds(s.rows, copy.event.id, w) && copy.event.id == id {
      HeldCopy(c, s, w);
      if copy.attempts < c.maxAttempts {
        ReleasePaced(c, slack, s.clock, s.history, id, s.rows[id], PhaseOf(s, w).failedAt, error);
      }
    }
  }

  lemma PacedSettle(c: Config, slack: nat, s: State, step: Step, id: EventId)
    requires Fencing(c, s) && Ledger(c, s) && PacedIn(c, slack, s, id) && Enabled(c, s, step) && step.Settle?
    requires Head(s, step.w).event.id == id ==> DatedWell(c, slack, s, step)
    ensures PacedIn(c, slack, Apply(c, s, step), id)
  {
    var mid, a := SettleMovesOn(c, s, step);
    if !step.reply.Refused? {
      SettledPaced(c, slack, s, step.w, step.error, id);
    }
  }

  lemma ClaimPaced(c: Config, slack: nat, clock: int, h: History, id: EventId, r: Row, e: Entry, w: WorkerId)
    requires Paced(c, slack, clock, h, id, r) && e.Took? && Takes(e, id) && e.now <= clock
    requires Claimable(r, e.now, c.leaseMs)
    ensures Paced(c, slack, clock, Then(h, e), id, ClaimRow(r, w, e.now))
  {
    var n := r.attempts;
    assert GapSum(c, slack, n + 1) == if n == 0 then 0 else GapSum(c, slack, n) + Gap(c, slack, n);
  }

  lemma PacedClaim(c: Config, slack: nat, s: State, step: Step, id: EventId)
    requires PacedIn(c, slack, s, id) && Enabled(c, s, step) && step.Claim?
    ensures PacedIn(c, slack, Apply(c, s, step), id)
  {
    if !step.reply.Refused? {
      var ids := Ids(step.copies);
      var e := Took(step.now, FromPending(s.rows, ids), ids - FromPending(s.rows, ids));
      assert Apply(c, s, step).history == Then(s.history, e) && Apply(c, s, step).clock == s.clock;
      if id in ids {
        ClaimPaced(c, slack, s.clock, s.history, id, s.rows[id], e, step.w);
      }
    }
  }

  lemma PacedStart(c: Config, slack: nat, s: State, step: Step, id: EventId)
    requires Enabled(c, s, step) && (step.Enqueue? || step.Replay?)
    requires StartsOver(s, step, id) || PacedIn(c, slack, s, id)
    ensures PacedIn(c, slack, Apply(c, s, step), id)
  {
    var s' := Apply(c, s, step);
    if StartsOver(s, step, id) {
      assert s'.rows[id].attempts == 0 && Restarts(s'.history.entry, id);
    } else {
      assert s'.rows[id] == s.rows[id] && SameLedger(s.history, s'.history, id);
    }
  }

  lemma PacedStep(c: Config, slack: nat, s: State, step: Step, id: EventId)
    requires Fencing(c, s) && Ledger(c, s) && Enabled(c, s, step) && PacedIn(c, slack, s, id)
    requires Releases(c, s, step) && Head(s, step.w).event.id == id ==> DatedWell(c, slack, s, step)
    ensures PacedIn(c, slack, Apply(c, s, step), id)
  {
    if step.Claim? {
      PacedClaim(c, slack, s, step, id);
    } else if step.Publish? {
      PacedPublish(c, slack, s, step, id);
    } else if step.Settle? {
      PacedSettle(c, slack, s, step, id);
    } else if step.Enqueue? || step.Replay? {
      PacedStart(c, slack, s, step, id);
    } else {
      PacedQuiet(c, slack, s, step, id);
    }
  }

  lemma {:induction false} AlwaysPaced(c: Config, slack: nat, run: Run, id: EventId)
    requires c.maxAttempts >= 1 && Legal(c, run) && WithinOf(c, slack, run, id) && id in End(c, run).rows
    ensures Paced(c, slack, End(c, run).clock, End(c, run).history, id, End(c, run).rows[id])
    decreases run
  {
    if run.After? {
      var s := End(c, run.before);
      if StartsOver(s, run.step, id) {
        PacedStart(c, slack, s, run.step, id);
      } else {
        if id !in s.rows {
          FirstSeen(c, s, run.step, id);
        }
        AlwaysPaced(c, slack, run.before, id);
        AlwaysLedger(c, run.before);
        AlwaysFenced(c, run.before);
        PacedStep(c, slack, s, run.step, id);
      }
    }
  }

  // A row appears by its insert, without attempts.
  lemma FirstSeen(c: Config, s: State, step: Step, id: EventId)
    requires Enabled(c, s, step) && id !in s.rows && id in Apply(c, s, step).rows
    ensures StartsOver(s, step, id) && Apply(c, s, step).rows[id].attempts == 0
  {
    if IsQuiet(step) {
      QuietStep(c, s, step);
    } else if IsClosing(step) {
      ClosingCloses(c, s, step);
    }
  }

  // -------------------------------------------------------- the law of the backoff

  /** The first delay is the base, each one after it twice the one before, and none is above the maximum. */
  lemma BackoffDoubles(c: Config, n: nat)
    ensures BackoffMs(c, 0) == BackoffMs(c, 1)
    ensures BackoffMs(c, 1) == if c.retryBaseDelayMs <= c.retryMaxDelayMs then c.retryBaseDelayMs else c.retryMaxDelayMs
    ensures n >= 1 ==>
      var twice := BackoffMs(c, n) + BackoffMs(c, n);
      BackoffMs(c, n + 1) == if twice <= c.retryMaxDelayMs then twice else c.retryMaxDelayMs
    ensures 0 <= BackoffMs(c, n) <= c.retryMaxDelayMs
  {
    assert Pow2(0) == 1;
    if n >= 1 {
      PowersDouble(n - 1);
      Doubled(c.retryBaseDelayMs, Pow2(n - 1));
    }
  }

  lemma Doubled(a: nat, b: nat)
    ensures a * (b + b) == a * b + a * b
  {
  }

  // Uncapped, the n-th delay is the base times 2 to the n - 1.
  lemma Uncapped(c: Config, n: nat)
    requires n >= 1 && c.retryBaseDelayMs * Pow2(n - 1) <= c.retryMaxDelayMs
    ensures BackoffMs(c, n) == c.retryBaseDelayMs * Pow2(n - 1)
  {
  }

  lemma GapUncapped(c: Config, slack: nat, n: nat)
    requires n >= 1 && c.retryBaseDelayMs * Pow2(n - 1) <= Min(c.retryMaxDelayMs, c.leaseMs)
    ensures Gap(c, slack, n) == 1_000 * (c.retryBaseDelayMs * Pow2(n - 1)) - slack
  {
    Uncapped(c, n);
  }

  lemma SmallerPower(b: nat, n: nat)
    requires n >= 1
    ensures b * Pow2(n - 1) <= b * Pow2(n)
  {
    PowersDouble(n - 1);
    Doubled(b, Pow2(n - 1));
  }

  lemma GeometricStep(b: int, p: int, slack: int, n: int)
    ensures 1_000 * (b * (p - 1)) - slack * (n - 2) + (1_000 * (b * p) - slack)
            == 1_000 * (b * (p + p - 1)) - slack * (n - 1)
  {
    assert b * (p + p - 1) == b * (p - 1) + b * p;
    assert slack * (n - 1) == slack * (n - 2) + slack;
  }

  lemma {:induction false} GapsAddUp(c: Config, slack: nat, n: nat)
    requires n >= 1
    requires n >= 2 ==> c.retryBaseDelayMs * Pow2(n - 2) <= Min(c.retryMaxDelayMs, c.leaseMs)
    ensures GapSum(c, slack, n) == 1_000 * (c.retryBaseDelayMs * (Pow2(n - 1) - 1)) - slack * (n - 1)
    decreases n
  {
    if n == 1 {
      assert Pow2(0) == 1;
    } else {
      if n >= 3 {
        SmallerPower(c.retryBaseDelayMs, n - 2);
      }
      GapsAddUp(c, slack, n - 1);
      GapUncapped(c, slack, n - 1);
      PowersDouble(n - 2);
      GeometricStep(c.retryBaseDelayMs, Pow2(n - 2), slack, n);
    }
  }

  // ------------------------------------------------------------ main results

  /** Every attempt is a retry, a takeover, or the claim in force; retries alone never exhaust the budget. */
  lemma {:induction false} AttemptsAddUp(c: Config, run: Run, id: EventId)
    requires c.maxAttempts >= 1 && Legal(c, run) && id in End(c, run).rows
    ensures var s := End(c, run);
            && s.rows[id].attempts
               == Retries(s.history, id) + Takeovers(s.history, id) + (if s.rows[id].status.Pending? then 0 else 1)
            && Retries(s.history, id) <= c.maxAttempts - 1
            && WithinBudget(c, s.rows[id]) && WellFormed(s.rows[id])
  {
    AnyLedger(c, run, id);
    AlwaysFenced(c, run);
  }

  /**
   However the claims were spread over workers, the n-th came no sooner than the gaps before it: in full
   (`slack` 0) when no retry of this row since its insert or last replay was dated before its claim, and never
   short by a millisecond a retry.
   */
  lemma {:induction false} AttemptsTakeTime(c: Config, slack: nat, run: Run, id: EventId)
    requires c.maxAttempts >= 1 && Legal(c, run) && WithinOf(c, slack, run, id)
    requires id in End(c, run).rows && End(c, run).rows[id].attempts > 0
    ensures var s := End(c, run);
            var first, last := FirstClaim(s.history, id), LastClaim(s.history, id);
            first.Some? && last.Some? && last.value - first.value >= GapSum(c, slack, s.rows[id].attempts)
  {
    AlwaysPaced(c, slack, run, id);
  }

  /** Below cap and lease the delays are geometric: the n-th claim comes base * (2^(n-1) - 1) ms after the first. */
  lemma {:induction false} AttemptsTakeGeometricTime(c: Config, slack: nat, run: Run, id: EventId)
    requires c.maxAttempts >= 1 && Legal(c, run) && WithinOf(c, slack, run, id) && id in End(c, run).rows
    requires var n := End(c, run).rows[id].attempts;
             n >= 1 && (n >= 2 ==> c.retryBaseDelayMs * Pow2(n - 2) <= Min(c.retryMaxDelayMs, c.leaseMs))
    ensures var s := End(c, run);
            var first, last, n := FirstClaim(s.history, id), LastClaim(s.history, id), s.rows[id].attempts;
            && first.Some? && last.Some?
            && last.value - first.value >= 1_000 * (c.retryBaseDelayMs * (Pow2(n - 1) - 1)) - slack * (n - 1)
  {
    AttemptsTakeTime(c, slack, run, id);
    GapsAddUp(c, slack, End(c, run).rows[id].attempts);
  }

  /** A released row waits a full backoff from its last claim exactly when its failure was not dated before it. */
  lemma DelayIsFullIff(c: Config, r: Row, failedAt: int, error: string)
    requires r.lockedAt.Some?
    ensures var released := ReleaseRow(r, RetryAt(c, failedAt, r.attempts), error);
            (forall now | Claimable(released, now, c.leaseMs) ::
               now - r.lockedAt.value >= BackoffMs(c, r.attempts) * MICROS_PER_MS)
            <==> ClockMs(failedAt) * MICROS_PER_MS >= r.lockedAt.value
  {
    var retryAt := RetryAt(c, failedAt, r.attempts);
    assert Claimable(ReleaseRow(r, retryAt, error), retryAt, c.leaseMs);
  }

  // The same for the least of backoff and lease, give or take `slack`.
  lemma GapIsKeptIff(c: Config, slack: nat, r: Row, failedAt: int, error: string)
    requires r.lockedAt.Some? && r.lockedAt.value <= failedAt
    ensures var released := ReleaseRow(r, RetryAt(c, failedAt, r.attempts), error);
            (forall now | Claimable(released, now, c.leaseMs) :: now - r.lockedAt.value >= Gap(c, slack, r.attempts))
            <==> DatedWithin(c, slack, r.lockedAt.value, failedAt, r.attempts)
  {
    var retryAt := RetryAt(c, failedAt, r.attempts);
    assert Claimable(ReleaseRow(r, retryAt, error), retryAt, c.leaseMs);
    RoundedDown(failedAt);
  }

  // The row a release leaves behind.
  lemma ReleasedRow(c: Config, s: State, step: Step)
    requires Enabled(c, s, step) && Releases(c, s, step)
    ensures var copy := Head(s, step.w); var id := copy.event.id;
            && id in Apply(c, s, step).rows
            && Apply(c, s, step).rows[id]
               == ReleaseRow(s.rows[id], RetryAt(c, PhaseOf(s, step.w).failedAt, copy.attempts), step.error)
  {
  }

  /** In any run: a retry leaves the gap before the next claim exactly when it meets what `WithinOf` asks of it. */
  lemma {:induction false} RetryKeepsGapIff(c: Config, slack: nat, run: Run, step: Step)
    requires c.maxAttempts >= 1 && Legal(c, run) && Enabled(c, End(c, run), step) && Releases(c, End(c, run), step)
    ensures var s := End(c, run); var id := Head(s, step.w).event.id; var r := s.rows[id];
            && r.lockedAt.Some? && id in Apply(c, s, step).rows
            && ((forall now | Claimable(Apply(c, s, step).rows[id], now, c.leaseMs) ::
                   now - r.lockedAt.value >= Gap(c, slack, r.attempts))
                <==> DatedWell(c, slack, s, step))
  {
    var s := End(c, run);
    AlwaysFenced(c, run);
    AlwaysLedger(c, run);
    HeldCopy(c, s, step.w);
    ReleasedRow(c, s, step);
    GapIsKeptIff(c, slack, s.rows[Head(s, step.w).event.id], PhaseOf(s, step.w).failedAt, step.error);
  }

  /** From failure to release the delay is cut short by what the clock reading drops, and by no more. */
  lemma DelayIsExactOnWholeMilliseconds(c: Config, failedAt: int, n: nat)
    ensures RetryAt(c, failedAt, n) - failedAt == BackoffMs(c, n) * MICROS_PER_MS - failedAt % MICROS_PER_MS
    ensures RetryAt(c, failedAt, n) - failedAt >= BackoffMs(c, n) * MICROS_PER_MS <==> failedAt % MICROS_PER_MS == 0
  {
    RoundedDown(failedAt);
  }

  // One failed attempt 999 microseconds past a millisecond, and the claim that follows the moment it may.
  const SHORT_FALL := Config(10, 5, 1000, 60_000, 60_000)

  function Waiting(event: Event): State {
    State(999, map[event.id := NewRow(event, 999)], map[], map[], 0, map[], Then(Nothing, Enqueued(event.id)))
  }

  function Failed(event: Event, phase: Phase): State {
    Waiting(event).(
      rows := map[event.id := ClaimRow(NewRow(event, 999), 0, 999)],
      workers := map[0 := Busy([Copy(event, 1)], phase)],
      history := Then(Waiting(event).history, Took(999, {event.id}, {})))
  }

  function Released(event: Event): State {
    Failed(event, Starting).(
      rows := map[event.id := ReleaseRow(ClaimRow(NewRow(event, 999), 0, 999), 1_000_000, "")],
      workers := map[0 := Idle],
      history := Then(Failed(event, Starting).history, Retried(event.id)))
  }

  lemma Onward(c: Config, run: Run, step: Step)
    requires Legal(c, run) && Enabled(c, End(c, run), step)
    ensures Legal(c, After(run, step)) && End(c, After(run, step)) == Apply(c, End(c, run), step)
  {
  }

  lemma OneCopy(event: Event, attempts: nat)
    ensures Ids([Copy(event, attempts)]) == {event.id}
  {
    assert [Copy(event, attempts)][0].event.id == event.id;
  }

  lemma ClaimsIt(event: Event)
    ensures var step := Claim(0, 999, [Copy(event, 1)], Done);
            Enabled(SHORT_FALL, Waiting(event), step)
            && Apply(SHORT_FALL, Waiting(event), step) == Failed(event, Starting)
  {
    OneCopy(event, 1);
    assert FromPending(Waiting(event).rows, {event.id}) == {event.id} && {event.id} - {event.id} == {};
    assert Claimed(Waiting(event).rows, {event.id}, 0, 999) == Failed(event, Starting).rows;
  }

  lemma ReleasesIt(event: Event)
    ensures var s := Failed(event, Failing(999));
            Enabled(SHORT_FALL, s, Settle(0, Done, "")) && Apply(SHORT_FALL, s, Settle(0, Done, "")) == Released(event)
  {
    assert Pow2(0) == 1 && RetryAt(SHORT_FALL, 999, 1) == 1_000_000;
  }

  lemma EarlyClaim(event: Event) returns (run: Run)
    ensures Legal(SHORT_FALL, run) && End(SHORT_FALL, run) == Failed(event, Starting)
  {
    var s0 := State(999, map[], map[], map[], 0, map[], Nothing);
    run := Begin(s0);
    Onward(SHORT_FALL, run, Enqueue(event));
    run := After(run, Enqueue(event));
    ClaimsIt(event);
    Onward(SHORT_FALL, run, Claim(0, 999, [Copy(event, 1)], Done));
    run := After(run, Claim(0, 999, [Copy(event, 1)], Done));
  }

  lemma EarlyFailure(event: Event) returns (run: Run)
    ensures Legal(SHORT_FALL, run) && End(SHORT_FALL, run) == Released(event) && !WithinOf(SHORT_FALL, 0, run, event.id)
  {
    run := EarlyClaim(event);
    assert Apply(SHORT_FALL, Failed(event, Starting), ReadPreference(0, false)) == Failed(event, Failing(999));
    Onward(SHORT_FALL, run, ReadPreference(0, false));
    run := After(run, ReadPreference(0, false));
    ReleasesIt(event);
    assert !DatedWell(SHORT_FALL, 0, Failed(event, Failing(999)), Settle(0, Done, ""));
    Onward(SHORT_FALL, run, Settle(0, Done, ""));
    run := After(run, Settle(0, Done, ""));
  }

  /** A retry dated before its claim can miss the full delay: two claims 999.001 ms apart, not 1000. */
  lemma DelayCanFallShort(event: Event) returns (run: Run)
    ensures Legal(SHORT_FALL, run) && !WithinOf(SHORT_FALL, 0, run, event.id)
    ensures var s := End(SHORT_FALL, run);
            && event.id in s.rows && s.rows[event.id].attempts == 2
            && FirstClaim(s.history, event.id) == Some(999) && LastClaim(s.history, event.id) == Some(1_000_000)
            && 1_000_000 - 999 == GapSum(SHORT_FALL, 0, 2) - 999
  {
    run := EarlyFailure(event);
    Onward(SHORT_FALL, run, Tick(1_000_000));
    run := After(run, Tick(1_000_000));
    ClaimsAgain(event);
    Onward(SHORT_FALL, run, Claim(1, 1_000_000, [Copy(event, 2)], Done));
    run := After(run, Claim(1, 1_000_000, [Copy(event, 2)], Done));
    ShortHistory(event);
  }

  lemma ClaimsAgain(event: Event)
    ensures var s := Released(event).(clock := 1_000_000);
            var step := Claim(1, 1_000_000, [Copy(event, 2)], Done);
            && Enabled(SHORT_FALL, s, step)
            && var s' := Apply(SHORT_FALL, s, step);
               && event.id in s'.rows && s'.rows[event.id].attempts == 2
               && s'.history == Then(Released(event).history, Took(1_000_000, {event.id}, {}))
  {
    OneCopy(event, 2);
    assert FromPending(Released(event).rows, {event.id}) == {event.id} && {event.id} - {event.id} == {};
  }

  lemma ShortHistory(event: Event)
    ensures var h := Then(Released(event).history, Took(1_000_000, {event.id}, {}));
            FirstClaim(h, event.id) == Some(999) && LastClaim(h, event.id) == Some(1_000_000)
    ensures GapSum(SHORT_FALL, 0, 2) == 1_000_000
  {
    assert FirstClaim(Failed(event, Starting).history, event.id) == Some(999);
    assert Pow2(0) == 1 && Gap(SHORT_FALL, 0, 1) == 1_000_000;
    assert GapSum(SHORT_FALL, 0, 2) == GapSum(SHORT_FALL, 0, 1) + Gap(SHORT_FALL, 0, 1);
  }

  function ClaimableFrom(c: Config, r: Row): Option<int> {
    match r.status
    case Pending => Some(r.availableAt)
    case Processing => if r.lockedAt.Some? then Some(r.lockedAt.value + c.leaseMs * MICROS_PER_MS + 1) else None
    case _ => None
  }

  /** Nothing is stuck: a row that still waits or is held has a time from which it can be claimed. */
  lemma {:induction false} WaitingRowsBecomeClaimable(c: Config, run: Run, id: EventId)
    requires c.maxAttempts >= 1 && Legal(c, run) && id in End(c, run).rows
    ensures var r := End(c, run).rows[id];
            && (ClaimableFrom(c, r).Some? <==> r.status.Pending? || r.status.Processing?)
            && forall now :: Claimable(r, now, c.leaseMs)
                 <==> (ClaimableFrom(c, r).Some? && ClaimableFrom(c, r).value <= now)
  {
    AnyLedger(c, run, id);
  }

  lemma RowsStay(c: Config, s: State, step: Step, id: EventId)
    requires Enabled(c, s, step) && id in s.rows
    ensures var s' := Apply(c, s, step);
            && id in s'.rows && s'.rows[id].event == s.rows[id].event
            && (s.rows[id].status.Published? ==> s'.rows[id] == s.rows[id])
  {
    if IsQuiet(step) {
      QuietStep(c, s, step);
    } else if IsClosing(step) {
      ClosingCloses(c, s, step);
    }
  }

  /** No row vanishes, no event changes, and a published row never changes again. */
  lemma {:induction false} PublishedForGood(c: Config, earlier: Run, run: Run, id: EventId)
    requires Legal(c, run) && Legal(c, earlier) && Extends(run, earlier) && id in End(c, earlier).rows
    ensures var was, now := End(c, earlier).rows, End(c, run).rows;
            && id in now && now[id].event == was[id].event
            && (was[id].status.Published? ==> now[id] == was[id])
    decreases run
  {
    if run != earlier {
      PublishedForGood(c, earlier, run.before, id);
      RowsStay(c, End(c, run.before), run.step, id);
    }
  }

  // --------------------------------------------------- the steps in the columns

  /** An event comes in, and a dead letter comes back, as a pending row without attempts that may be claimed at once. */
  lemma ComesInPending(c: Config, s: State, step: Step, id: EventId)
    requires Enabled(c, s, step) && StartsOver(s, step, id)
    ensures var event := if step.Enqueue? then step.event else s.rows[id].event;
            Apply(c, s, step).rows == s.rows[id := Row(event, Pending, 0, s.clock, None, None, None, None, None)]
  {
  }

  /** A publish that took effect publishes the copy in hand if its worker still holds the row, dated by the clock. */
  lemma PublishesNow(c: Config, s: State, step: Step)
    requires Enabled(c, s, step) && step.Publish?
    ensures var id := Head(s, step.w).event.id;
            Apply(c, s, step).rows ==
              if step.reply != Refused && id in s.rows && s.rows[id].status == Processing
                 && s.rows[id].lockedBy == Some(step.w)
              then var r := s.rows[id];
                   s.rows[id := Row(r.event, Published, r.attempts, r.availableAt, None, None, r.lastError,
                                    Some(s.clock), r.deadLetteredAt)]
              else s.rows
  {
  }

  /** The catch block buries a copy at the maximum now, and releases one below it for its backoff after the failure. */
  lemma SettlesByAttempts(c: Config, s: State, step: Step)
    requires Enabled(c, s, step) && step.Settle?
    ensures var id, n := Head(s, step.w).event.id, Head(s, step.w).attempts;
            var failedAt := PhaseOf(s, step.w).failedAt;
            Apply(c, s, step).rows ==
              if step.reply == Refused || id !in s.rows || s.rows[id].status != Processing
                 || s.rows[id].lockedBy != Some(step.w)
              then s.rows
              else
                var r := s.rows[id];
                s.rows[id := if n >= c.maxAttempts
                             then Row(r.event, DeadLetter, r.attempts, r.availableAt, None, None, Some(step.error),
                                      r.processedAt, Some(s.clock))
                             else Row(r.event, Pending, r.attempts, 1_000 * (failedAt / 1_000 + BackoffMs(c, n)),
                                      None, None, Some(step.error), r.processedAt, r.deadLetteredAt)]
  {
  }

  // ---------------------------------------------- attempts beyond the maximum

  predicate Claims(step: Step, id: EventId) {
    step.Claim? && !step.reply.Refused? && id in Ids(step.copies)
  }

  /** A claim passes the maximum exactly when it takes over a row that has used it up. */
  lemma ClaimPassesMaximumIff(c: Config, run: Run, step: Step, id: EventId)
    requires c.maxAttempts >= 1 && Legal(c, run) && Enabled(c, End(c, run), step) && Claims(step, id)
    ensures var r, claimed := End(c, run).rows[id], Apply(c, End(c, run), step).rows[id];
            && claimed.attempts == r.attempts + 1
            && (claimed.attempts > c.maxAttempts <==> r.status.Processing? && r.attempts >= c.maxAttempts)
  {
    AlwaysFenced(c, run);
    assert WithinBudget(c, End(c, run).rows[id]);
  }

  lemma AttemptsStay(c: Config, s: State, step: Step, id: EventId)
    requires Enabled(c, s, step) && id in s.rows && !Claims(step, id)
    requires !(step.Replay? && step.id == id && CanReplay(s.rows, id))
    ensures id in Apply(c, s, step).rows && Apply(c, s, step).rows[id].attempts == s.rows[id].attempts
  {
    if IsQuiet(step) {
      QuietStep(c, s, step);
    } else if IsClosing(step) {
      ClosingCloses(c, s, step);
    }
  }

  // The latest claim of the row since it was inserted or replayed took over a row that had used up the maximum.
  ghost predicate Overran(c: Config, run: Run, id: EventId)
    requires Legal(c, run)
  {
    && run.After? && id in End(c, run.before).rows
    && var r := End(c, run.before).rows[id];
       if Claims(run.step, id) then r.status.Processing? && r.attempts >= c.maxAttempts
       else !(run.step.Replay? && run.step.id == id && r.status.DeadLetter?) && Overran(c, run.before, id)
  }

  /** At any moment of any run attempts are beyond the maximum exactly if that is what the latest claim did. */
  lemma {:induction false} BeyondMaximumIff(c: Config, run: Run, id: EventId)
    requires c.maxAttempts >= 1 && Legal(c, run) && id in End(c, run).rows
    ensures End(c, run).rows[id].attempts > c.maxAttempts <==> Overran(c, run, id)
    decreases run
  {
    if run.After? && id in End(c, run.before).rows {
      var s := End(c, run.before);
      BeyondMaximumIff(c, run.before, id);
      if Claims(run.step, id) {
        ClaimPassesMaximumIff(c, run.before, run.step, id);
      } else if !(run.step.Replay? && run.step.id == id && CanReplay(s.rows, id)) {
        AttemptsStay(c, s, run.step, id);
      }
    } else if run.After? {
      FirstSeen(c, End(c, run.before), run.step, id);
    }
  }

  // A row claimed on its own.
  lemma OneRowClaim(c: Config, s: State, id: EventId) returns (copies: seq<Copy>)
    requires c.batchSize >= 1 && ActivityOf(s, 0).Idle? && Keyed(s.rows)
    requires id in s.rows && Claimable(s.rows[id], s.clock, c.leaseMs)
    ensures Enabled(c, s, Claim(0, s.clock, copies, Done))
    ensures var s' := Apply(c, s, Claim(0, s.clock, copies, Done));
            && s'.clock == s.clock && Keyed(s'.rows)
            && id in s'.rows && s'.rows[id] == ClaimRow(s.rows[id], 0, s.clock)
  {
    copies := Returning(s.rows, [id]);
    assert Ids(copies) == {id} by {
      assert Elements([id]) == {id} by { assert [id][0] == id; }
    }
  }

  // A worker claims a row the moment its lease allows, and crashes.
  lemma ClaimAndCrash(c: Config, run: Run, id: EventId) returns (run': Run)
    requires c.batchSize >= 1 && Legal(c, run) && ActivityOf(End(c, run), 0).Idle? && Keyed(End(c, run).rows)
    requires id in End(c, run).rows
    requires Claimable(End(c, run).rows[id], End(c, run).clock + c.leaseMs * MICROS_PER_MS + 1, c.leaseMs)
    ensures Legal(c, run') && ActivityOf(End(c, run'), 0).Idle? && Keyed(End(c, run').rows)
    ensures run'.After? && run'.step == Crash(0)
    ensures id in End(c, run').rows && End(c, run').rows[id].attempts == End(c, run).rows[id].attempts + 1
    ensures Claimable(End(c, run').rows[id], End(c, run').clock + c.leaseMs * MICROS_PER_MS + 1, c.leaseMs)
  {
    var later := End(c, run).clock + c.leaseMs * MICROS_PER_MS + 1;
    var ticked := After(run, Tick(later));
    Onward(c, run, Tick(later));
    var copies := OneRowClaim(c, End(c, ticked), id);
    var claimed := After(ticked, Claim(0, later, copies, Done));
    Onward(c, ticked, Claim(0, later, copies, Done));
    run' := After(claimed, Crash(0));
    Onward(c, claimed, Crash(0));
    assert End(c, run') == Abandon(End(c, claimed), 0);
  }

  /** Takeovers are not capped: crashes alone push the attempts of a row to any number, past maxAttempts. */
  lemma {:induction false} TakeoversAreNotCapped(c: Config, event: Event, n: nat) returns (run: Run)
    requires c.batchSize >= 1
    ensures Legal(c, run) && event.id in End(c, run).rows && End(c, run).rows[event.id].attempts == n
    ensures ActivityOf(End(c, run), 0).Idle? && Keyed(End(c, run).rows)
    ensures var r := End(c, run).rows[event.id];
            Claimable(r, End(c, run).clock + c.leaseMs * MICROS_PER_MS + 1, c.leaseMs)
  {
    if n == 0 {
      var s0 := State(0, map[], map[], map[], 0, map[], Nothing);
      run := After(Begin(s0), Enqueue(event));
      assert Legal(c, Begin(s0)) && End(c, Begin(s0)) == s0;
    } else {
      run := TakeoversAreNotCapped(c, event, n - 1);
      run := ClaimAndCrash(c, run, event.id);
    }
  }
}
