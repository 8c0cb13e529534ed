/**
 Claim transactions at the level of row locks: begin, take a snapshot, visit the candidates one by
 one with SKIP LOCKED, update and commit, with any number of them open at once and single-row
 statements in between. Each refines one atomic claim of the protocol.
 */
module OutboxLocks {
  import opened Wrappers
  import opened OutboxRepository
  import opened OutboxProtocol
  import opened OutboxFencing
  import opened OutboxLedger

  datatype Reason = LockedByOther | NoLongerClaimable

  datatype Transaction = Transaction(
    now: int, snapshot: Option<seq<EventId>>, position: nat, locked: seq<EventId>, skipped: map<EventId, Reason>)

  // `inFlight`: rows a single-row statement has locked.
  datatype Database = Database(s: State, open: map<WorkerId, Transaction>, inFlight: set<EventId>)

  datatype Move =
    | BeginClaim(w: WorkerId)
    | TakeSnapshot(w: WorkerId, ids: seq<EventId>)
    | Visit(w: WorkerId)
    | CommitClaim(w: WorkerId, reply: Reply)
    | RollBack(w: WorkerId)
    | LockRow(id: EventId)
    | FreeRow(id: EventId)
    | Other(step: Step)

  // Rows a step's statement locks before it may write them.
  ghost function Writes(s: State, step: Step): set<EventId> {
    match step
    case Replay(id) => {id}
    case Publish(w, _) => if In(s, w) then {Head(s, w).event.id} else {}
    case Settle(w, _, _) => if In(s, w) then {Head(s, w).event.id} else {}
    case _ => {}
  }

  ghost predicate LockedByClaim(d: Database, id: EventId) {
    exists w | w in d.open :: id in d.open[w].locked
  }

  predicate ScanDone(c: Config, t: Transaction) {
    t.snapshot.Some? && t.position <= |t.snapshot.value|
    && (t.position == |t.snapshot.value| || |t.locked| == c.batchSize)
  }

  ghost predicate MayMove(c: Config, d: Database, m: Move) {
    match m
    case BeginClaim(w) => w !in d.open && ActivityOf(d.s, w).Idle?
    case TakeSnapshot(w, ids) =>
      && w in d.open && d.open[w].snapshot.None?
      && InOrder(d.s.rows, ids) && Elements(ids) == Pool(d.s.rows, d.open[w].now, c.leaseMs, {})
    case Visit(w) =>
      && w in d.open && d.open[w].snapshot.Some? && !ScanDone(c, d.open[w])
      && d.open[w].position < |d.open[w].snapshot.value|
    case CommitClaim(w, reply) => w in d.open && ScanDone(c, d.open[w]) && !reply.Refused?
    case RollBack(w) => w in d.open
    case LockRow(id) => !LockedByClaim(d, id) && id !in d.inFlight
    case FreeRow(id) => id in d.inFlight
    case Other(step) =>
      && !step.Claim? && Enabled(c, d.s, step) && Writes(d.s, step) <= d.inFlight
      && (Actor(step).Some? ==> Actor(step).value !in d.open)
  }

  // The lock is free, and the row as it now stands still qualifies.
  ghost predicate Takeable(c: Config, d: Database, t: Transaction, id: EventId) {
    !LockedByClaim(d, id) && id !in d.inFlight && id in d.s.rows && Claimable(d.s.rows[id], t.now, c.leaseMs)
  }

  ghost function ReasonFor(d: Database, id: EventId): Reason {
    if LockedByClaim(d, id) || id in d.inFlight then LockedByOther else NoLongerClaimable
  }

  ghost function Visited(c: Config, d: Database, t: Transaction): Transaction
    requires t.snapshot.Some? && t.position < |t.snapshot.value|
  {
    var id := t.snapshot.value[t.position];
    if Takeable(c, d, t, id) then t.(position := t.position + 1, locked := t.locked + [id])
    else t.(position := t.position + 1,
            skipped := t.skipped[id := ReasonFor(d, id)])
  }

  ghost predicate Copyable(t: Table, ids: seq<EventId>) {
    && Keyed(t) && (forall i | 0 <= i < |ids| :: ids[i] in t)
    && (forall i, j | 0 <= i < j < |ids| :: ids[i] != ids[j])
  }

  ghost function CommitStep(d: Database, w: WorkerId, reply: Reply): Step
    requires w in d.open && Copyable(d.s.rows, d.open[w].locked)
  {
    Claim(w, d.open[w].now, Returning(d.s.rows, d.open[w].locked), reply)
  }

  ghost function Moved(c: Config, d: Database, m: Move): Database
    requires MayMove(c, d, m) && Sound(c, d)
  {
    match m
    case BeginClaim(w) => d.(open := d.open[w := Transaction(d.s.clock, None, 0, [], map[])])
    case TakeSnapshot(w, ids) => d.(open := d.open[w := d.open[w].(snapshot := Some(ids))])
    case Visit(w) => d.(open := d.open[w := Visited(c, d, d.open[w])])
    case CommitClaim(w, reply) =>
      CommitEnabled(c, d, w, reply);
      Database(Apply(c, d.s, CommitStep(d, w, reply)), d.open - {w}, d.inFlight)
    case RollBack(w) => d.(open := d.open - {w})
    case LockRow(id) => d.(inFlight := d.inFlight + {id})
    case FreeRow(id) => d.(inFlight := d.inFlight - {id})
    case Other(step) => d.(s := Apply(c, d.s, step))
  }

  // --------------------------------------------------------------- invariant

  // The scan so far: taken and skipped rows make up what was visited, taken rows in order.
  ghost predicate SoundScan(c: Config, d: Database, t: Transaction) {
    && InOrder(d.s.rows, t.locked) && |t.locked| <= c.batchSize
    && (t.snapshot.None? ==> t.position == 0 && t.locked == [] && t.skipped == map[])
    && (t.snapshot.Some? ==>
          && t.position <= |t.snapshot.value| && InOrder(d.s.rows, t.snapshot.value)
          && (forall i | 0 <= i < t.position ::
                t.snapshot.value[i] in t.locked <==> t.snapshot.value[i] !in t.skipped)
          && (forall i | t.position <= i < |t.snapshot.value| ::
                t.snapshot.value[i] !in t.locked && t.snapshot.value[i] !in t.skipped)
          && (forall id | id in t.locked || id in t.skipped :: id in t.snapshot.value))
  }

  ghost predicate SoundLocks(c: Config, d: Database, t: Transaction) {
    forall id | id in t.locked ::
      id in d.s.rows && id !in d.inFlight && Claimable(d.s.rows[id], t.now, c.leaseMs)
  }

  ghost predicate Disjoint(d: Database) {
    forall v, w, id | v in d.open && w in d.open && id in d.open[v].locked && id in d.open[w].locked :: v == w
  }

  ghost predicate Sound(c: Config, d: Database) {
    && Keyed(d.s.rows) && Disjoint(d)
    && forall w | w in d.open ::
         && ActivityOf(d.s, w).Idle? && d.open[w].now <= d.s.clock
         && SoundScan(c, d, d.open[w]) && SoundLocks(c, d, d.open[w])
  }

  lemma OrderedDistinct(t: Table, ids: seq<EventId>)
    requires Keyed(t) && InOrder(t, ids)
    ensures Copyable(t, ids)
  {
  }

  /** A commit is an atomic claim: its rows are all still claimable when it takes effect. */
  lemma CommitEnabled(c: Config, d: Database, w: WorkerId, reply: Reply)
    requires Sound(c, d) && w in d.open
    ensures Copyable(d.s.rows, d.open[w].locked) && Enabled(c, d.s, CommitStep(d, w, reply))
  {
    var t := d.open[w];
    OrderedDistinct(d.s.rows, t.locked);
    var copies := Returning(d.s.rows, t.locked);
    forall id | id in Ids(copies) ensures id in d.s.rows && Claimable(d.s.rows[id], t.now, c.leaseMs) {
      assert id in Elements(t.locked) && id in t.locked;
    }
  }

  // The row under the scan comes after every row taken.
  lemma TakenBefore(c: Config, d: Database, t: Transaction)
    requires SoundScan(c, d, t) && t.snapshot.Some? && t.position < |t.snapshot.value|
    ensures var id := t.snapshot.value[t.position];
            && id in d.s.rows && id !in t.locked && id !in t.skipped
            && forall i | 0 <= i < |t.locked| :: Before(d.s.rows[t.locked[i]].event, d.s.rows[id].event)
  {
    var scan := t.snapshot.value;
    var id := scan[t.position];
    forall i | 0 <= i < |t.locked| ensures Before(d.s.rows[t.locked[i]].event, d.s.rows[id].event) {
      assert t.locked[i] in scan;
      var j :| 0 <= j < |scan| && scan[j] == t.locked[i];
    }
  }

  lemma VisitSound(c: Config, d: Database, w: WorkerId)
    requires Sound(c, d) && MayMove(c, d, Visit(w))
    ensures SoundScan(c, d, Visited(c, d, d.open[w])) && SoundLocks(c, d, Visited(c, d, d.open[w]))
  {
    var t := d.open[w];
    assert SoundScan(c, d, t) && SoundLocks(c, d, t);
    VisitScans(c, d, t);
    VisitLocks(c, d, t);
  }

  lemma VisitLocks(c: Config, d: Database, t: Transaction)
    requires SoundLocks(c, d, t) && t.snapshot.Some? && t.position < |t.snapshot.value|
    ensures SoundLocks(c, d, Visited(c, d, t))
  {
  }

  lemma VisitScans(c: Config, d: Database, t: Transaction)
    requires Keyed(d.s.rows) && SoundScan(c, d, t)
    requires t.snapshot.Some? && t.position < |t.snapshot.value| && !ScanDone(c, t)
    ensures SoundScan(c, d, Visited(c, d, t))
  {
    TakenBefore(c, d, t);
    var id := t.snapshot.value[t.position];
    var t' := Visited(c, d, t);
    assert t'.locked == t.locked || t'.locked == t.locked + [id];
    assert forall k :: k in t'.locked || k in t'.skipped <==> k in t.locked || k in t.skipped || k == id;
    assert forall i | 0 <= i < |t.snapshot.value| && i != t.position :: t.snapshot.value[i] != id;
  }

  // Rows a claim holds are touched by nobody else's step.
  lemma UntouchedRow(c: Config, s: State, step: Step, id: EventId)
    requires Enabled(c, s, step) && !step.Claim? && id in s.rows && id !in Writes(s, step)
    ensures id in Apply(c, s, step).rows && Apply(c, s, step).rows[id] == s.rows[id]
  {
    if IsQuiet(step) {
      QuietStep(c, s, step);
    } else if IsClosing(step) {
      ClosingCloses(c, s, step);
    }
  }

  lemma KeyedStep(c: Config, s: State, step: Step)
    requires Enabled(c, s, step) && Keyed(s.rows)
    ensures Keyed(Apply(c, s, step).rows)
  {
    if IsQuiet(step) {
      QuietStep(c, s, step);
    } else if IsClosing(step) {
      ClosingCloses(c, s, step);
    }
  }

  // A scan depends on the events of the rows and on the rows it holds, and on nothing else.
  lemma ScanFramed(c: Config, d: Database, d': Database, t: Transaction)
    requires SoundScan(c, d, t) && SoundLocks(c, d, t)
    requires forall id | id in d.s.rows :: id in d'.s.rows && d'.s.rows[id].event == d.s.rows[id].event
    requires forall id | id in t.locked :: id in d.s.rows && d'.s.rows[id] == d.s.rows[id] && id !in d'.inFlight
    ensures SoundScan(c, d', t) && SoundLocks(c, d', t)
  {
  }

  lemma OtherSound(c: Config, d: Database, m: Move)
    requires Sound(c, d) && MayMove(c, d, m) && m.Other?
    ensures Sound(c, Moved(c, d, m))
  {
    var d' := Moved(c, d, m);
    KeyedStep(c, d.s, m.step);
    forall id | id in d.s.rows ensures id in d'.s.rows && d'.s.rows[id].event == d.s.rows[id].event {
      RowsStay(c, d.s, m.step, id);
    }
    assert d.s.clock <= d'.s.clock by { ClockAdvances(c, d.s, m.step); }
    forall w | w in d'.open
      ensures ActivityOf(d'.s, w).Idle? && SoundScan(c, d', d'.open[w]) && SoundLocks(c, d', d'.open[w])
    {
      var t := d.open[w];
      Bystander(c, d.s, m.step, w);
      forall id | id in t.locked ensures id in d.s.rows && d'.s.rows[id] == d.s.rows[id] && id !in d'.inFlight {
        UntouchedRow(c, d.s, m.step, id);
      }
      ScanFramed(c, d, d', t);
    }
  }

  // Another claim committed: this one keeps its rows and its place in the scan.
  lemma BesideCommit(c: Config, d: Database, d': Database, v: WorkerId, w: WorkerId, now: int)
    requires Sound(c, d) && v in d.open && w in d.open && v != w && d'.inFlight == d.inFlight
    requires d'.s.rows == Claimed(d.s.rows, Elements(d.open[v].locked), v, now)
    ensures SoundScan(c, d', d.open[w]) && SoundLocks(c, d', d.open[w])
  {
    var t := d.open[w];
    assert SoundScan(c, d, t) && SoundLocks(c, d, t);
    forall id | id in t.locked ensures id in d.s.rows && d'.s.rows[id] == d.s.rows[id] && id !in d'.inFlight {
      assert id !in d.open[v].locked;
      assert id !in Elements(d.open[v].locked);
    }
    ScanFramed(c, d, d', t);
  }

  // The others stay idle, and the clock stands.
  lemma IdleBesideCommit(c: Config, d: Database, v: WorkerId, reply: Reply, w: WorkerId)
    requires Sound(c, d) && v in d.open && w in d.open && v != w && Copyable(d.s.rows, d.open[v].locked)
    requires Enabled(c, d.s, CommitStep(d, v, reply))
    ensures var s' := Apply(c, d.s, CommitStep(d, v, reply));
            ActivityOf(s', w).Idle? && d.open[w].now <= s'.clock
  {
    Bystander(c, d.s, CommitStep(d, v, reply), w);
  }

  lemma CommitClaims(c: Config, d: Database, v: WorkerId, reply: Reply)
    requires v in d.open && Copyable(d.s.rows, d.open[v].locked) && !reply.Refused?
    requires Enabled(c, d.s, CommitStep(d, v, reply))
    ensures Apply(c, d.s, CommitStep(d, v, reply)).rows
            == Claimed(d.s.rows, Elements(d.open[v].locked), v, d.open[v].now)
  {
  }

  lemma CommitSound(c: Config, d: Database, m: Move)
    requires Sound(c, d) && MayMove(c, d, m) && m.CommitClaim?
    ensures Sound(c, Moved(c, d, m))
  {
    CommitEnabled(c, d, m.w, m.reply);
    CommitClaims(c, d, m.w, m.reply);
    var d' := Database(Apply(c, d.s, CommitStep(d, m.w, m.reply)), d.open - {m.w}, d.inFlight);
    forall w | w in d'.open
      ensures ActivityOf(d'.s, w).Idle? && d'.open[w].now <= d'.s.clock
      ensures SoundScan(c, d', d'.open[w]) && SoundLocks(c, d', d'.open[w])
    {
      IdleBesideCommit(c, d, m.w, m.reply, w);
      BesideCommit(c, d, d', m.w, w, d.open[m.w].now);
    }
    CommitKeepsKeys(c, d, d', m.w, d.open[m.w].now);
  }

  lemma CommitKeepsKeys(c: Config, d: Database, d': Database, w: WorkerId, now: int)
    requires Sound(c, d) && w in d.open && d'.open == d.open - {w}
    requires d'.s.rows == Claimed(d.s.rows, Elements(d.open[w].locked), w, now)
    ensures Keyed(d'.s.rows) && Disjoint(d')
  {
  }

  // One transaction changed, holding no row that another one holds.
  lemma OneSound(c: Config, d: Database, w: WorkerId, t: Transaction)
    requires Sound(c, d) && ActivityOf(d.s, w).Idle? && t.now <= d.s.clock
    requires SoundScan(c, d, t) && SoundLocks(c, d, t)
    requires forall id | id in t.locked :: (w in d.open && id in d.open[w].locked) || !LockedByClaim(d, id)
    ensures Sound(c, d.(open := d.open[w := t]))
  {
    var d' := d.(open := d.open[w := t]);
    forall v | v in d'.open ensures SoundScan(c, d', d'.open[v]) && SoundLocks(c, d', d'.open[v]) {
      if v != w {
        assert SoundScan(c, d, d.open[v]) && SoundLocks(c, d, d.open[v]);
      }
    }
    forall u, v, id | u in d'.open && v in d'.open && id in d'.open[u].locked && id in d'.open[v].locked
      ensures u == v
    {
      if u == w && v != w {
        assert LockedByClaim(d, id);
      } else if v == w && u != w {
        assert LockedByClaim(d, id);
      }
    }
  }

  lemma RowLockSound(c: Config, d: Database, inFlight: set<EventId>)
    requires Sound(c, d) && forall id | id in inFlight :: id in d.inFlight || !LockedByClaim(d, id)
    ensures Sound(c, d.(inFlight := inFlight))
  {
    var d' := d.(inFlight := inFlight);
    forall w | w in d'.open ensures SoundScan(c, d', d'.open[w]) && SoundLocks(c, d', d'.open[w]) {
      assert SoundScan(c, d, d.open[w]) && SoundLocks(c, d, d.open[w]);
      forall id | id in d.open[w].locked ensures id !in inFlight {
        assert LockedByClaim(d, id);
      }
    }
  }

  lemma RollBackSound(c: Config, d: Database, w: WorkerId)
    requires Sound(c, d) && w in d.open
    ensures Sound(c, d.(open := d.open - {w}))
  {
    var d' := d.(open := d.open - {w});
    forall v | v in d'.open ensures SoundScan(c, d', d'.open[v]) && SoundLocks(c, d', d'.open[v]) {
      assert SoundScan(c, d, d.open[v]) && SoundLocks(c, d, d.open[v]);
    }
  }

  lemma {:induction false} MoveSound(c: Config, d: Database, m: Move)
    requires Sound(c, d) && MayMove(c, d, m)
    ensures Sound(c, Moved(c, d, m))
  {
    match m
    case BeginClaim(w) => OneSound(c, d, w, Transaction(d.s.clock, None, 0, [], map[]));
    case TakeSnapshot(w, ids) => OneSound(c, d, w, d.open[w].(snapshot := Some(ids)));
    case Visit(w) => VisitSound(c, d, w); OneSound(c, d, w, Visited(c, d, d.open[w]));
    case CommitClaim(_, _) => CommitSound(c, d, m);
    case RollBack(w) => RollBackSound(c, d, w);
    case LockRow(id) => RowLockSound(c, d, d.inFlight + {id});
    case FreeRow(id) => RowLockSound(c, d, d.inFlight - {id});
    case Other(_) => OtherSound(c, d, m);
  }

  // ------------------------------------------------------------ main results

  datatype Trace = Outset(s: State) | Onward(before: Trace, move: Move)

  ghost predicate Possible(c: Config, trace: Trace)
    ensures Possible(c, trace) && trace.Outset? ==> Initial(trace.s)
    decreases trace, 0
  {
    match trace
    case Outset(s) => Initial(s)
    case Onward(before, move) => Possible(c, before) && MayMove(c, Reached(c, before), move)
  }

  ghost function Reached(c: Config, trace: Trace): (d: Database)
    requires Possible(c, trace)
    ensures Sound(c, d)
    decreases trace, 1
  {
    match trace
    case Outset(s) => Database(s, map[], {})
    case Onward(before, move) =>
      MoveSound(c, Reached(c, before), move);
      Moved(c, Reached(c, before), move)
  }

  // A move is a step of the protocol, or invisible to it.
  lemma MoveRefines(c: Config, d: Database, m: Move, run: Run) returns (run': Run)
    requires Sound(c, d) && MayMove(c, d, m) && Legal(c, run) && End(c, run) == d.s
    ensures Legal(c, run') && End(c, run') == Moved(c, d, m).s
  {
    run' := run;
    if m.Other? {
      run' := After(run, m.step);
    } else if m.CommitClaim? {
      CommitEnabled(c, d, m.w, m.reply);
      run' := After(run, CommitStep(d, m.w, m.reply));
    }
  }

  /** Refinement: what locking transactions can do, some run of the protocol with atomic claims does. */
  lemma {:induction false} LocksRefineClaims(c: Config, trace: Trace) returns (run: Run)
    requires Possible(c, trace)
    ensures Legal(c, run) && End(c, run) == Reached(c, trace).s
    decreases trace
  {
    if trace.Outset? {
      run := Begin(trace.s);
    } else {
      run := LocksRefineClaims(c, trace.before);
      run := MoveRefines(c, Reached(c, trace.before), trace.move, run);
    }
  }

  // What the scan leaves behind comes after everything it took.
  lemma TakenComeFirst(c: Config, d: Database, t: Transaction, a: EventId, b: EventId)
    requires SoundScan(c, d, t) && t.snapshot.Some? && a in t.locked
    requires b in t.snapshot.value && b !in t.locked && b !in t.skipped
    ensures b in d.s.rows && Before(d.s.rows[a].event, d.s.rows[b].event) && t.position < |t.snapshot.value|
  {
    var scan := t.snapshot.value;
    assert a in scan;
    var i :| 0 <= i < |scan| && scan[i] == a;
    var j :| 0 <= j < |scan| && scan[j] == b;
  }

  lemma InElements(ids: seq<EventId>, id: EventId)
    ensures id in Elements(ids) <==> id in ids
  {
  }

  // Another transaction or statement has the row, or it does not qualify.
  ghost predicate Blocked(c: Config, d: Database, w: WorkerId, id: EventId, reason: Reason)
    requires w in d.open
  {
    match reason
    case LockedByOther => id in d.inFlight || exists v | v in d.open && v != w :: id in d.open[v].locked
    case NoLongerClaimable => id in d.s.rows && !Claimable(d.s.rows[id], d.open[w].now, c.leaseMs)
  }

  // It was so at this moment or an earlier one, and all the while this transaction has had its snapshot.
  ghost predicate WasBlocked(c: Config, trace: Trace, w: WorkerId, id: EventId, reason: Reason)
    requires Possible(c, trace)
  {
    var d := Reached(c, trace);
    && w in d.open && d.open[w].snapshot.Some?
    && (Blocked(c, d, w, id, reason) || (trace.Onward? && WasBlocked(c, trace.before, w, id, reason)))
  }

  // The snapshot was every claimable row, oldest first, when this transaction took it.
  ghost predicate SnapshotWasPool(c: Config, trace: Trace, w: WorkerId, ids: seq<EventId>)
    requires Possible(c, trace)
  {
    && trace.Onward?
    && var d := Reached(c, trace.before);
       w in d.open
       && if trace.move == TakeSnapshot(w, ids) then OldestClaimable(d.s.rows, ids, d.open[w].now, c.leaseMs)
          else d.open[w].snapshot == Some(ids) && SnapshotWasPool(c, trace.before, w, ids)
  }

  // In the columns.
  ghost predicate OldestClaimable(t: Table, ids: seq<EventId>, now: int, leaseMs: nat) {
    && (forall id :: id in ids <==>
          && id in t
          && ((t[id].status == Pending && t[id].availableAt <= now)
              || (t[id].status == Processing && t[id].lockedAt.Some? && t[id].lockedAt.value < now - 1_000 * leaseMs)))
    && (forall i, j | 0 <= i < j < |ids| ::
          || t[ids[i]].event.occurredAt < t[ids[j]].event.occurredAt
          || (t[ids[i]].event.occurredAt == t[ids[j]].event.occurredAt && ids[i] < ids[j]))
  }

  lemma PoolInColumns(t: Table, ids: seq<EventId>, now: int, leaseMs: nat)
    requires Keyed(t) && InOrder(t, ids) && Elements(ids) == Pool(t, now, leaseMs, {})
    ensures OldestClaimable(t, ids, now, leaseMs)
  {
    forall id ensures id in ids <==> id in Pool(t, now, leaseMs, {}) {
      InElements(ids, id);
    }
  }

  // The time a claim goes by is the clock's when its transaction began.
  ghost predicate BegunAt(c: Config, trace: Trace, w: WorkerId, now: int)
    requires Possible(c, trace)
  {
    && trace.Onward?
    && var d := Reached(c, trace.before);
       if trace.move == BeginClaim(w) then now == d.s.clock else w in d.open && BegunAt(c, trace.before, w, now)
  }

  lemma {:induction false} OneTimePerTransaction(c: Config, trace: Trace, w: WorkerId)
    requires Possible(c, trace)
    ensures w in Reached(c, trace).open ==> BegunAt(c, trace, w, Reached(c, trace).open[w].now)
    decreases trace
  {
    if trace.Onward? && w in Reached(c, trace).open && trace.move != BeginClaim(w) {
      var d, m := Reached(c, trace.before), trace.move;
      OneTimePerTransaction(c, trace.before, w);
      if m != Visit(w) && !(m.TakeSnapshot? && m.w == w) {
        MoveOfOthers(c, d, m, w);
      }
    }
  }

  // What a move does to the transaction of a worker.
  lemma MoveOfOthers(c: Config, d: Database, m: Move, w: WorkerId)
    requires Sound(c, d) && MayMove(c, d, m) && w in Moved(c, d, m).open
    ensures m != Visit(w) && !(m.TakeSnapshot? && m.w == w) && m != BeginClaim(w) ==>
      w in d.open && Moved(c, d, m).open[w] == d.open[w]
  {
  }

  lemma SkipIsBlocked(c: Config, d: Database, w: WorkerId, id: EventId)
    requires Sound(c, d) && MayMove(c, d, Visit(w))
    requires id in Visited(c, d, d.open[w]).skipped && id !in d.open[w].skipped
    ensures Blocked(c, d, w, id, Visited(c, d, d.open[w]).skipped[id])
  {
    TakenBefore(c, d, d.open[w]);
    if LockedByClaim(d, id) {
      var v :| v in d.open && id in d.open[v].locked;
      assert v != w;
    }
  }

  lemma SkipsStay(c: Config, d: Database, w: WorkerId, id: EventId)
    requires Sound(c, d) && MayMove(c, d, Visit(w)) && id in d.open[w].skipped
    ensures var after := Visited(c, d, d.open[w]).skipped; id in after && after[id] == d.open[w].skipped[id]
  {
    TakenBefore(c, d, d.open[w]);
  }

  /** A scan skips no row without cause: each was locked by another, or did not qualify, since the snapshot. */
  lemma {:induction false} SkippedForAReason(c: Config, trace: Trace, w: WorkerId, id: EventId)
    requires Possible(c, trace)
    ensures var d := Reached(c, trace);
            w in d.open && id in d.open[w].skipped ==> WasBlocked(c, trace, w, id, d.open[w].skipped[id])
    decreases trace
  {
    var d' := Reached(c, trace);
    if trace.Onward? && w in d'.open && id in d'.open[w].skipped {
      var d, m := Reached(c, trace.before), trace.move;
      SkippedForAReason(c, trace.before, w, id);
      assert SoundScan(c, d', d'.open[w]);
      if m == Visit(w) {
        if id in d.open[w].skipped {
          SkipsStay(c, d, w, id);
        } else {
          SkipIsBlocked(c, d, w, id);
        }
      } else {
        MoveOfOthers(c, d, m, w);
      }
    }
  }

  lemma {:induction false} SnapshotsArePools(c: Config, trace: Trace, w: WorkerId)
    requires Possible(c, trace)
    ensures var d := Reached(c, trace);
            w in d.open && d.open[w].snapshot.Some? ==> SnapshotWasPool(c, trace, w, d.open[w].snapshot.value)
    decreases trace
  {
    var d' := Reached(c, trace);
    if trace.Onward? && w in d'.open && d'.open[w].snapshot.Some? {
      var d, m := Reached(c, trace.before), trace.move;
      SnapshotsArePools(c, trace.before, w);
      if m == Visit(w) {
        assert d'.open[w].snapshot == d.open[w].snapshot;
      } else if m.TakeSnapshot? && m.w == w {
        PoolInColumns(d.s.rows, m.ids, d.open[w].now, c.leaseMs);
      } else if m != BeginClaim(w) {
        MoveOfOthers(c, d, m, w);
      }
    }
  }

  /**
   A commit takes exactly the first `batchSize` of the rows that were claimable when it took its snapshot, but
   for those that another had locked, or that no longer qualified, by the time the scan came to them.
   */
  lemma {:induction false} CommitTakesTheFirst(c: Config, trace: Trace, w: WorkerId)
    requires Possible(c, trace)
    ensures var d := Reached(c, trace);
            w in d.open && ScanDone(c, d.open[w]) ==>
              var t := d.open[w];
              && SnapshotWasPool(c, trace, w, t.snapshot.value)
              && (forall id | id in t.skipped :: WasBlocked(c, trace, w, id, t.skipped[id]))
              && IsFirst(d.s.rows, Elements(t.locked), Elements(t.snapshot.value) - t.skipped.Keys, c.batchSize)
              && |t.locked| <= c.batchSize
              && forall a, b | a in t.locked && b in t.snapshot.value && b !in t.locked && b !in t.skipped ::
                   && |t.locked| == c.batchSize && a in d.s.rows && b in d.s.rows
                   && (d.s.rows[a].event.occurredAt < d.s.rows[b].event.occurredAt
                       || (d.s.rows[a].event.occurredAt == d.s.rows[b].event.occurredAt && a < b))
  {
    var d := Reached(c, trace);
    if w in d.open && ScanDone(c, d.open[w]) {
      var t := d.open[w];
      SoundTakesTheFirst(c, d, t);
      SnapshotsArePools(c, trace, w);
      forall id | id in t.skipped ensures WasBlocked(c, trace, w, id, t.skipped[id]) {
        SkippedForAReason(c, trace, w, id);
      }
      forall a, b | a in t.locked && b in t.snapshot.value && b !in t.locked && b !in t.skipped {
        TakenComeFirst(c, d, t, a, b);
      }
    }
  }

  // Every id of the snapshot is taken, skipped, or not visited yet; never two of these.
  lemma VisitedOnce(c: Config, d: Database, t: Transaction, id: EventId)
    requires SoundScan(c, d, t) && t.snapshot.Some?
    ensures id in t.locked ==> id in t.snapshot.value && id !in t.skipped
    ensures t.position == |t.snapshot.value| && id in t.snapshot.value && id !in t.skipped ==> id in t.locked
    ensures id in t.snapshot.value ==> id in d.s.rows
  {
    if id in t.snapshot.value {
      var i :| 0 <= i < |t.snapshot.value| && t.snapshot.value[i] == id;
    }
  }

  lemma SoundTakesTheFirst(c: Config, d: Database, t: Transaction)
    requires SoundScan(c, d, t) && ScanDone(c, t)
    ensures IsFirst(d.s.rows, Elements(t.locked), Elements(t.snapshot.value) - t.skipped.Keys, c.batchSize)
  {
    var taken, pool := Elements(t.locked), Elements(t.snapshot.value) - t.skipped.Keys;
    forall id
      ensures id in taken ==> id in pool
      ensures id in pool ==> id in d.s.rows
      ensures t.position == |t.snapshot.value| && id in pool ==> id in taken
    {
      VisitedOnce(c, d, t, id);
      InElements(t.locked, id);
      InElements(t.snapshot.value, id);
    }
    TakenSize(d, t, taken, pool, c.batchSize);
    forall a, b | a in taken && b in pool - taken ensures Before(d.s.rows[a].event, d.s.rows[b].event) {
      InElements(t.locked, a);
      InElements(t.locked, b);
      InElements(t.snapshot.value, b);
      TakenComeFirst(c, d, t, a, b);
    }
  }

  lemma TakenSize(d: Database, t: Transaction, taken: set<EventId>, pool: set<EventId>, limit: nat)
    requires InOrder(d.s.rows, t.locked) && taken == Elements(t.locked) && taken <= pool
    requires |t.locked| <= limit && (|t.locked| == limit || pool <= taken)
    ensures |taken| == (if |pool| < limit then |pool| else limit)
  {
    DistinctSize(d.s.rows, t.locked);
    SubsetSize(taken, pool);
    if pool <= taken {
      assert pool == taken;
    }
  }

  lemma SubsetSize<T>(a: set<T>, b: set<T>)
    requires a <= b
    ensures |a| <= |b|
  {
    assert b == a + (b - a);
  }

  lemma {:induction false} DistinctSize(t: Table, ids: seq<EventId>)
    requires InOrder(t, ids)
    ensures |Elements(ids)| == |ids|
  {
    if ids != [] {
      var init, last := ids[..|ids| - 1], ids[|ids| - 1];
      DistinctSize(t, init);
      ElementsGrow(init, last);
      assert init + [last] == ids;
    }
  }

  /** Claims open at the same time hold disjoint rows, each untouched and claimable until its commit. */
  lemma {:induction false} OpenClaimsAreDisjoint(c: Config, trace: Trace, d: Database, v: WorkerId, w: WorkerId)
    requires Possible(c, trace) && d == Reached(c, trace) && v in d.open && w in d.open && v != w
    ensures Elements(d.open[v].locked) !! Elements(d.open[w].locked)
    ensures forall id | id in d.open[v].locked ::
              id in d.s.rows && Claimable(d.s.rows[id], d.open[v].now, c.leaseMs)
  {
    assert SoundLocks(c, d, d.open[v]);
    forall id ensures !(id in Elements(d.open[v].locked) && id in Elements(d.open[w].locked)) {
      InElements(d.open[v].locked, id);
      InElements(d.open[w].locked, id);
    }
  }

  // -------------------------------------------- and every claim can be carried out

  lemma {:induction false} InOrderExists(t: Table, pool: set<EventId>) returns (ids: seq<EventId>)
    requires Keyed(t) && pool <= t.Keys
    ensures InOrder(t, ids) && Elements(ids) == pool
    decreases |pool|
  {
    if pool == {} {
      ids := [];
    } else {
      EarliestExists(t, pool);
      var a :| a in pool && forall b | b in pool && b != a :: Before(t[a].event, t[b].event);
      var rest := InOrderExists(t, pool - {a});
      ids := [a] + rest;
      FirstOfElements(a, rest);
      FirstInOrder(t, a, rest);
    }
  }

  lemma FirstInOrder(t: Table, a: EventId, rest: seq<EventId>)
    requires a in t && Elements(rest) <= t.Keys && InOrder(t, rest)
    requires forall b | b in Elements(rest) :: Before(t[a].event, t[b].event)
    ensures InOrder(t, [a] + rest)
  {
    forall j | 0 <= j < |rest| ensures rest[j] in t && Before(t[a].event, t[rest[j]].event) {
      assert rest[j] in Elements(rest);
    }
  }

  lemma FirstOfElements(a: EventId, rest: seq<EventId>)
    ensures Elements([a] + rest) == {a} + Elements(rest)
  {
    var all := [a] + rest;
    assert all[0] == a;
    forall id | id in Elements(rest) ensures id in Elements(all) {
      var i :| 0 <= i < |rest| && rest[i] == id;
      assert all[i + 1] == id;
    }
  }

  // Nobody else has a lock, and nothing has been skipped.
  ghost predicate Alone(c: Config, d: Database, w: WorkerId) {
    && d.open.Keys == {w} && d.inFlight == {} && d.open[w].snapshot.Some? && d.open[w].skipped == map[]
    && forall id | id in d.open[w].snapshot.value :: id in d.s.rows && Claimable(d.s.rows[id], d.open[w].now, c.leaseMs)
  }

  lemma VisitAlone(c: Config, d: Database, w: WorkerId)
    requires Sound(c, d) && Alone(c, d, w) && MayMove(c, d, Visit(w))
    ensures var d' := Moved(c, d, Visit(w));
            && Alone(c, d', w) && d'.s == d.s && d'.open[w].snapshot == d.open[w].snapshot
            && d'.open[w].now == d.open[w].now && d'.open[w].position == d.open[w].position + 1
  {
    TakenBefore(c, d, d.open[w]);
    var id := d.open[w].snapshot.value[d.open[w].position];
    assert !LockedByClaim(d, id);
    assert Takeable(c, d, d.open[w], id);
  }

  lemma {:induction false} VisitsEnd(c: Config, trace: Trace, w: WorkerId) returns (trace': Trace)
    requires Possible(c, trace) && Alone(c, Reached(c, trace), w)
    ensures Possible(c, trace')
    ensures var d, d' := Reached(c, trace), Reached(c, trace');
            && Alone(c, d', w) && ScanDone(c, d'.open[w]) && d'.s == d.s
            && d'.open[w].snapshot == d.open[w].snapshot && d'.open[w].now == d.open[w].now
    decreases |Reached(c, trace).open[w].snapshot.value| - Reached(c, trace).open[w].position
  {
    var d := Reached(c, trace);
    assert SoundScan(c, d, d.open[w]);
    if ScanDone(c, d.open[w]) {
      trace' := trace;
    } else {
      VisitAlone(c, d, w);
      var next := Onward(trace, Visit(w));
      assert Reached(c, next) == Moved(c, d, Visit(w));
      trace' := VisitsEnd(c, next, w);
    }
  }

  lemma BeginAlone(c: Config, trace: Trace, w: WorkerId) returns (trace': Trace)
    requires Possible(c, trace) && Reached(c, trace).open == map[] && Reached(c, trace).inFlight == {}
    requires ActivityOf(Reached(c, trace).s, w).Idle?
    ensures Possible(c, trace') && Alone(c, Reached(c, trace'), w)
    ensures var d, d' := Reached(c, trace), Reached(c, trace');
            && d'.s == d.s && d'.open[w].now == d.s.clock
            && Elements(d'.open[w].snapshot.value) == Pool(d.s.rows, d.s.clock, c.leaseMs, {})
  {
    var d := Reached(c, trace);
    var begun := Onward(trace, BeginClaim(w));
    assert Reached(c, begun) == Moved(c, d, BeginClaim(w));
    var ids := InOrderExists(d.s.rows, Pool(d.s.rows, d.s.clock, c.leaseMs, {}));
    trace' := Onward(begun, TakeSnapshot(w, ids));
    assert Reached(c, trace') == Moved(c, Reached(c, begun), TakeSnapshot(w, ids));
    forall id | id in ids ensures id in Pool(d.s.rows, d.s.clock, c.leaseMs, {}) {
      InElements(ids, id);
    }
  }

  lemma CommitAlone(c: Config, d: Database, w: WorkerId)
    requires Sound(c, d) && Alone(c, d, w) && ScanDone(c, d.open[w])
    ensures MayMove(c, d, CommitClaim(w, Done))
    ensures var d' := Moved(c, d, CommitClaim(w, Done)); var t := d.open[w];
            && d'.open == map[] && d'.s.rows == Claimed(d.s.rows, Elements(t.locked), w, t.now)
            && IsFirst(d.s.rows, Elements(t.locked), Elements(t.snapshot.value), c.batchSize)
  {
    var t := d.open[w];
    SoundTakesTheFirst(c, d, t);
    assert Elements(t.snapshot.value) - t.skipped.Keys == Elements(t.snapshot.value);
    CommitEnabled(c, d, w, Done);
    CommitClaims(c, d, w, Done);
    assert d.open - {w} == map[];
  }

  // A move made is a trace made longer.
  lemma Further(c: Config, trace: Trace, m: Move)
    requires Possible(c, trace) && MayMove(c, Reached(c, trace), m)
    ensures Possible(c, Onward(trace, m)) && Reached(c, Onward(trace, m)) == Moved(c, Reached(c, trace), m)
  {
  }

  /** With nobody in the way the locks let a claim through, and it takes the first `batchSize` claimable rows. */
  lemma {:induction false} LoneClaimCommits(c: Config, trace: Trace, w: WorkerId)
    returns (trace': Trace, taken: set<EventId>)
    requires Possible(c, trace) && Reached(c, trace).open == map[] && Reached(c, trace).inFlight == {}
    requires ActivityOf(Reached(c, trace).s, w).Idle?
    ensures Possible(c, trace') && Reached(c, trace').open == map[]
    ensures var s, s' := Reached(c, trace).s, Reached(c, trace').s;
            && IsFirst(s.rows, taken, Pool(s.rows, s.clock, c.leaseMs, {}), c.batchSize)
            && s'.rows == Claimed(s.rows, taken, w, s.clock)
  {
    var begun := BeginAlone(c, trace, w);
    var ready := VisitsEnd(c, begun, w);
    taken := Elements(Reached(c, ready).open[w].locked);
    CommitAlone(c, Reached(c, ready), w);
    Further(c, ready, CommitClaim(w, Done));
    trace' := Onward(ready, CommitClaim(w, Done));
  }
}
