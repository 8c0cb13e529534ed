/**
 The durable outbox as a transition system: many workers, operators and users acting on one
 database, one step at a time. A worker's step is what it does between two awaits; a statement
 may take effect although its caller sees an error (`DoneButLost`), and a worker may vanish at
 any point (`Crash`).
 */
module OutboxProtocol {
  import opened Wrappers
  import opened Numbers
  import opened OutboxRepository
  import opened Notifications

  const INSERT_TRIES := 3

  datatype Config = Config(
    batchSize: nat, maxAttempts: nat, retryBaseDelayMs: nat, retryMaxDelayMs: nat, leaseMs: nat)

  datatype Preference = Preference(inApp: bool, email: bool)

  // Where a worker is with the first copy it has left.
  datatype Phase =
    | Starting                              // about to read the recipient's preference
    | Inserting(tries: nat, email: bool)    // about to insert the notification, try number `tries`
    | Reselecting(tries: nat, email: bool)  // the insert met a conflict; about to read the row it met
    | Emitting(email: bool)
    | Mailing(inApp: bool)
    | Publishing                            // the dispatch has completed
    | Failing(failedAt: int)                // the dispatch or the publish threw at this time

  datatype Activity = Idle | Busy(todo: seq<Copy>, phase: Phase)

  // What the deployment has done, latest last. Statements that change no row leave no entry.
  datatype Entry =
    | Enqueued(id: EventId)
    | Requeued(id: EventId)
    | Took(now: int, fromPending: set<EventId>, takenOver: set<EventId>)
    | Retried(id: EventId)
    | Finished(id: EventId)
    | Buried(id: EventId)
    | Dispatched(id: EventId, inApp: bool, email: bool)
    | Notified(id: EventId)
    | Unnotified(id: EventId)
    | Emitted(id: EventId)
    | Mailed(id: EventId)

  datatype History = Nothing | Then(past: History, entry: Entry)

  datatype State = State(
    clock: int, rows: Table, workers: map<WorkerId, Activity>, notes: Notes, nextNote: NoteId,
    prefs: map<(nat, string), Preference>, history: History)

  // Took effect and acknowledged; took effect but reported as an error; an error and no effect.
  datatype Reply = Done | DoneButLost | Refused

  datatype Step =
    | Tick(to: int)
    | Enqueue(event: Event)
    | Replay(id: EventId)
    | SetPreference(user: nat, eventType: string, preference: Preference)
    | DeleteNote(noteId: NoteId, recipientId: nat)
    | Crash(w: WorkerId)
    | Claim(w: WorkerId, now: int, copies: seq<Copy>, reply: Reply)
    | ReadPreference(w: WorkerId, ok: bool)
    | InsertNote(w: WorkerId, createdAt: Timestamp, reply: Reply, retryable: bool)
    | SelectNote(w: WorkerId, ok: bool, retryable: bool)
    | Emit(w: WorkerId, ok: bool)
    | SendMail(w: WorkerId, ok: bool)
    | Publish(w: WorkerId, reply: Reply)
    | Settle(w: WorkerId, reply: Reply, error: string)

  function Actor(step: Step): Option<WorkerId> {
    match step
    case Tick(_) | Enqueue(_) | Replay(_) | SetPreference(_, _, _) | DeleteNote(_, _) => None
    case _ => Some(step.w)
  }

  // ------------------------------------------------------------- arithmetic

  function BackoffMs(c: Config, attempts: nat): nat {
    Min(c.retryMaxDelayMs, c.retryBaseDelayMs * Pow2(if attempts == 0 then 0 else attempts - 1))
  }

  // The worker reads the clock in whole milliseconds.
  function ClockMs(clock: int): int {
    clock / MICROS_PER_MS
  }

  function RetryAt(c: Config, failedAt: int, attempts: nat): int {
    (ClockMs(failedAt) + BackoffMs(c, attempts)) * MICROS_PER_MS
  }

  // A user without a row gets notifications and no mail.
  function PreferenceFor(s: State, user: nat, eventType: string): Preference {
    if (user, eventType) in s.prefs then s.prefs[(user, eventType)] else Preference(true, false)
  }

  function PreferenceOf(s: State, e: Event): Preference {
    PreferenceFor(s, e.targetUserId, e.eventType)
  }

  // ------------------------------------------------------------------ steps

  function ActivityOf(s: State, w: WorkerId): Activity {
    if w in s.workers then s.workers[w] else Idle
  }

  predicate In(s: State, w: WorkerId) {
    ActivityOf(s, w).Busy? && ActivityOf(s, w).todo != []
  }

  function Head(s: State, w: WorkerId): Copy
    requires In(s, w)
  {
    s.workers[w].todo[0]
  }

  function PhaseOf(s: State, w: WorkerId): Phase
    requires In(s, w)
  {
    s.workers[w].phase
  }

  predicate Enabled(c: Config, s: State, step: Step) {
    match step
    case Tick(to) => s.clock <= to
    case Enqueue(_) | Replay(_) | SetPreference(_, _, _) | DeleteNote(_, _) | Crash(_) => true
    case Claim(w, now, copies, _) =>
      // the `running` guard, then any rows that were claimable when the transaction began
      && ActivityOf(s, w).Idle? && now <= s.clock && |copies| <= c.batchSize
      && AreCopies(s.rows, copies)
      && forall id | id in Ids(copies) :: id in s.rows && Claimable(s.rows[id], now, c.leaseMs)
    case ReadPreference(w, _) => In(s, w) && PhaseOf(s, w).Starting?
    case InsertNote(w, _, _, _) => In(s, w) && PhaseOf(s, w).Inserting?
    case SelectNote(w, _, _) => In(s, w) && PhaseOf(s, w).Reselecting?
    case Emit(w, _) => In(s, w) && PhaseOf(s, w).Emitting?
    case SendMail(w, _) => In(s, w) && PhaseOf(s, w).Mailing?
    case Publish(w, _) => In(s, w) && PhaseOf(s, w).Publishing?
    case Settle(w, _, _) => In(s, w) && PhaseOf(s, w).Failing?
  }

  function Log(s: State, e: Entry): State {
    s.(history := Then(s.history, e))
  }

  predicate IsEffect(e: Entry, id: EventId) {
    e == Notified(id) || e == Emitted(id) || e == Mailed(id) || (e.Dispatched? && e.id == id)
  }

  // At most two effects of a dispatch of this event were logged.
  predicate Effects(h: History, h': History, id: EventId) {
    || h' == h
    || (h'.Then? && IsEffect(h'.entry, id) && h'.past == h)
    || (h'.Then? && IsEffect(h'.entry, id) && h'.past.Then? && IsEffect(h'.past.entry, id) && h'.past.past == h)
  }

  // What a step of the dispatch may touch: the phase of its worker, notes and history.
  predicate Works(s: State, s': State, w: WorkerId) {
    && In(s, w) && In(s', w) && s'.rows == s.rows && s'.clock == s.clock && s'.prefs == s.prefs
    && Effects(s.history, s'.history, Head(s, w).event.id)
    && s'.workers == s.workers[w := Busy(s.workers[w].todo, s'.workers[w].phase)]
    && (s'.workers[w].phase.Failing? ==> s'.workers[w].phase.failedAt == s.clock)
  }

  // What a publish or the catch block may touch: its worker, and the row in hand if still held.
  predicate Closes(s: State, s': State, w: WorkerId) {
    && In(s, w) && s'.clock == s.clock && s'.prefs == s.prefs && s'.notes == s.notes && s'.nextNote == s.nextNote
    && w in s'.workers && s'.workers == s.workers[w := s'.workers[w]]
    && (In(s', w) ==> PhaseOf(s', w).Starting? || PhaseOf(s', w) == Failing(s.clock))
    && ((s'.rows == s.rows && s'.history == s.history) || ClosesRow(s, s', w, Head(s, w).event.id))
  }

  predicate ClosesRow(s: State, s': State, w: WorkerId, id: EventId) {
    && Holds(s.rows, id, w) && id in s'.rows && s'.rows == s.rows[id := s'.rows[id]]
    && s'.rows[id].event == s.rows[id].event && s'.rows[id].attempts == s.rows[id].attempts
    && !s'.rows[id].status.Processing?
    && s'.history.Then? && s'.history.past == s.history
    && match s'.rows[id].status
       case Published => s'.history.entry == Finished(id)
       case DeadLetter => s'.history.entry == Buried(id)
       case _ => s'.history.entry == Retried(id)
  }

  function Go(s: State, w: WorkerId, phase: Phase): State
    requires In(s, w)
  {
    s.(workers := s.workers[w := Busy(s.workers[w].todo, phase)])
  }

  function Fail(s: State, w: WorkerId): State
    requires In(s, w)
  {
    Go(s, w, Failing(s.clock))
  }

  function NextCopy(s: State, w: WorkerId): State
    requires In(s, w)
  {
    var todo := s.workers[w].todo;
    s.(workers := s.workers[w := if |todo| == 1 then Idle else Busy(todo[1..], Starting)])
  }

  function Abandon(s: State, w: WorkerId): State {
    s.(workers := s.workers[w := Idle])
  }

  function Complete(s: State, w: WorkerId, inApp: bool, email: bool): State
    requires In(s, w)
  {
    Log(Go(s, w, Publishing), Dispatched(Head(s, w).event.id, inApp, email))
  }

  // The body of retryWithBackoff saw an error: one more try, or give up.
  function TryAgain(s: State, w: WorkerId, tries: nat, email: bool, retryable: bool): State
    requires In(s, w)
  {
    if retryable && tries < INSERT_TRIES then Go(s, w, Inserting(tries + 1, email)) else Fail(s, w)
  }

  function Store(s: State, e: Event, createdAt: Timestamp): State {
    if HasNoteFor(s.notes, e.id) then s
    else Log(s.(notes := s.notes[s.nextNote := Note(e.id, e.targetUserId, createdAt, false, None)],
                nextNote := s.nextNote + 1), Notified(e.id))
  }

  function FromPending(t: Table, ids: set<EventId>): set<EventId> {
    set id | id in ids && id in t && t[id].status.Pending?
  }

  function ApplyClaim(s: State, w: WorkerId, now: int, copies: seq<Copy>, reply: Reply): State {
    var ids := Ids(copies);
    var fromPending := FromPending(s.rows, ids);
    var taken := Log(s.(rows := Claimed(s.rows, ids, w, now)), Took(now, fromPending, ids - fromPending));
    if reply.Refused? then s
    else if reply.Done? && copies != [] then taken.(workers := s.workers[w := Busy(copies, Starting)])
    else taken
  }

  function ApplyInsert(s: State, w: WorkerId, createdAt: Timestamp, reply: Reply, retryable: bool): (s': State)
    requires In(s, w) && PhaseOf(s, w).Inserting?
    ensures Works(s, s', w)
  {
    var p := PhaseOf(s, w);
    var e := Head(s, w).event;
    if reply.Refused? then TryAgain(s, w, p.tries, p.email, retryable)
    else
      var after := Store(s, e, createdAt);
      if reply.DoneButLost? then TryAgain(after, w, p.tries, p.email, retryable)
      else if HasNoteFor(s.notes, e.id) then Go(s, w, Reselecting(p.tries, p.email))
      else Go(after, w, Emitting(p.email))
  }

  function ApplySelect(s: State, w: WorkerId, ok: bool, retryable: bool): (s': State)
    requires In(s, w) && PhaseOf(s, w).Reselecting?
    ensures Works(s, s', w)
  {
    var p := PhaseOf(s, w);
    if !ok then TryAgain(s, w, p.tries, p.email, retryable)
    else if HasNoteFor(s.notes, Head(s, w).event.id) then Go(s, w, Emitting(p.email))
    else TryAgain(s, w, p.tries, p.email, true)
  }

  function ApplyPreference(s: State, w: WorkerId, ok: bool): (s': State)
    requires In(s, w)
    ensures Works(s, s', w)
  {
    var p := PreferenceOf(s, Head(s, w).event);
    if !ok then Fail(s, w)
    else if p.inApp then Go(s, w, Inserting(1, p.email))
    else if p.email then Go(s, w, Mailing(false))
    else Complete(s, w, false, false)
  }

  function ApplyPublish(s: State, w: WorkerId, reply: Reply): (s': State)
    requires In(s, w)
    ensures Closes(s, s', w)
  {
    var id := Head(s, w).event.id;
    var after := if !reply.Refused? && Holds(s.rows, id, w)
                 then Log(s.(rows := PublishedBy(s.rows, id, w, s.clock)), Finished(id)) else s;
    if reply.Done? then NextCopy(after, w) else Fail(after, w)
  }

  // The catch block: dead-letter or retry by the attempts of the copy in hand.
  function SettledRows(c: Config, s: State, w: WorkerId, error: string): State
    requires In(s, w) && PhaseOf(s, w).Failing?
  {
    var copy := Head(s, w);
    var id := copy.event.id;
    if !Holds(s.rows, id, w) then s
    else if copy.attempts >= c.maxAttempts
    then Log(s.(rows := BuriedBy(s.rows, id, w, s.clock, error)), Buried(id))
    else
      var availableAt := RetryAt(c, PhaseOf(s, w).failedAt, copy.attempts);
      Log(s.(rows := ReleasedBy(s.rows, id, w, availableAt, error)), Retried(id))
  }

  function ApplySettle(c: Config, s: State, w: WorkerId, reply: Reply, error: string): (s': State)
    requires In(s, w) && PhaseOf(s, w).Failing?
    ensures Closes(s, s', w)
  {
    var after := if reply.Refused? then s else SettledRows(c, s, w, error);
    if reply.Done? then NextCopy(after, w) else Abandon(after, w)
  }

  function ApplyEmit(s: State, w: WorkerId, ok: bool): (s': State)
    requires In(s, w) && PhaseOf(s, w).Emitting?
    ensures Works(s, s', w)
  {
    var emitted := Log(s, Emitted(Head(s, w).event.id));
    if !ok then Fail(s, w)
    else if PhaseOf(s, w).email then Go(emitted, w, Mailing(true))
    else Complete(emitted, w, true, false)
  }

  function ApplyMail(s: State, w: WorkerId, ok: bool): (s': State)
    requires In(s, w) && PhaseOf(s, w).Mailing?
    ensures Works(s, s', w)
  {
    if !ok then Fail(s, w)
    else Complete(Log(s, Mailed(Head(s, w).event.id)), w, PhaseOf(s, w).inApp, true)
  }

  function ApplyDelete(s: State, noteId: NoteId, recipientId: nat): State {
    if Owns(s.notes, noteId, recipientId)
    then Log(s.(notes := s.notes - {noteId}), Unnotified(s.notes[noteId].eventId))
    else s
  }

  function Apply(c: Config, s: State, step: Step): State
    requires Enabled(c, s, step)
  {
    match step
    case Tick(to) => s.(clock := to)
    case Enqueue(e) => if e.id in s.rows then s else Log(s.(rows := Inserted(s.rows, e, s.clock)), Enqueued(e.id))
    case Replay(id) => if CanReplay(s.rows, id) then Log(s.(rows := Replayed(s.rows, id, s.clock)), Requeued(id)) else s
    case SetPreference(u, k, p) => s.(prefs := s.prefs[(u, k) := p])
    case DeleteNote(n, r) => ApplyDelete(s, n, r)
    case Crash(w) => Abandon(s, w)
    case Claim(w, now, copies, reply) => ApplyClaim(s, w, now, copies, reply)
    case ReadPreference(w, ok) => ApplyPreference(s, w, ok)
    case InsertNote(w, at, reply, retryable) => ApplyInsert(s, w, at, reply, retryable)
    case SelectNote(w, ok, retryable) => ApplySelect(s, w, ok, retryable)
    case Emit(w, ok) => ApplyEmit(s, w, ok)
    case SendMail(w, ok) => ApplyMail(s, w, ok)
    case Publish(w, reply) => ApplyPublish(s, w, reply)
    case Settle(w, reply, error) => ApplySettle(c, s, w, reply, error)
  }

  // ------------------------------------------------------------------- runs

  datatype Run = Begin(state: State) | After(before: Run, step: Step)

  // A deployment that has accepted no event yet.
  predicate Initial(s: State) {
    s.rows == map[] && s.workers == map[] && s.notes == map[] && s.history == Nothing
  }

  ghost predicate Legal(c: Config, run: Run)
    decreases run, 0
  {
    match run
    case Begin(s) => Initial(s)
    case After(before, step) => Legal(c, before) && Enabled(c, End(c, before), step)
  }

  ghost function End(c: Config, run: Run): State
    requires Legal(c, run)
    decreases run, 1
  {
    match run
    case Begin(s) => s
    case After(before, step) => Apply(c, End(c, before), step)
  }

  ghost predicate Extends(run: Run, earlier: Run) {
    run == earlier || (run.After? && Extends(run.before, earlier))
  }
}
