/**
 The worker's batch loop as a real method, run against a deployment in which everybody else may
 act at every await. What it does is a run of the protocol, so all that holds of every run holds
 of it.
 */
module OutboxWorker {
  import opened Wrappers
  import opened Numbers
  import opened OutboxRepository
  import opened Notifications
  import opened OutboxProtocol
  import opened OutboxFencing
  import opened Retry

  const STATS_INTERVAL_MS := 15000

  // How a call of processBatch ends.
  datatype Outcome =
    | Skipped                                     // stopped, or a batch is in progress
    | ClaimFailed
    | Completed(batch: seq<Copy>)
    | Aborted(batch: seq<Copy>, settled: nat)     // settling a failed copy threw: the rest is dropped

  // What a worker has done, as far as it knows: batches it got hold of and copies it published, retried or buried.
  datatype Deed = Got(batch: seq<Copy>) | Closed(id: EventId)

  ghost function DeedOf(c: Config, s: State, step: Step, w: WorkerId): seq<Deed>
    requires Enabled(c, s, step)
  {
    if Actor(step) != Some(w) then []
    else if step.Claim? && step.reply.Done? then [Got(step.copies)]
    else if IsClosing(step) && step.reply.Done? then [Closed(Head(s, w).event.id)]
    else []
  }

  ghost function Deeds(c: Config, run: Run, w: WorkerId): seq<Deed>
    requires Legal(c, run)
  {
    if run.Begin? then []
    else Deeds(c, run.before, w) + DeedOf(c, End(c, run.before), run.step, w)
  }

  // The copies closed in their order.
  function Closings(copies: seq<Copy>): seq<Deed> {
    seq(|copies|, i requires 0 <= i < |copies| => Closed(copies[i].event.id))
  }

  // The database, the other workers, operators and users.
  class Cluster {
    const config: Config
    var s: State
    ghost var run: Run

    ghost predicate Valid()
      reads this
    {
      config.maxAttempts >= 1 && Legal(config, run) && End(config, run) == s
    }

    constructor (config: Config, start: State)
      requires config.maxAttempts >= 1 && Initial(start)
      ensures Valid() && this.config == config && s == start && run == Begin(start)
    {
      this.config := config;
      s := start;
      run := Begin(start);
    }

    ghost function Done(w: WorkerId): seq<Deed>
      requires Valid()
      reads this
    {
      Deeds(config, run, w)
    }

    // `since` is any earlier point of the run that the caller wants to speak about.
    method Take(step: Step, ghost since: Run)
      requires Valid() && Enabled(config, s, step) && Extends(run, since)
      modifies this
      ensures Valid() && Extends(run, since) && s == Apply(config, old(s), step) && run == After(old(run), step)
      ensures forall w :: Done(w) == old(Done(w)) + DeedOf(config, old(s), step, w)
    {
      s := Apply(config, s, step);
      run := After(run, step);
    }

    /** An await of worker `w`: all the others do what they like, for as long as they like. */
    method Await(w: WorkerId, ghost since: Run)
      requires Valid() && Extends(run, since)
      modifies this
      ensures Valid() && Extends(run, since) && s.clock >= old(s.clock)
      ensures ActivityOf(s, w) == ActivityOf(old(s), w)
      ensures Done(w) == old(Done(w))
    {
      var steps: nat := *;
      while steps > 0
        invariant Valid() && Extends(run, since) && s.clock >= old(s.clock)
        invariant ActivityOf(s, w) == ActivityOf(old(s), w)
        invariant Done(w) == old(Done(w))
      {
        var step: Step := *;
        if Enabled(config, s, step) && Actor(step) != Some(w) {
          Bystander(config, s, step, w);
          Take(step, since);
        }
        steps := steps - 1;
      }
    }

    /** The claim transaction: it begins, others act, and it commits some rows claimable since it began. */
    method Claim(w: WorkerId, ghost since: Run) returns (copies: Option<seq<Copy>>)
      requires Valid() && Extends(run, since) && ActivityOf(s, w).Idle?
      modifies this
      ensures Valid() && Extends(run, since) && s.clock >= old(s.clock)
      ensures copies.None? ==> ActivityOf(s, w).Idle? && Done(w) == old(Done(w))
      ensures copies.Some? ==>
        && Done(w) == old(Done(w)) + [Got(copies.value)] && |copies.value| <= config.batchSize
        && ActivityOf(s, w) == (if copies.value == [] then Idle else Busy(copies.value, Starting))
    {
      var now := s.clock;
      Await(w, since);
      var chosen: seq<Copy> := *;
      var reply: Reply := *;
      if !Enabled(config, s, Step.Claim(w, now, chosen, reply)) {
        chosen := [];
      }
      Take(Step.Claim(w, now, chosen, reply), since);
      copies := if reply.Done? then Some(chosen) else None;
    }

    method MarkPublished(eventId: EventId, w: WorkerId, ghost since: Run) returns (ok: bool)
      requires Valid() && Extends(run, since) && In(s, w) && PhaseOf(s, w).Publishing? && Head(s, w).event.id == eventId
      modifies this
      ensures Valid() && Extends(run, since)
      ensures Done(w) == old(Done(w)) + (if ok then [Closed(eventId)] else [])
      ensures ok ==> ActivityOf(s, w) == ActivityOf(NextCopy(old(s), w), w)
      ensures !ok ==> ActivityOf(s, w) == Busy(old(s.workers[w].todo), Failing(s.clock))
    {
      Await(w, since);
      var reply: Reply := *;
      Take(Publish(w, reply), since);
      ok := reply.Done?;
    }

    ghost predicate MaySettle(eventId: EventId, w: WorkerId)
      reads this
    {
      Valid() && In(s, w) && PhaseOf(s, w).Failing? && Head(s, w).event.id == eventId
    }

    method MoveToDeadLetter(eventId: EventId, w: WorkerId, error: string, ghost since: Run) returns (ok: bool)
      requires MaySettle(eventId, w) && Extends(run, since)
      requires Head(s, w).attempts >= config.maxAttempts
      modifies this
      ensures Valid() && Extends(run, since)
      ensures Done(w) == old(Done(w)) + (if ok then [Closed(eventId)] else [])
      ensures ActivityOf(s, w) == if ok then ActivityOf(NextCopy(old(s), w), w) else Idle
    {
      Await(w, since);
      var reply: Reply := *;
      Take(Settle(w, reply, error), since);
      ok := reply.Done?;
    }

    method ReleaseForRetry(eventId: EventId, w: WorkerId, availableAt: int, error: string, ghost since: Run)
      returns (ok: bool)
      requires MaySettle(eventId, w) && Extends(run, since)
      requires Head(s, w).attempts < config.maxAttempts
      requires availableAt == RetryAt(config, PhaseOf(s, w).failedAt, Head(s, w).attempts)
      modifies this
      ensures Valid() && Extends(run, since)
      ensures Done(w) == old(Done(w)) + (if ok then [Closed(eventId)] else [])
      ensures ActivityOf(s, w) == if ok then ActivityOf(NextCopy(old(s), w), w) else Idle
    {
      Await(w, since);
      var reply: Reply := *;
      Take(Settle(w, reply, error), since);
      ok := reply.Done?;
    }
  }

  // How a try of createNotification ended, for the retry loop.
  function InsertTry(reply: Reply, retryable: bool): Attempt<()> {
    if reply.Done? then Succeeds(()) else Throws("insert", retryable)
  }

  function SelectTry(ok: bool, found: bool, retryable: bool): Attempt<()> {
    if ok && found then Succeeds(()) else Throws("select", ok || retryable)
  }

  // Where a try leads its worker: on to the emit, to one more try, or to failure.
  predicate Follows(clock: int, a: Activity, todo: seq<Copy>, tries: nat, email: bool, tried: Attempt<()>) {
    a == Busy(todo, if tried.Succeeds? then Emitting(email)
                    else if tried.retryable && tries < INSERT_TRIES then Inserting(tries + 1, email)
                    else Failing(clock))
  }

  lemma InsertLeads(c: Config, s: State, step: Step, tries: nat, email: bool)
    requires step.InsertNote? && In(s, step.w) && PhaseOf(s, step.w) == Inserting(tries, email)
    ensures var s' := Apply(c, s, step); var a := ActivityOf(s', step.w); var todo := s.workers[step.w].todo;
            (step.reply.Done? && a == Busy(todo, Reselecting(tries, email)))
            || Follows(s'.clock, a, todo, tries, email, InsertTry(step.reply, step.retryable))
  {
  }

  lemma SelectLeads(c: Config, s: State, step: Step, tries: nat, email: bool)
    requires step.SelectNote? && In(s, step.w) && PhaseOf(s, step.w) == Reselecting(tries, email)
    ensures var s' := Apply(c, s, step);
            Follows(s'.clock, ActivityOf(s', step.w), s.workers[step.w].todo, tries, email,
                    SelectTry(step.ok, HasNoteFor(s.notes, Head(s, step.w).event.id), step.retryable))
  {
  }

  // The worker is still at its first copy, in this phase, and has closed nothing since.
  ghost predicate At(k: Cluster, w: WorkerId, todo: seq<Copy>, phase: Phase)
    reads k
  {
    k.Valid() && todo != [] && ActivityOf(k.s, w) == Busy(todo, phase)
  }

  // Where the preference leads; none is a read that threw.
  function AfterPreference(clock: int, preference: Option<Preference>): Phase {
    match preference
    case None => Failing(clock)
    case Some(Preference(true, email)) => Inserting(1, email)
    case Some(Preference(false, true)) => Mailing(false)
    case Some(Preference(false, false)) => Publishing
  }

  lemma ClosingsGrow(before: seq<Deed>, copies: seq<Copy>, k: nat)
    requires k < |copies|
    ensures before + Closings(copies[..k]) + [Closed(copies[k].event.id)] == before + Closings(copies[..k + 1])
  {
    assert Closings(copies[..k + 1]) == Closings(copies[..k]) + [Closed(copies[k].event.id)];
  }

  // A batch is claimed first and its copies are closed in its order, all of them or those before the one that threw.
  function BatchDeeds(outcome: Outcome): seq<Deed> {
    match outcome
    case Completed(batch) => [Got(batch)] + Closings(batch)
    case Aborted(batch, settled) => [Got(batch)] + (if settled < |batch| then Closings(batch[..settled]) else [])
    case _ => []
  }

  function BatchEnd(events: seq<Copy>, settled: nat): Outcome {
    if settled == |events| then Completed(events) else Aborted(events, settled)
  }

  lemma BatchDone(before: seq<Deed>, events: seq<Copy>, settled: nat)
    requires settled <= |events|
    ensures before + [Got(events)] + Closings(events[..settled]) == before + BatchDeeds(BatchEnd(events, settled))
  {
    if settled == |events| {
      assert events[..settled] == events;
    }
    assert before + [Got(events)] + Closings(events[..settled])
           == before + ([Got(events)] + Closings(events[..settled]));
  }

  class Worker {
    const id: WorkerId
    const cluster: Cluster
    var started: bool
    var stopped: bool
    var running: bool
    var nextStatsAt: int
    var lastSuccessfulPollAt: Option<int>

    ghost predicate Valid()
      reads this, cluster
    {
      cluster.Valid() && (!running ==> ActivityOf(cluster.s, id).Idle?)
    }

    constructor (id: WorkerId, cluster: Cluster)
      requires cluster.Valid() && ActivityOf(cluster.s, id).Idle?
      ensures Valid() && this.id == id && this.cluster == cluster
      ensures !started && !stopped && !running && nextStatsAt == 0 && lastSuccessfulPollAt.None?
    {
      this.id, this.cluster := id, cluster;
      started, stopped, running, nextStatsAt, lastSuccessfulPollAt := false, false, false, 0, None;
    }

    /** The insert of one try; a conflict leaves the worker about to select the row it met. */
    method InsertNotification(todo: seq<Copy>, attempt: nat, email: bool, ghost since: Run)
      returns (conflict: bool, ghost tried: Attempt<()>)
      requires At(cluster, id, todo, Inserting(attempt, email)) && Extends(cluster.run, since)
      modifies cluster
      ensures cluster.Valid() && Extends(cluster.run, since)
      ensures if conflict then ActivityOf(cluster.s, id) == Busy(todo, Reselecting(attempt, email))
              else Follows(cluster.s.clock, ActivityOf(cluster.s, id), todo, attempt, email, tried)
      ensures cluster.Done(id) == old(cluster.Done(id))
    {
      cluster.Await(id, since);
      var createdAt: Timestamp := *;
      var reply: Reply := *;
      var retryable: bool := *;
      InsertLeads(cluster.config, cluster.s, InsertNote(id, createdAt, reply, retryable), attempt, email);
      cluster.Take(InsertNote(id, createdAt, reply, retryable), since);
      conflict := cluster.s.workers[id].phase.Reselecting?;
      tried := InsertTry(reply, retryable);
    }

    /** One try of createNotification: the insert and, after a conflict, the select. */
    method CreateNotification(todo: seq<Copy>, attempt: nat, email: bool, ghost since: Run)
      returns (ghost tried: Attempt<()>)
      requires At(cluster, id, todo, Inserting(attempt, email)) && Extends(cluster.run, since)
      modifies cluster
      ensures cluster.Valid() && Extends(cluster.run, since)
      ensures Follows(cluster.s.clock, ActivityOf(cluster.s, id), todo, attempt, email, tried)
      ensures cluster.Done(id) == old(cluster.Done(id))
    {
      var conflict: bool;
      conflict, tried := InsertNotification(todo, attempt, email, since);
      if conflict {
        cluster.Await(id, since);
        var ok: bool := *;
        var retryable: bool := *;
        SelectLeads(cluster.config, cluster.s, SelectNote(id, ok, retryable), attempt, email);
        tried := SelectTry(ok, HasNoteFor(cluster.s.notes, Head(cluster.s, id).event.id), retryable);
        cluster.Take(SelectNote(id, ok, retryable), since);
      }
    }

    /** The retry loop around createNotification, with its three tries. */
    method CreateWithRetries(todo: seq<Copy>, email: bool, ghost since: Run) returns (ghost tries: seq<Attempt<()>>)
      requires At(cluster, id, todo, Inserting(1, email)) && Extends(cluster.run, since)
      modifies cluster
      ensures StopsAt(tries, 3, |tries|)
      ensures At(cluster, id, todo,
                 if tries[|tries| - 1].Succeeds? then Emitting(email) else Failing(cluster.s.clock))
      ensures Extends(cluster.run, since)
      ensures cluster.Done(id) == old(cluster.Done(id))
    {
      tries := [];
      var attempt := 1;
      while true
        invariant 1 <= attempt <= INSERT_TRIES && |tries| == attempt - 1
        invariant forall i | 0 <= i < |tries| :: MayRetry(tries[i])
        invariant At(cluster, id, todo, Inserting(attempt, email)) && Extends(cluster.run, since)
        invariant cluster.Done(id) == old(cluster.Done(id))
        decreases INSERT_TRIES - attempt
      {
        ghost var tried := CreateNotification(todo, attempt, email, since);
        tries := tries + [tried];
        if !cluster.s.workers[id].phase.Inserting? {
          return;
        }
        attempt := attempt + 1;
      }
    }

    /** The in-app half of a dispatch: create with bounded retries, then emit. */
    method CreateInAppNotification(todo: seq<Copy>, email: bool, ghost since: Run) returns (ok: bool)
      requires At(cluster, id, todo, Inserting(1, email)) && Extends(cluster.run, since)
      modifies cluster
      ensures At(cluster, id, todo,
                 if !ok then Failing(cluster.s.clock) else if email then Mailing(true) else Publishing)
      ensures Extends(cluster.run, since)
      ensures cluster.Done(id) == old(cluster.Done(id))
    {
      ghost var tries := CreateWithRetries(todo, email, since);
      if cluster.s.workers[id].phase.Failing? {
        return false;
      }
      cluster.Await(id, since);
      ok := *;
      cluster.Take(Emit(id, ok), since);
    }

    /** The mail half of a dispatch. */
    method SendNotificationEmail(todo: seq<Copy>, inApp: bool, ghost since: Run) returns (ok: bool)
      requires At(cluster, id, todo, Mailing(inApp)) && Extends(cluster.run, since)
      modifies cluster
      ensures At(cluster, id, todo, if ok then Publishing else Failing(cluster.s.clock))
      ensures Extends(cluster.run, since)
      ensures cluster.Done(id) == old(cluster.Done(id))
    {
      cluster.Await(id, since);
      ok := *;
      cluster.Take(SendMail(id, ok), since);
    }

    /** The read of the recipient's preference; it decides what the dispatch does next. */
    method ReadPreferenceForType(todo: seq<Copy>, ghost since: Run) returns (preference: Option<Preference>)
      requires At(cluster, id, todo, Starting) && Extends(cluster.run, since)
      modifies cluster
      ensures At(cluster, id, todo, AfterPreference(cluster.s.clock, preference)) && Extends(cluster.run, since)
      ensures cluster.Done(id) == old(cluster.Done(id))
    {
      cluster.Await(id, since);
      var read: bool := *;
      preference := if read then Some(PreferenceOf(cluster.s, todo[0].event)) else None;
      cluster.Take(ReadPreference(id, read), since);
    }

    /** One dispatch of the first copy: preference, notification, mail. */
    method DispatchNotificationEvent(todo: seq<Copy>, ghost since: Run) returns (ok: bool)
      requires At(cluster, id, todo, Starting) && Extends(cluster.run, since)
      modifies cluster
      ensures At(cluster, id, todo, if ok then Publishing else Failing(cluster.s.clock))
      ensures Extends(cluster.run, since)
      ensures cluster.Done(id) == old(cluster.Done(id))
    {
      var preference := ReadPreferenceForType(todo, since);
      if preference.None? {
        return false;
      }
      ok := true;
      if preference.value.inApp {
        ok := CreateInAppNotification(todo, preference.value.email, since);
        if !ok {
          return;
        }
      }
      if preference.value.email {
        ok := SendNotificationEmail(todo, preference.value.inApp, since);
      }
    }

    /** The catch block: dead-letter or retry by the attempts of the copy in hand. */
    method SettleFailure(todo: seq<Copy>, ghost since: Run) returns (closed: bool)
      requires At(cluster, id, todo, Failing(cluster.s.clock)) && Extends(cluster.run, since)
      modifies cluster
      ensures cluster.Valid() && Extends(cluster.run, since)
      ensures cluster.Done(id) == old(cluster.Done(id)) + (if closed then [Closed(todo[0].event.id)] else [])
      ensures ActivityOf(cluster.s, id) == if closed && |todo| > 1 then Busy(todo[1..], Starting) else Idle
    {
      var config := cluster.config;
      var event, attempts := todo[0].event, todo[0].attempts;
      if attempts >= config.maxAttempts {
        closed := cluster.MoveToDeadLetter(event.id, id, "error", since);
      } else {
        var exponent := if attempts == 0 then 0 else attempts - 1;
        var backoff := Min(config.retryMaxDelayMs, config.retryBaseDelayMs * Pow2(exponent));
        var availableAt := (ClockMs(cluster.s.clock) + backoff) * MICROS_PER_MS;
        closed := cluster.ReleaseForRetry(event.id, id, availableAt, "error", since);
      }
    }

    /** One turn of the batch loop. `closed` is false when settling a failed copy threw. */
    method ProcessCopy(todo: seq<Copy>, ghost since: Run) returns (closed: bool)
      requires At(cluster, id, todo, Starting) && Extends(cluster.run, since)
      modifies cluster
      ensures cluster.Valid() && Extends(cluster.run, since)
      ensures cluster.Done(id) == old(cluster.Done(id)) + (if closed then [Closed(todo[0].event.id)] else [])
      ensures ActivityOf(cluster.s, id) == if closed && |todo| > 1 then Busy(todo[1..], Starting) else Idle
    {
      var ok := DispatchNotificationEvent(todo, since);
      if ok {
        ok := cluster.MarkPublished(todo[0].event.id, id, since);
        if ok {
          return true;
        }
      }
      closed := SettleFailure(todo, since);
    }

    /** While this worker awaits, its owner may stop and start it; a poll meanwhile finds it running and leaves. */
    method StoppedAndStarted()
      requires running
      modifies this`started, this`stopped
      ensures (started == old(started) && stopped == old(stopped)) || started == !stopped
    {
      var calls: nat := *;
      while calls > 0
        invariant (started == old(started) && stopped == old(stopped)) || started == !stopped
      {
        stopped := *;
        started := !stopped;
        calls := calls - 1;
      }
    }

    // The worker has closed the first `settled` of these copies and is about to start on the next.
    ghost predicate Left(events: seq<Copy>, settled: nat)
      reads this, cluster
    {
      && settled <= |events| && cluster.Valid()
      && ActivityOf(cluster.s, id) == if settled < |events| then Busy(events[settled..], Starting) else Idle
    }

    method ProcessNext(events: seq<Copy>, settled: nat, ghost since: Run) returns (closed: bool)
      requires running && settled < |events| && Left(events, settled) && Extends(cluster.run, since)
      modifies this`started, this`stopped, cluster
      ensures cluster.Valid() && Extends(cluster.run, since)
      ensures if closed then Left(events, settled + 1) else ActivityOf(cluster.s, id).Idle?
      ensures cluster.Done(id) == old(cluster.Done(id)) + (if closed then [Closed(events[settled].event.id)] else [])
      ensures (started == old(started) && stopped == old(stopped)) || started == !stopped
    {
      closed := ProcessCopy(events[settled..], since);
      StoppedAndStarted();
      assert events[settled..][1..] == events[settled + 1..];
    }

    /** The batch loop: copies closed in turn, until settling one throws. */
    method ProcessAll(events: seq<Copy>, ghost since: Run) returns (settled: nat)
      requires running && Left(events, 0) && Extends(cluster.run, since)
      modifies this`started, this`stopped, cluster
      ensures settled <= |events|
      ensures cluster.Valid() && Extends(cluster.run, since) && ActivityOf(cluster.s, id).Idle?
      ensures cluster.Done(id) == old(cluster.Done(id)) + Closings(events[..settled])
      ensures (started == old(started) && stopped == old(stopped)) || started == !stopped
    {
      ghost var before := cluster.Done(id);
      settled := 0;
      while settled < |events|
        invariant (started == old(started) && stopped == old(stopped)) || started == !stopped
        invariant Left(events, settled) && Extends(cluster.run, since)
        invariant cluster.Done(id) == before + Closings(events[..settled])
      {
        var closed := ProcessNext(events, settled, since);
        if !closed {
          return;
        }
        ClosingsGrow(before, events, settled);
        settled := settled + 1;
      }
    }

    /** A poll of a running worker, after the statistics: the claim, then the loop. */
    method ClaimAndProcess(ghost since: Run) returns (outcome: Outcome)
      requires running && cluster.Valid() && ActivityOf(cluster.s, id).Idle? && Extends(cluster.run, since)
      modifies this`started, this`stopped, this`lastSuccessfulPollAt, cluster
      ensures !outcome.Skipped? && (outcome.Aborted? ==> outcome.settled < |outcome.batch|)
      ensures cluster.Valid() && Extends(cluster.run, since) && ActivityOf(cluster.s, id).Idle?
      ensures cluster.Done(id) == old(cluster.Done(id)) + BatchDeeds(outcome)
      ensures (started == old(started) && stopped == old(stopped)) || started == !stopped
      ensures outcome.Completed? || outcome.Aborted? ==>
        |outcome.batch| <= cluster.config.batchSize && lastSuccessfulPollAt.Some?
        && lastSuccessfulPollAt.value >= ClockMs(old(cluster.s.clock))
      ensures outcome.ClaimFailed? ==> lastSuccessfulPollAt == old(lastSuccessfulPollAt)
    {
      ghost var before := cluster.Done(id);
      var claimed := cluster.Claim(id, since);
      StoppedAndStarted();
      if claimed.None? {
        return ClaimFailed;
      }
      var events := claimed.value;
      lastSuccessfulPollAt := Some(ClockMs(cluster.s.clock));
      assert events[0..] == events;
      var settled := ProcessAll(events, since);
      BatchDone(before, events, settled);
      outcome := BatchEnd(events, settled);
    }

    /** Claims one batch and closes its copies in turn, unless the worker is stopped or busy; a stop meanwhile
        does not cut the batch short. */
    method ProcessBatch() returns (outcome: Outcome)
      requires Valid()
      modifies this, cluster
      ensures Valid() && Extends(cluster.run, old(cluster.run))
      ensures outcome.Skipped? <==> old(stopped || running)
      ensures outcome.Skipped? ==> unchanged(this) && unchanged(cluster)
      ensures !outcome.Skipped? ==> !running
      ensures (started == old(started) && stopped == old(stopped)) || started == !stopped
      ensures !outcome.Skipped? ==>
        nextStatsAt == if ClockMs(old(cluster.s.clock)) >= old(nextStatsAt)
                       then ClockMs(old(cluster.s.clock)) + 15_000 else old(nextStatsAt)
      ensures cluster.Done(id) == old(cluster.Done(id)) + BatchDeeds(outcome)
      ensures outcome.Aborted? ==> outcome.settled < |outcome.batch|
      ensures outcome.Completed? || outcome.Aborted? ==>
        |outcome.batch| <= cluster.config.batchSize && lastSuccessfulPollAt.Some?
        && lastSuccessfulPollAt.value >= ClockMs(old(cluster.s.clock))
      ensures outcome.ClaimFailed? ==> lastSuccessfulPollAt == old(lastSuccessfulPollAt)
    {
      ghost var since := cluster.run;
      if stopped || running {
        return Skipped;
      }
      running := true;
      if ClockMs(cluster.s.clock) >= nextStatsAt {
        nextStatsAt := ClockMs(cluster.s.clock) + STATS_INTERVAL_MS;
        cluster.Await(id, since);  // getStats only reads, and its errors are swallowed
        StoppedAndStarted();
      }
      outcome := ClaimAndProcess(since);
      running := false;
    }

    /** Starts the worker; `outcome` is how the poll it sets off ends. */
    method Start() returns (outcome: Outcome)
      requires Valid()
      modifies this, cluster
      ensures Valid() && Extends(cluster.run, old(cluster.run))
      ensures started == !stopped && (outcome.Skipped? ==> started)
      ensures outcome.Skipped? <==> old(running)
      ensures cluster.Done(id) == old(cluster.Done(id)) + BatchDeeds(outcome)
    {
      stopped := false;
      started := true;
      outcome := ProcessBatch();
    }

    method Stop()
      modifies this`stopped, this`started
      ensures stopped && !started
    {
      stopped := true;
      started := false;
    }
  }
}
