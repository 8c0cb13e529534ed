/**
 Fencing: what ties the attempts a worker carries to the attempts of the row, whoever else has
 claimed the row since, and what follows for pending and dead-lettered rows.
 */
module OutboxFencing {
  import opened Wrappers
  import opened OutboxRepository
  import opened OutboxProtocol

  ghost predicate GoodTodo(t: Table, todo: seq<Copy>) {
    && todo != []
    && (forall i, j | 0 <= i < j < |todo| :: todo[i].event.id != todo[j].event.id)
    && (forall i | 0 <= i < |todo| ::
          todo[i].event.id in t && t[todo[i].event.id].event == todo[i].event && todo[i].attempts >= 1)
  }

  // A row this worker still holds has the attempts of the copy this worker carries.
  ghost predicate Agrees(t: Table, w: WorkerId, todo: seq<Copy>) {
    forall i | 0 <= i < |todo| && Holds(t, todo[i].event.id, w) ::
      t[todo[i].event.id].attempts == todo[i].attempts
  }

  ghost predicate WithinBudget(c: Config, r: Row) {
    && (r.status.Pending? ==> r.attempts < c.maxAttempts)
    && (r.status.DeadLetter? ==> r.attempts >= c.maxAttempts)
  }

  ghost predicate Fencing(c: Config, s: State) {
    && Keyed(s.rows)
    && (forall w | w in s.workers && s.workers[w].Busy? ::
          GoodTodo(s.rows, s.workers[w].todo) && Agrees(s.rows, w, s.workers[w].todo))
    && (forall id | id in s.rows :: WithinBudget(c, s.rows[id]))
  }

  // Steps that leave the rows alone, and every worker with the copies it had or with none.
  predicate IsQuiet(step: Step) {
    !(step.Enqueue? || step.Replay? || step.Claim? || step.Publish? || step.Settle?)
  }

  // Steps between the claim of a copy and its publish or failure.
  predicate IsDispatching(step: Step) {
    step.ReadPreference? || step.InsertNote? || step.SelectNote? || step.Emit? || step.SendMail?
  }

  /** Producers, operators, users and crashes act at any moment; an idle worker may claim whatever is claimable. */
  lemma AnyoneMayAct(c: Config, s: State, w: WorkerId, e: Event, id: EventId, copies: seq<Copy>, reply: Reply)
    ensures Enabled(c, s, Enqueue(e)) && Enabled(c, s, Replay(id)) && Enabled(c, s, Crash(w))
    ensures forall user, kind, p :: Enabled(c, s, SetPreference(user, kind, p))
    ensures forall n, user :: Enabled(c, s, DeleteNote(n, user))
    ensures && ActivityOf(s, w).Idle? && AreCopies(s.rows, copies) && |copies| <= c.batchSize
            && (forall i | 0 <= i < |copies| :: Claimable(s.rows[copies[i].event.id], s.clock, c.leaseMs)) ==>
              Enabled(c, s, Claim(w, s.clock, copies, reply))
  {
  }

  // The end of a copy: the publish statement or the catch block.
  predicate IsClosing(step: Step) {
    step.Publish? || step.Settle?
  }

  lemma DispatchingWorks(c: Config, s: State, step: Step)
    requires Enabled(c, s, step) && IsDispatching(step)
    ensures Works(s, Apply(c, s, step), step.w)
  {
  }

  lemma ClosingCloses(c: Config, s: State, step: Step)
    requires Enabled(c, s, step) && IsClosing(step)
    ensures Closes(s, Apply(c, s, step), step.w)
  {
  }

  // A worker moves only by its own steps, and the clock does not go back.
  lemma Bystander(c: Config, s: State, step: Step, w: WorkerId)
    requires Enabled(c, s, step) && Actor(step) != Some(w)
    ensures ActivityOf(Apply(c, s, step), w) == ActivityOf(s, w) && Apply(c, s, step).clock >= s.clock
  {
    if IsDispatching(step) {
      DispatchingWorks(c, s, step);
    } else if IsClosing(step) {
      ClosingCloses(c, s, step);
    }
  }

  lemma ClockAdvances(c: Config, s: State, step: Step)
    requires Enabled(c, s, step)
    ensures Apply(c, s, step).clock >= s.clock
  {
    if IsDispatching(step) {
      DispatchingWorks(c, s, step);
    } else if IsClosing(step) {
      ClosingCloses(c, s, step);
    }
  }

  ghost predicate SameTodo(s: State, s': State) {
    forall w | w in s'.workers && s'.workers[w].Busy? ::
      && w in s.workers && s.workers[w].Busy? && s.workers[w].todo == s'.workers[w].todo
      && (s'.workers[w] == s.workers[w]
          || (s'.workers[w].phase.Failing? ==> s'.workers[w].phase.failedAt == s.clock))
  }

  lemma QuietStep(c: Config, s: State, step: Step)
    requires Enabled(c, s, step) && IsQuiet(step)
    ensures Apply(c, s, step).rows == s.rows && SameTodo(s, Apply(c, s, step))
  {
  }

  // One row changed; nobody but `w` holds it afterwards if `w` held it before.
  lemma FencingOneRow(c: Config, s: State, id: EventId, r: Row)
    requires Fencing(c, s) && r.event.id == id && (id in s.rows ==> r.event == s.rows[id].event)
    requires !r.status.Processing? && WithinBudget(c, r)
    ensures Fencing(c, s.(rows := s.rows[id := r]))
  {
    var t := s.rows[id := r];
    forall w | w in s.workers && s.workers[w].Busy?
      ensures GoodTodo(t, s.workers[w].todo) && Agrees(t, w, s.workers[w].todo)
    {
    }
  }

  lemma FencingClaim(c: Config, s: State, step: Step)
    requires Fencing(c, s) && Enabled(c, s, step) && step.Claim?
    ensures Fencing(c, Apply(c, s, step))
  {
    var s' := Apply(c, s, step);
    if !step.reply.Refused? {
      ClaimedWithinBudget(c, s, step);
      forall w | w in s'.workers && s'.workers[w].Busy?
        ensures GoodTodo(s'.rows, s'.workers[w].todo) && Agrees(s'.rows, w, s'.workers[w].todo)
      {
        FencingClaimedCopies(s, step, w, s'.workers[w].todo);
      }
    }
  }

  lemma ClaimedWithinBudget(c: Config, s: State, step: Step)
    requires step.Claim? && Keyed(s.rows) && forall id | id in s.rows :: WithinBudget(c, s.rows[id])
    ensures var t := Claimed(s.rows, Ids(step.copies), step.w, step.now);
            Keyed(t) && forall id | id in t :: WithinBudget(c, t[id])
  {
  }

  lemma FencingClaimedCopies(s: State, step: Step, w: WorkerId, todo: seq<Copy>)
    requires step.Claim? && AreCopies(s.rows, step.copies)
    requires w == step.w ==> todo == step.copies != []
    requires w != step.w ==> GoodTodo(s.rows, todo) && Agrees(s.rows, w, todo)
    ensures var t := Claimed(s.rows, Ids(step.copies), step.w, step.now);
            GoodTodo(t, todo) && Agrees(t, w, todo)
  {
    var t := Claimed(s.rows, Ids(step.copies), step.w, step.now);
    forall i | 0 <= i < |todo|
      ensures todo[i].event.id in t && t[todo[i].event.id].event == todo[i].event && todo[i].attempts >= 1
      ensures Holds(t, todo[i].event.id, w) ==> t[todo[i].event.id].attempts == todo[i].attempts
    {
      if w == step.w {
        assert todo[i].event.id in Ids(step.copies);
      }
    }
  }

  lemma FencingFewerCopies(c: Config, s: State, w: WorkerId, activity: Activity)
    requires Fencing(c, s) && In(s, w)
    requires activity.Idle? || activity.todo == s.workers[w].todo
             || (|s.workers[w].todo| > 1 && activity.todo == s.workers[w].todo[1..])
    ensures Fencing(c, s.(workers := s.workers[w := activity]))
  {
  }

  lemma FencingPublish(c: Config, s: State, step: Step)
    requires Fencing(c, s) && Enabled(c, s, step) && step.Publish?
    ensures Fencing(c, Apply(c, s, step))
  {
    var id := Head(s, step.w).event.id;
    var mid := s;
    if !step.reply.Refused? && Holds(s.rows, id, step.w) {
      var r := PublishRow(s.rows[id], s.clock);
      FencingOneRow(c, s, id, r);
      mid := Log(s.(rows := s.rows[id := r]), Finished(id));
    }
    FencingFewerCopies(c, mid, step.w, Apply(c, s, step).workers[step.w]);
  }

  lemma FencingSettle(c: Config, s: State, step: Step)
    requires Fencing(c, s) && Enabled(c, s, step) && step.Settle?
    ensures Fencing(c, Apply(c, s, step))
  {
    var copy := Head(s, step.w);
    var id := copy.event.id;
    var mid := s;
    if !step.reply.Refused? && Holds(s.rows, id, step.w) {
      assert s.rows[id].attempts == s.workers[step.w].todo[0].attempts;
      var r := if copy.attempts >= c.maxAttempts then BuryRow(s.rows[id], s.clock, step.error)
               else ReleaseRow(s.rows[id], RetryAt(c, PhaseOf(s, step.w).failedAt, copy.attempts), step.error);
      FencingOneRow(c, s, id, r);
      mid := Log(s.(rows := s.rows[id := r]), if copy.attempts >= c.maxAttempts then Buried(id) else Retried(id));
    }
    FencingFewerCopies(c, mid, step.w, Apply(c, s, step).workers[step.w]);
  }

  lemma {:induction false} FencingStep(c: Config, s: State, step: Step)
    requires c.maxAttempts >= 1 && Fencing(c, s) && Enabled(c, s, step)
    ensures Fencing(c, Apply(c, s, step))
  {
    match step
    case Claim(_, _, _, _) => FencingClaim(c, s, step);
    case Publish(_, _) => FencingPublish(c, s, step);
    case Settle(_, _, _) => FencingSettle(c, s, step);
    case Enqueue(e) => if e.id !in s.rows { FencingOneRow(c, s, e.id, NewRow(e, s.clock)); }
    case Replay(id) => if CanReplay(s.rows, id) { FencingOneRow(c, s, id, ReplayRow(s.rows[id], s.clock)); }
    case _ => QuietStep(c, s, step);
  }

  /** In every reachable state: the fence holds, and retry and dead-letter decisions were sound. */
  lemma {:induction false} AlwaysFenced(c: Config, run: Run)
    requires c.maxAttempts >= 1 && Legal(c, run)
    ensures Fencing(c, End(c, run))
    decreases run
  {
    if run.After? {
      AlwaysFenced(c, run.before);
      FencingStep(c, End(c, run.before), run.step);
    }
  }
}
