/**
 End to end: what the history must contain before a row may be published, and how many
 notifications an event can have however often it is dispatched.
 */
module OutboxDelivery {
  import opened Wrappers
  import opened OutboxRepository
  import opened Notifications
  import opened OutboxProtocol
  import opened OutboxFencing
  import opened OutboxLedger

  function Occurrences(h: History, e: Entry): nat {
    if h.Nothing? then 0 else Occurrences(h.past, e) + if h.entry == e then 1 else 0
  }

  // Some dispatch of this event ran to completion.
  predicate WasDispatched(h: History, id: EventId) {
    h.Then? && (WasDispatched(h.past, id) || (h.entry.Dispatched? && h.entry.id == id))
  }

  // Effects come first: a completed dispatch after the insert, emit and accepted mail it asked for,
  // a publish after a completed dispatch.
  predicate Causal(h: History) {
    h.Nothing?
    || (&& Causal(h.past)
        && (h.entry.Dispatched? && h.entry.inApp ==>
              Occurrences(h.past, Notified(h.entry.id)) > 0 && Occurrences(h.past, Emitted(h.entry.id)) > 0)
        && (h.entry.Dispatched? && h.entry.email ==> Occurrences(h.past, Mailed(h.entry.id)) > 0)
        && (h.entry.Finished? ==> WasDispatched(h.past, h.entry.id)))
  }

  // --------------------------------------------- one notification per event

  ghost predicate NotesConserved(s: State) {
    && UniqueEvents(s.notes)
    && (forall n | n in s.notes :: n < s.nextNote)
    && (forall id: EventId :: Occurrences(s.history, Notified(id))
          == Occurrences(s.history, Unnotified(id)) + (if HasNoteFor(s.notes, id) then 1 else 0))
  }

  predicate ChangesNotes(step: Step) {
    step.InsertNote? || step.DeleteNote?
  }

  // The other steps neither change notes nor log that one changed.
  ghost predicate KeepsNotes(s: State, s': State, id: EventId) {
    && s'.notes == s.notes && s'.nextNote == s.nextNote
    && Occurrences(s'.history, Notified(id)) == Occurrences(s.history, Notified(id))
    && Occurrences(s'.history, Unnotified(id)) == Occurrences(s.history, Unnotified(id))
  }

  lemma PreferenceKeepsNotes(s: State, w: WorkerId, ok: bool, id: EventId)
    requires In(s, w)
    ensures KeepsNotes(s, ApplyPreference(s, w, ok), id)
  {
  }

  lemma SelectKeepsNotes(s: State, w: WorkerId, ok: bool, retryable: bool, id: EventId)
    requires In(s, w) && PhaseOf(s, w).Reselecting?
    ensures KeepsNotes(s, ApplySelect(s, w, ok, retryable), id)
  {
  }

  lemma EmitKeepsNotes(s: State, w: WorkerId, ok: bool, id: EventId)
    requires In(s, w) && PhaseOf(s, w).Emitting?
    ensures KeepsNotes(s, ApplyEmit(s, w, ok), id)
  {
  }

  lemma MailKeepsNotes(s: State, w: WorkerId, ok: bool, id: EventId)
    requires In(s, w) && PhaseOf(s, w).Mailing?
    ensures KeepsNotes(s, ApplyMail(s, w, ok), id)
  {
  }

  lemma QuietStepsKeepNotes(c: Config, s: State, step: Step, id: EventId)
    requires Enabled(c, s, step) && !ChangesNotes(step) && IsQuiet(step)
    ensures KeepsNotes(s, Apply(c, s, step), id)
  {
    match step
    case ReadPreference(w, ok) => PreferenceKeepsNotes(s, w, ok, id);
    case SelectNote(w, ok, retryable) => SelectKeepsNotes(s, w, ok, retryable, id);
    case Emit(w, ok) => EmitKeepsNotes(s, w, ok, id);
    case SendMail(w, ok) => MailKeepsNotes(s, w, ok, id);
    case _ =>
  }

  lemma ClosingKeepsNotes(c: Config, s: State, step: Step, id: EventId)
    requires Enabled(c, s, step) && IsClosing(step)
    ensures KeepsNotes(s, Apply(c, s, step), id)
  {
    ClosingCloses(c, s, step);
  }

  lemma OtherStepsKeepNotes(c: Config, s: State, step: Step, id: EventId)
    requires Enabled(c, s, step) && !ChangesNotes(step)
    ensures KeepsNotes(s, Apply(c, s, step), id)
  {
    if IsQuiet(step) {
      QuietStepsKeepNotes(c, s, step, id);
    } else if IsClosing(step) {
      ClosingKeepsNotes(c, s, step, id);
    }
  }

  lemma InsertStores(c: Config, s: State, step: Step)
    requires Enabled(c, s, step) && step.InsertNote?
    ensures var s' := Apply(c, s, step);
            var stored := if step.reply.Refused? then s else Store(s, Head(s, step.w).event, step.createdAt);
            s'.notes == stored.notes && s'.nextNote == stored.nextNote && s'.history == stored.history
  {
  }

  lemma ConservedStep(c: Config, s: State, step: Step)
    requires NotesConserved(s) && Enabled(c, s, step)
    ensures NotesConserved(Apply(c, s, step))
  {
    if step.InsertNote? {
      InsertStores(c, s, step);
      ConservedStore(s, Head(s, step.w).event, step.createdAt);
    } else if step.DeleteNote? {
      ConservedDelete(s, step.noteId, step.recipientId);
    } else {
      forall id: EventId
        ensures Occurrences(Apply(c, s, step).history, Notified(id))
                == Occurrences(Apply(c, s, step).history, Unnotified(id))
                   + (if HasNoteFor(Apply(c, s, step).notes, id) then 1 else 0)
      {
        OtherStepsKeepNotes(c, s, step, id);
      }
      OtherStepsKeepNotes(c, s, step, 0);
    }
  }

  lemma StoredNote(t: Notes, n: NoteId, note: Note, id: EventId)
    requires n !in t
    ensures HasNoteFor(t[n := note], id) <==> (HasNoteFor(t, id) || id == note.eventId)
  {
    var t' := t[n := note];
    assert t'[n].eventId == note.eventId;
    assert forall m | m in t :: t'[m] == t[m];
  }

  lemma ConservedStore(s: State, e: Event, at: Timestamp)
    requires NotesConserved(s)
    ensures NotesConserved(Store(s, e, at))
  {
    if !HasNoteFor(s.notes, e.id) {
      var note := Note(e.id, e.targetUserId, at, false, None);
      var s' := Store(s, e, at);
      assert UniqueEvents(s'.notes);
      forall id: EventId
        ensures Occurrences(s'.history, Notified(id))
                == Occurrences(s'.history, Unnotified(id)) + (if HasNoteFor(s'.notes, id) then 1 else 0)
      {
        StoredNote(s.notes, s.nextNote, note, id);
      }
    }
  }

  lemma DeletedNote(t: Notes, n: NoteId, id: EventId)
    requires UniqueEvents(t) && n in t
    ensures HasNoteFor(t - {n}, id) <==> (HasNoteFor(t, id) && id != t[n].eventId)
  {
    assert forall m | m in t - {n} :: (t - {n})[m] == t[m] && m != n;
  }

  lemma ConservedDelete(s: State, n: NoteId, recipientId: nat)
    requires NotesConserved(s)
    ensures NotesConserved(ApplyDelete(s, n, recipientId))
  {
    if Owns(s.notes, n, recipientId) {
      var s' := ApplyDelete(s, n, recipientId);
      assert UniqueEvents(s'.notes);
      forall id: EventId
        ensures Occurrences(s'.history, Notified(id))
                == Occurrences(s'.history, Unnotified(id)) + (if HasNoteFor(s'.notes, id) then 1 else 0)
      {
        DeletedNote(s.notes, n, id);
      }
    }
  }

  lemma {:induction false} AlwaysConserved(c: Config, run: Run)
    requires Legal(c, run)
    ensures NotesConserved(End(c, run))
    decreases run
  {
    if run.After? {
      AlwaysConserved(c, run.before);
      ConservedStep(c, End(c, run.before), run.step);
    }
  }

  // --------------------------------------------------- effects before outcomes

  ghost predicate Backed(h: History, id: EventId, phase: Phase) {
    && (phase.Publishing? ==> WasDispatched(h, id))
    && (phase.Emitting? || phase == Mailing(true) ==> Occurrences(h, Notified(id)) > 0)
    && (phase == Mailing(true) ==> Occurrences(h, Emitted(id)) > 0)
  }

  ghost predicate Evidence(s: State) {
    && Causal(s.history)
    && (forall id | id in s.rows && s.rows[id].status.Published? :: WasDispatched(s.history, id))
    && (forall w: WorkerId | In(s, w) :: Backed(s.history, Head(s, w).event.id, PhaseOf(s, w)))
  }

  // A step of a dispatch: what it logs is backed, and so is the phase it leads to.
  ghost predicate StaysBacked(s: State, s': State, w: WorkerId)
    requires In(s, w) && In(s', w)
  {
    Causal(s'.history) && Backed(s'.history, Head(s, w).event.id, PhaseOf(s', w))
  }

  lemma PreferenceBacked(s: State, w: WorkerId, ok: bool)
    requires Causal(s.history) && In(s, w)
    ensures StaysBacked(s, ApplyPreference(s, w, ok), w)
  {
    var p := PreferenceOf(s, Head(s, w).event);
    if ok && !p.inApp && !p.email {
      var id := Head(s, w).event.id;
      assert Causal(Then(s.history, Dispatched(id, false, false)));
    } else {
      assert ApplyPreference(s, w, ok).history == s.history;
    }
  }

  lemma TryAgainBacked(s: State, w: WorkerId, tries: nat, email: bool, retryable: bool)
    requires Causal(s.history) && In(s, w)
    ensures StaysBacked(s, TryAgain(s, w, tries, email, retryable), w)
  {
  }

  lemma InsertBacked(s: State, w: WorkerId, at: Timestamp, reply: Reply, retryable: bool)
    requires Causal(s.history) && In(s, w) && PhaseOf(s, w).Inserting?
    ensures StaysBacked(s, ApplyInsert(s, w, at, reply, retryable), w)
  {
    var p := PhaseOf(s, w);
    var after := Store(s, Head(s, w).event, at);
    if reply.Refused? {
      TryAgainBacked(s, w, p.tries, p.email, retryable);
    } else if reply.DoneButLost? {
      TryAgainBacked(after, w, p.tries, p.email, retryable);
    }
  }

  lemma SelectBacked(s: State, w: WorkerId, ok: bool, retryable: bool)
    requires NotesConserved(s) && Causal(s.history) && In(s, w) && PhaseOf(s, w).Reselecting?
    ensures StaysBacked(s, ApplySelect(s, w, ok, retryable), w)
  {
    var p := PhaseOf(s, w);
    TryAgainBacked(s, w, p.tries, p.email, retryable);
    TryAgainBacked(s, w, p.tries, p.email, true);
  }

  lemma EmitBacked(s: State, w: WorkerId, ok: bool)
    requires Causal(s.history) && In(s, w) && PhaseOf(s, w).Emitting?
    requires Backed(s.history, Head(s, w).event.id, PhaseOf(s, w))
    ensures StaysBacked(s, ApplyEmit(s, w, ok), w)
  {
    var id := Head(s, w).event.id;
    var emitted := Then(s.history, Emitted(id));
    assert Causal(emitted) && Occurrences(emitted, Emitted(id)) > 0;
    assert Occurrences(emitted, Notified(id)) == Occurrences(s.history, Notified(id));
  }

  lemma MailBacked(s: State, w: WorkerId, ok: bool)
    requires Causal(s.history) && In(s, w) && PhaseOf(s, w).Mailing?
    requires Backed(s.history, Head(s, w).event.id, PhaseOf(s, w))
    ensures StaysBacked(s, ApplyMail(s, w, ok), w)
  {
    var id := Head(s, w).event.id;
    var mailed := Then(s.history, Mailed(id));
    assert Causal(mailed) && Occurrences(mailed, Mailed(id)) > 0;
    assert Occurrences(mailed, Notified(id)) == Occurrences(s.history, Notified(id));
    assert Occurrences(mailed, Emitted(id)) == Occurrences(s.history, Emitted(id));
    assert PhaseOf(s, w).inApp ==> PhaseOf(s, w) == Mailing(true);
  }

  lemma ClosingBacked(c: Config, s: State, step: Step)
    requires Evidence(s) && Enabled(c, s, step) && IsClosing(step)
    ensures var s' := Apply(c, s, step);
            && Closes(s, s', step.w) && Causal(s'.history)
            && (PhaseOf(s, step.w).Publishing? ==> WasDispatched(s.history, Head(s, step.w).event.id))
  {
    ClosingCloses(c, s, step);
    assert Backed(s.history, Head(s, step.w).event.id, PhaseOf(s, step.w));
  }

  lemma DispatchingBacked(c: Config, s: State, step: Step)
    requires NotesConserved(s) && Evidence(s) && Enabled(c, s, step) && IsDispatching(step)
    ensures Works(s, Apply(c, s, step), step.w) && StaysBacked(s, Apply(c, s, step), step.w)
  {
    assert Backed(s.history, Head(s, step.w).event.id, PhaseOf(s, step.w));
    match step
    case ReadPreference(w, ok) => PreferenceBacked(s, w, ok);
    case InsertNote(w, at, reply, retryable) => InsertBacked(s, w, at, reply, retryable);
    case SelectNote(w, ok, retryable) => SelectBacked(s, w, ok, retryable);
    case Emit(w, ok) => EmitBacked(s, w, ok);
    case SendMail(w, ok) => MailBacked(s, w, ok);
  }

  // The acting worker, if it is still busy afterwards.
  lemma ActorBacked(c: Config, s: State, step: Step, w: WorkerId)
    requires NotesConserved(s) && Evidence(s) && Enabled(c, s, step) && Actor(step) == Some(w)
    ensures var s' := Apply(c, s, step);
            && Causal(s'.history) && (In(s', w) ==> Backed(s'.history, Head(s', w).event.id, PhaseOf(s', w)))
  {
    if IsDispatching(step) {
      DispatchingBacked(c, s, step);
    } else if IsClosing(step) {
      ClosingBacked(c, s, step);
    }
  }

  ghost predicate Grows(h: History, h': History, id: EventId) {
    && (WasDispatched(h, id) ==> WasDispatched(h', id))
    && Occurrences(h, Notified(id)) <= Occurrences(h', Notified(id))
    && Occurrences(h, Emitted(id)) <= Occurrences(h', Emitted(id))
    && Occurrences(h, Mailed(id)) <= Occurrences(h', Mailed(id))
  }

  lemma EffectsGrow(h: History, h': History, dispatched: EventId, id: EventId)
    requires Effects(h, h', dispatched)
    ensures Grows(h, h', id)
  {
  }

  lemma ClosingGrows(c: Config, s: State, step: Step, id: EventId)
    requires Enabled(c, s, step) && IsClosing(step)
    ensures Grows(s.history, Apply(c, s, step).history, id)
  {
    ClosingCloses(c, s, step);
  }

  lemma HistoryGrows(c: Config, s: State, step: Step, id: EventId)
    requires Enabled(c, s, step)
    ensures Grows(s.history, Apply(c, s, step).history, id)
  {
    if IsDispatching(step) {
      DispatchingWorks(c, s, step);
      EffectsGrow(s.history, Apply(c, s, step).history, Head(s, step.w).event.id, id);
    } else if IsClosing(step) {
      ClosingGrows(c, s, step, id);
    }
  }

  lemma SettleDoesNotPublish(c: Config, s: State, step: Step)
    requires Enabled(c, s, step) && step.Settle?
    ensures forall id | id in Apply(c, s, step).rows && Apply(c, s, step).rows[id].status.Published? ::
              id in s.rows && s.rows[id].status.Published?
  {
    ClosingCloses(c, s, step);
  }

  // Only the publish statement makes a row published, and only the row in hand.
  lemma BecomesPublished(c: Config, s: State, step: Step, id: EventId)
    requires Enabled(c, s, step) && !step.Publish?
    requires id in Apply(c, s, step).rows && Apply(c, s, step).rows[id].status.Published?
    ensures id in s.rows && s.rows[id].status.Published?
  {
    if IsQuiet(step) {
      QuietStep(c, s, step);
    } else if step.Settle? {
      SettleDoesNotPublish(c, s, step);
    }
  }

  lemma PublishedBacked(c: Config, s: State, step: Step, id: EventId)
    requires Evidence(s) && Enabled(c, s, step)
    requires id in Apply(c, s, step).rows && Apply(c, s, step).rows[id].status.Published?
    ensures WasDispatched(s.history, id)
  {
    if step.Publish? {
      ClosingBacked(c, s, step);
    } else {
      BecomesPublished(c, s, step, id);
    }
  }

  lemma EvidenceStep(c: Config, s: State, step: Step)
    requires NotesConserved(s) && Evidence(s) && Enabled(c, s, step)
    ensures Evidence(Apply(c, s, step))
  {
    var s' := Apply(c, s, step);
    if Actor(step).Some? {
      ActorBacked(c, s, step, Actor(step).value);
    }
    forall id | id in s'.rows && s'.rows[id].status.Published? ensures WasDispatched(s'.history, id) {
      PublishedBacked(c, s, step, id);
      HistoryGrows(c, s, step, id);
    }
    forall w: WorkerId | In(s', w) ensures Backed(s'.history, Head(s', w).event.id, PhaseOf(s', w)) {
      if Actor(step) != Some(w) {
        Bystander(c, s, step, w);
        HistoryGrows(c, s, step, Head(s, w).event.id);
        assert Backed(s.history, Head(s, w).event.id, PhaseOf(s, w));
      }
    }
  }

  lemma {:induction false} AlwaysEvidence(c: Config, run: Run)
    requires Legal(c, run)
    ensures Evidence(End(c, run))
    decreases run
  {
    if run.After? {
      AlwaysEvidence(c, run.before);
      AlwaysConserved(c, run.before);
      EvidenceStep(c, End(c, run.before), run.step);
    }
  }

  // ------------------------------------------------------ a fixed preference

  // The recipient's preference has been `p` ever since the event was enqueued.
  ghost predicate PreferenceFixed(c: Config, run: Run, e: Event, p: Preference)
    requires Legal(c, run)
  {
    && (e.id in End(c, run).rows ==> PreferenceOf(End(c, run), e) == p)
    && (run.After? ==> PreferenceFixed(c, run.before, e, p))
  }

  // Every completed dispatch of the event did what `p` asks, and none had an effect it does not ask for.
  predicate Obeys(h: History, id: EventId, p: Preference) {
    h.Nothing?
    || (&& Obeys(h.past, id, p)
        && (h.entry.Dispatched? && h.entry.id == id ==> Preference(h.entry.inApp, h.entry.email) == p)
        && (h.entry == Notified(id) || h.entry == Emitted(id) ==> p.inApp)
        && (h.entry == Mailed(id) ==> p.email))
  }

  predicate Fits(phase: Phase, p: Preference) {
    match phase
    case Inserting(_, email) => p == Preference(true, email)
    case Reselecting(_, email) => p == Preference(true, email)
    case Emitting(email) => p == Preference(true, email)
    case Mailing(inApp) => p == Preference(inApp, true)
    case _ => true
  }

  ghost predicate Obedient(s: State, e: Event, p: Preference) {
    && Obeys(s.history, e.id, p)
    && forall w: WorkerId | In(s, w) && Head(s, w).event == e :: Fits(PhaseOf(s, w), p)
  }

  // A step of a dispatch, given that it started out obedient.
  ghost predicate StaysObedient(s: State, s': State, w: WorkerId, e: Event, p: Preference)
    requires In(s', w)
  {
    Obeys(s'.history, e.id, p) && (Head(s', w).event == e ==> Fits(PhaseOf(s', w), p))
  }

  ghost predicate StartsObedient(s: State, w: WorkerId, e: Event, p: Preference)
    requires In(s, w)
  {
    && PreferenceOf(s, e) == p && Obeys(s.history, e.id, p)
    && (Head(s, w).event.id == e.id ==> Head(s, w).event == e)
    && (Head(s, w).event == e ==> Fits(PhaseOf(s, w), p))
  }

  lemma PreferenceObeys(s: State, w: WorkerId, ok: bool, e: Event, p: Preference)
    requires In(s, w) && StartsObedient(s, w, e, p)
    ensures StaysObedient(s, ApplyPreference(s, w, ok), w, e, p)
  {
  }

  lemma InsertObeys(s: State, w: WorkerId, at: Timestamp, reply: Reply, retryable: bool, e: Event, p: Preference)
    requires In(s, w) && PhaseOf(s, w).Inserting? && StartsObedient(s, w, e, p)
    ensures StaysObedient(s, ApplyInsert(s, w, at, reply, retryable), w, e, p)
  {
    assert Obeys(Store(s, Head(s, w).event, at).history, e.id, p);
  }

  lemma SelectObeys(s: State, w: WorkerId, ok: bool, retryable: bool, e: Event, p: Preference)
    requires In(s, w) && PhaseOf(s, w).Reselecting? && StartsObedient(s, w, e, p)
    ensures StaysObedient(s, ApplySelect(s, w, ok, retryable), w, e, p)
  {
  }

  lemma EmitObeys(s: State, w: WorkerId, ok: bool, e: Event, p: Preference)
    requires In(s, w) && PhaseOf(s, w).Emitting? && StartsObedient(s, w, e, p)
    ensures StaysObedient(s, ApplyEmit(s, w, ok), w, e, p)
  {
    assert Obeys(Then(s.history, Emitted(Head(s, w).event.id)), e.id, p);
  }

  lemma MailObeys(s: State, w: WorkerId, ok: bool, e: Event, p: Preference)
    requires In(s, w) && PhaseOf(s, w).Mailing? && StartsObedient(s, w, e, p)
    ensures StaysObedient(s, ApplyMail(s, w, ok), w, e, p)
  {
    assert Obeys(Then(s.history, Mailed(Head(s, w).event.id)), e.id, p);
  }

  lemma DispatchingObeys(c: Config, s: State, step: Step, e: Event, p: Preference)
    requires Enabled(c, s, step) && IsDispatching(step) && StartsObedient(s, step.w, e, p)
    ensures Works(s, Apply(c, s, step), step.w) && StaysObedient(s, Apply(c, s, step), step.w, e, p)
  {
    match step
    case ReadPreference(w, ok) => PreferenceObeys(s, w, ok, e, p);
    case InsertNote(w, at, reply, retryable) => InsertObeys(s, w, at, reply, retryable, e, p);
    case SelectNote(w, ok, retryable) => SelectObeys(s, w, ok, retryable, e, p);
    case Emit(w, ok) => EmitObeys(s, w, ok, e, p);
    case SendMail(w, ok) => MailObeys(s, w, ok, e, p);
  }

  // No effect of an event that was never enqueued.
  ghost predicate Unknown(h: History, id: EventId) {
    h.Nothing? || (Unknown(h.past, id) && !IsEffect(h.entry, id))
  }

  lemma UnknownStep(c: Config, s: State, step: Step, id: EventId)
    requires Fencing(c, s) && Enabled(c, s, step) && id !in s.rows && Unknown(s.history, id)
    ensures Unknown(Apply(c, s, step).history, id)
  {
    if Actor(step).Some? && In(s, Actor(step).value) {
      var w := Actor(step).value;
      assert w in s.workers && GoodTodo(s.rows, s.workers[w].todo);
      assert Head(s, w).event.id in s.rows;
      if IsDispatching(step) {
        UnknownDispatching(c, s, step, id);
      }
    }
  }

  lemma UnknownDispatching(c: Config, s: State, step: Step, id: EventId)
    requires Enabled(c, s, step) && IsDispatching(step) && Head(s, step.w).event.id != id && Unknown(s.history, id)
    ensures Unknown(Apply(c, s, step).history, id)
  {
    DispatchingWorks(c, s, step);
    EffectsOfOthers(s.history, Apply(c, s, step).history, Head(s, step.w).event.id, id);
  }

  lemma EffectsOfOthers(h: History, h': History, dispatched: EventId, id: EventId)
    requires Effects(h, h', dispatched) && dispatched != id && Unknown(h, id)
    ensures Unknown(h', id)
  {
  }

  lemma {:induction false} AlwaysUnknown(c: Config, run: Run, id: EventId)
    requires c.maxAttempts >= 1 && Legal(c, run) && id !in End(c, run).rows
    ensures Unknown(End(c, run).history, id)
    decreases run
  {
    if run.After? {
      if id in End(c, run.before).rows {
        RowsStay(c, End(c, run.before), run.step, id);
      }
      AlwaysUnknown(c, run.before, id);
      AlwaysFenced(c, run.before);
      UnknownStep(c, End(c, run.before), run.step, id);
    }
  }

  lemma {:induction false} UnknownObeys(h: History, id: EventId, p: Preference)
    requires Unknown(h, id)
    ensures Obeys(h, id, p)
  {
    if h.Then? {
      UnknownObeys(h.past, id, p);
    }
  }

  lemma OtherStepsObey(c: Config, s: State, step: Step, e: Event, p: Preference)
    requires Enabled(c, s, step) && !IsDispatching(step) && Obeys(s.history, e.id, p)
    ensures var s' := Apply(c, s, step);
            && Obeys(s'.history, e.id, p)
            && forall w | Actor(step) == Some(w) && In(s', w) :: PhaseOf(s', w).Starting? || PhaseOf(s', w).Failing?
  {
    if IsClosing(step) {
      ClosingCloses(c, s, step);
    }
  }

  lemma ObedientStep(c: Config, s: State, step: Step, e: Event, p: Preference)
    requires Fencing(c, s) && Obedient(s, e, p) && Enabled(c, s, step)
    requires e.id in s.rows && s.rows[e.id].event == e && PreferenceOf(s, e) == p
    ensures Obedient(Apply(c, s, step), e, p)
  {
    var s' := Apply(c, s, step);
    if IsDispatching(step) {
      assert GoodTodo(s.rows, s.workers[step.w].todo);
      DispatchingObeys(c, s, step, e, p);
    } else {
      OtherStepsObey(c, s, step, e, p);
    }
    forall w: WorkerId | In(s', w) && Head(s', w).event == e ensures Fits(PhaseOf(s', w), p) {
      if Actor(step) != Some(w) {
        Bystander(c, s, step, w);
        assert In(s, w) && Head(s, w) == Head(s', w);
      }
    }
  }

  // The step that brings the row in is the enqueue of this very event, and nobody carries it yet.
  lemma EnqueuedObedient(c: Config, s: State, step: Step, e: Event, p: Preference)
    requires Fencing(c, s) && Enabled(c, s, step) && e.id !in s.rows && Obeys(s.history, e.id, p)
    requires e.id in Apply(c, s, step).rows
    ensures Obedient(Apply(c, s, step), e, p)
  {
    if IsQuiet(step) {
      QuietStep(c, s, step);
    }
    assert step.Enqueue? && step.event.id == e.id;
    var s' := Apply(c, s, step);
    forall w: WorkerId | In(s', w) ensures Head(s', w).event != e {
      assert GoodTodo(s.rows, s.workers[w].todo);
    }
  }

  lemma {:induction false} AlwaysObedient(c: Config, run: Run, e: Event, p: Preference)
    requires c.maxAttempts >= 1 && Legal(c, run) && PreferenceFixed(c, run, e, p)
    requires e.id in End(c, run).rows && End(c, run).rows[e.id].event == e
    ensures Obedient(End(c, run), e, p)
    decreases run
  {
    if run.After? {
      var s := End(c, run.before);
      AlwaysFenced(c, run.before);
      if e.id in s.rows {
        RowsStay(c, s, run.step, e.id);
        AlwaysObedient(c, run.before, e, p);
        ObedientStep(c, s, run.step, e, p);
      } else {
        AlwaysUnknown(c, run.before, e.id);
        UnknownObeys(s.history, e.id, p);
        EnqueuedObedient(c, s, run.step, e, p);
      }
    }
  }

  // ------------------------------------------------------------ main results

  lemma {:induction false} DispatchedEffects(h: History, id: EventId, p: Preference)
    requires Causal(h) && Obeys(h, id, p) && WasDispatched(h, id)
    ensures p.inApp ==> Occurrences(h, Notified(id)) > 0 && Occurrences(h, Emitted(id)) > 0
    ensures p.email ==> Occurrences(h, Mailed(id)) > 0
  {
    if WasDispatched(h.past, id) {
      DispatchedEffects(h.past, id, p);
    }
  }

  lemma {:induction false} DisabledMeansNone(h: History, id: EventId, p: Preference)
    requires Obeys(h, id, p)
    ensures !p.inApp ==> Occurrences(h, Notified(id)) == 0 && Occurrences(h, Emitted(id)) == 0
    ensures !p.email ==> Occurrences(h, Mailed(id)) == 0
  {
    if h.Then? {
      DisabledMeansNone(h.past, id, p);
    }
  }

  // The preference was `p` from the enqueue of the event until its row was published.
  ghost predicate FixedUntilPublished(c: Config, run: Run, e: Event, p: Preference)
    requires Legal(c, run)
  {
    && (e.id in End(c, run).rows && !End(c, run).rows[e.id].status.Published? ==> PreferenceOf(End(c, run), e) == p)
    && (run.After? ==> FixedUntilPublished(c, run.before, e, p))
  }

  lemma {:induction false} UnpublishedFixed(c: Config, run: Run, e: Event, p: Preference)
    requires Legal(c, run) && FixedUntilPublished(c, run, e, p)
    requires e.id in End(c, run).rows ==> !End(c, run).rows[e.id].status.Published?
    ensures PreferenceFixed(c, run, e, p)
    decreases run
  {
    if run.After? {
      if e.id in End(c, run.before).rows {
        RowsStay(c, End(c, run.before), run.step, e.id);
      }
      UnpublishedFixed(c, run.before, e, p);
    }
  }

  // The dispatch that came before the publish had the effects `p` asks for.
  ghost predicate Delivered(h: History, id: EventId, p: Preference) {
    && WasDispatched(h, id)
    && (p.inApp ==> Occurrences(h, Notified(id)) > 0 && Occurrences(h, Emitted(id)) > 0)
    && (p.email ==> Occurrences(h, Mailed(id)) > 0)
  }

  lemma JustPublished(c: Config, run: Run, step: Step, id: EventId, p: Preference)
    requires c.maxAttempts >= 1 && Legal(c, run) && Enabled(c, End(c, run), step) && id in End(c, run).rows
    requires id in Apply(c, End(c, run), step).rows && Apply(c, End(c, run), step).rows[id].status.Published?
    requires PreferenceFixed(c, run, End(c, run).rows[id].event, p)
    ensures Delivered(End(c, run).history, id, p)
  {
    AlwaysEvidence(c, run);
    AlwaysFenced(c, run);
    PublishedBacked(c, End(c, run), step, id);
    AlwaysObedient(c, run, End(c, run).rows[id].event, p);
    DispatchedEffects(End(c, run).history, id, p);
  }

  lemma {:induction false} AlwaysDelivered(c: Config, run: Run, id: EventId, p: Preference)
    requires c.maxAttempts >= 1 && Legal(c, run) && id in End(c, run).rows
    requires End(c, run).rows[id].status.Published? && FixedUntilPublished(c, run, End(c, run).rows[id].event, p)
    ensures Delivered(End(c, run).history, id, p)
    decreases run
  {
    if run.After? {
      var s := End(c, run.before);
      if id !in s.rows {
        FirstSeen(c, s, run.step, id);
      } else {
        RowsStay(c, s, run.step, id);
        if s.rows[id].status.Published? {
          AlwaysDelivered(c, run.before, id, p);
        } else {
          AlwaysFenced(c, run.before);
          UnpublishedFixed(c, run.before, s.rows[id].event, p);
          JustPublished(c, run.before, run.step, id, p);
        }
        HistoryGrows(c, s, run.step, id);
      }
    }
  }

  /** A published event had the effects its recipient asked for, whatever crashed, was taken over or changed since. */
  lemma {:induction false} PublishedMeansDelivered(c: Config, run: Run, id: EventId, p: Preference)
    requires c.maxAttempts >= 1 && Legal(c, run) && id in End(c, run).rows
    requires End(c, run).rows[id].status.Published? && FixedUntilPublished(c, run, End(c, run).rows[id].event, p)
    ensures var s := End(c, run);
            && WasDispatched(s.history, id)
            && (p.inApp ==> Occurrences(s.history, Notified(id)) > 0 && Occurrences(s.history, Emitted(id)) > 0)
            && (p.email ==> Occurrences(s.history, Mailed(id)) > 0)
            && (p.inApp && Occurrences(s.history, Unnotified(id)) == 0 ==>
                  Occurrences(s.history, Notified(id)) == 1 && HasNoteFor(s.notes, id))
  {
    AlwaysDelivered(c, run, id, p);
    AlwaysConserved(c, run);
  }

  /** In-app off, and there never was a notification or an emit: not for a published event, nor for any other. */
  lemma {:induction false} DisabledMeansNoNotification(c: Config, run: Run, id: EventId, p: Preference)
    requires c.maxAttempts >= 1 && Legal(c, run) && id in End(c, run).rows && !p.inApp
    requires PreferenceFixed(c, run, End(c, run).rows[id].event, p)
    ensures Occurrences(End(c, run).history, Notified(id)) == 0 && !HasNoteFor(End(c, run).notes, id)
    ensures Occurrences(End(c, run).history, Emitted(id)) == 0
  {
    AlwaysConserved(c, run);
    AlwaysFenced(c, run);
    AlwaysObedient(c, run, End(c, run).rows[id].event, p);
    DisabledMeansNone(End(c, run).history, id, p);
  }

  /** E-mail off, and no mail was ever accepted. */
  lemma {:induction false} DisabledMeansNoMail(c: Config, run: Run, id: EventId, p: Preference)
    requires c.maxAttempts >= 1 && Legal(c, run) && id in End(c, run).rows && !p.email
    requires PreferenceFixed(c, run, End(c, run).rows[id].event, p)
    ensures Occurrences(End(c, run).history, Mailed(id)) == 0
  {
    AlwaysFenced(c, run);
    AlwaysObedient(c, run, End(c, run).rows[id].event, p);
    DisabledMeansNone(End(c, run).history, id, p);
  }

  /** Redispatch never doubles a notification: inserts exceed deletes by the one that is there, or by none. */
  lemma {:induction false} AtMostOneNotification(c: Config, run: Run, id: EventId)
    requires Legal(c, run)
    ensures var s := End(c, run);
            && (forall m, n | m in s.notes && n in s.notes && s.notes[m].eventId == id == s.notes[n].eventId :: m == n)
            && Occurrences(s.history, Notified(id))
               == Occurrences(s.history, Unnotified(id)) + (if HasNoteFor(s.notes, id) then 1 else 0)
  {
    AlwaysConserved(c, run);
  }
}
