/**
 Who is notified, and how: what a recipient has set, read off the steps taken, decides what a
 published event did; a recipient who has set nothing gets a notification and no mail.
 */
module OutboxRecipients {
  import opened Wrappers
  import opened OutboxRepository
  import opened Notifications
  import opened OutboxProtocol
  import opened OutboxFencing
  import opened OutboxLedger
  import opened OutboxDelivery

  // What the recipient has set for this type: the row at the start, or the latest step since.
  ghost function Setting(c: Config, run: Run, user: nat, eventType: string): Option<Preference>
    requires Legal(c, run)
  {
    match run
    case Begin(s) => if (user, eventType) in s.prefs then Some(s.prefs[(user, eventType)]) else None
    case After(before, step) =>
      if step.SetPreference? && step.user == user && step.eventType == eventType then Some(step.preference)
      else Setting(c, before, user, eventType)
  }

  lemma OnlySettingSets(c: Config, s: State, step: Step)
    requires Enabled(c, s, step) && !step.SetPreference?
    ensures Apply(c, s, step).prefs == s.prefs
  {
    if IsDispatching(step) {
      DispatchingWorks(c, s, step);
    } else if IsClosing(step) {
      ClosingCloses(c, s, step);
    }
  }

  lemma {:induction false} SettingIsTheRow(c: Config, run: Run, user: nat, eventType: string)
    requires Legal(c, run)
    ensures Setting(c, run, user, eventType)
            == if (user, eventType) in End(c, run).prefs then Some(End(c, run).prefs[(user, eventType)]) else None
    decreases run
  {
    if run.After? {
      SettingIsTheRow(c, run.before, user, eventType);
      if !run.step.SetPreference? {
        OnlySettingSets(c, End(c, run.before), run.step);
      }
    }
  }

  function AskedFor(setting: Option<Preference>): Preference {
    if setting.Some? then setting.value else Preference(true, false)
  }

  lemma SettingDecides(c: Config, run: Run, e: Event)
    requires Legal(c, run)
    ensures PreferenceOf(End(c, run), e) == AskedFor(Setting(c, run, e.targetUserId, e.eventType))
  {
    SettingIsTheRow(c, run, e.targetUserId, e.eventType);
  }

  // Unchanged from the enqueue of the event until its row was published.
  ghost predicate SetUntilPublished(c: Config, run: Run, e: Event, setting: Option<Preference>)
    requires Legal(c, run)
  {
    && (e.id in End(c, run).rows && !End(c, run).rows[e.id].status.Published? ==>
          Setting(c, run, e.targetUserId, e.eventType) == setting)
    && (run.After? ==> SetUntilPublished(c, run.before, e, setting))
  }

  // Unchanged ever since the enqueue.
  ghost predicate SetSinceEnqueued(c: Config, run: Run, e: Event, setting: Option<Preference>)
    requires Legal(c, run)
  {
    && (e.id in End(c, run).rows ==> Setting(c, run, e.targetUserId, e.eventType) == setting)
    && (run.After? ==> SetSinceEnqueued(c, run.before, e, setting))
  }

  lemma {:induction false} SetIsFixed(c: Config, run: Run, e: Event, setting: Option<Preference>)
    requires Legal(c, run)
    ensures SetUntilPublished(c, run, e, setting) ==> FixedUntilPublished(c, run, e, AskedFor(setting))
    ensures SetSinceEnqueued(c, run, e, setting) ==> PreferenceFixed(c, run, e, AskedFor(setting))
    decreases run
  {
    SettingDecides(c, run, e);
    if run.After? {
      SetIsFixed(c, run.before, e, setting);
    }
  }

  /** The setting in force from enqueue to publish was carried out; without one, a notification and an emit. */
  lemma {:induction false} PublishedAsSet(c: Config, run: Run, id: EventId, setting: Option<Preference>)
    requires c.maxAttempts >= 1 && Legal(c, run) && id in End(c, run).rows
    requires End(c, run).rows[id].status.Published? && SetUntilPublished(c, run, End(c, run).rows[id].event, setting)
    ensures var h := End(c, run).history;
            && (setting.None? || setting.value.inApp ==>
                  Occurrences(h, Notified(id)) > 0 && Occurrences(h, Emitted(id)) > 0)
            && (setting.Some? && setting.value.email ==> Occurrences(h, Mailed(id)) > 0)
  {
    SetIsFixed(c, run, End(c, run).rows[id].event, setting);
    PublishedMeansDelivered(c, run, id, AskedFor(setting));
  }

  /** And nothing else was: without a setting since the enqueue no mail, with one nothing it turns off. */
  lemma {:induction false} NothingUnset(c: Config, run: Run, id: EventId, setting: Option<Preference>)
    requires c.maxAttempts >= 1 && Legal(c, run) && id in End(c, run).rows
    requires SetSinceEnqueued(c, run, End(c, run).rows[id].event, setting)
    ensures var h := End(c, run).history;
            && (setting.None? || !setting.value.email ==> Occurrences(h, Mailed(id)) == 0)
            && (setting.Some? && !setting.value.inApp ==>
                  Occurrences(h, Notified(id)) == 0 && Occurrences(h, Emitted(id)) == 0)
  {
    SetIsFixed(c, run, End(c, run).rows[id].event, setting);
    var p := AskedFor(setting);
    if !p.inApp {
      DisabledMeansNoNotification(c, run, id, p);
    }
    if !p.email {
      DisabledMeansNoMail(c, run, id, p);
    }
  }

  lemma {:induction false} NeverSet(c: Config, run: Run, e: Event)
    requires Legal(c, run) && Setting(c, run, e.targetUserId, e.eventType).None?
    ensures SetSinceEnqueued(c, run, e, None) && SetUntilPublished(c, run, e, None)
    decreases run
  {
    if run.After? {
      NeverSet(c, run.before, e);
    }
  }

  /** A recipient who has set nothing, not before the run and not in it: a notification and an emit, and no mail. */
  lemma {:induction false} UnsetMeansInAppOnly(c: Config, run: Run, id: EventId)
    requires c.maxAttempts >= 1 && Legal(c, run) && id in End(c, run).rows
    requires Setting(c, run, End(c, run).rows[id].event.targetUserId, End(c, run).rows[id].event.eventType).None?
    ensures var h := End(c, run).history;
            && (End(c, run).rows[id].status.Published? ==>
                  Occurrences(h, Notified(id)) > 0 && Occurrences(h, Emitted(id)) > 0)
            && Occurrences(h, Mailed(id)) == 0
  {
    NeverSet(c, run, End(c, run).rows[id].event);
    NothingUnset(c, run, id, None);
    if End(c, run).rows[id].status.Published? {
      PublishedAsSet(c, run, id, None);
    }
  }

  // ---------------------------------------------------------- whose notification

  ghost predicate Addressed(s: State) {
    forall n | n in s.notes ::
      s.notes[n].eventId in s.rows && s.notes[n].recipientId == s.rows[s.notes[n].eventId].event.targetUserId
  }

  lemma AddressedStep(c: Config, s: State, step: Step)
    requires Fencing(c, s) && Addressed(s) && Enabled(c, s, step)
    ensures Addressed(Apply(c, s, step))
  {
    var s' := Apply(c, s, step);
    if step.InsertNote? {
      InsertStores(c, s, step);
      DispatchingWorks(c, s, step);
      assert GoodTodo(s.rows, s.workers[step.w].todo);
    } else if step.DeleteNote? {
      assert forall n | n in s'.notes :: n in s.notes && s'.notes[n] == s.notes[n];
    } else {
      OtherStepsKeepNotes(c, s, step, 0);
    }
    forall n | n in s'.notes && n in s.notes && s'.notes[n] == s.notes[n]
      ensures s'.notes[n].eventId in s'.rows
      ensures s'.notes[n].recipientId == s'.rows[s'.notes[n].eventId].event.targetUserId
    {
      RowsStay(c, s, step, s.notes[n].eventId);
    }
  }

  lemma {:induction false} KeepsAddressed(c: Config, run: Run)
    requires c.maxAttempts >= 1 && Legal(c, run)
    ensures Addressed(End(c, run))
    decreases run
  {
    if run.After? {
      KeepsAddressed(c, run.before);
      AlwaysFenced(c, run.before);
      AddressedStep(c, End(c, run.before), run.step);
    }
  }

  /** Every notification is of an event of the outbox and belongs to the user that event targets. */
  lemma {:induction false} AlwaysAddressed(c: Config, run: Run, n: NoteId)
    requires c.maxAttempts >= 1 && Legal(c, run) && n in End(c, run).notes
    ensures var rows, note := End(c, run).rows, End(c, run).notes[n];
            note.eventId in rows && note.recipientId == rows[note.eventId].event.targetUserId
  {
    KeepsAddressed(c, run);
  }
}
