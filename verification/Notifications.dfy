/**
 The `notifications` table and the statements the repository runs on it.
 A position, (created_at, id), is what the feed is sorted by and what a cursor carries.
 Titles, messages and metadata play no part in any decision and are not modelled.
 */
module Notifications {
  import opened Wrappers

  type NoteId = nat

  // A UTC timestamp by its calendar fields, at the database's microsecond precision.
  datatype Timestamp = Timestamp(
    year: nat, month: nat, day: nat, hour: nat, minute: nat, second: nat, micro: nat)

  predicate IsLeap(year: nat) {
    year % 4 == 0 && (year % 100 != 0 || year % 400 == 0)
  }

  function DaysIn(year: nat, month: nat): nat {
    if month == 2 then (if IsLeap(year) then 29 else 28)
    else if month in {4, 6, 9, 11} then 30 else 31
  }

  // A moment of a year written with four digits.
  predicate IsMoment(t: Timestamp) {
    && t.year < 10000 && 1 <= t.month <= 12 && 1 <= t.day <= DaysIn(t.year, t.month)
    && t.hour < 24 && t.minute < 60 && t.second < 60 && t.micro < 1000000
  }

  datatype Note = Note(
    eventId: nat, recipientId: nat, createdAt: Timestamp, isRead: bool, readAt: Option<int>)

  type Notes = map<NoteId, Note>

  // The unique key on event_id.
  ghost predicate UniqueEvents(t: Notes) {
    forall m, n | m in t && n in t && t[m].eventId == t[n].eventId :: m == n
  }

  predicate HasNoteFor(t: Notes, eventId: nat) {
    exists n | n in t :: t[n].eventId == eventId
  }

  // INSERT ... ON CONFLICT (event_id) DO NOTHING
  function InsertIfAbsent(t: Notes, id: NoteId, note: Note): Notes {
    if HasNoteFor(t, note.eventId) then t else t[id := note]
  }

  function ReadOne(t: Notes, id: NoteId, recipientId: nat, now: int): Notes {
    if id in t && t[id].recipientId == recipientId then
      t[id := t[id].(isRead := true, readAt := if t[id].readAt.Some? then t[id].readAt else Some(now))]
    else t
  }

  function ReadAll(t: Notes, recipientId: nat, now: int): Notes {
    map id | id in t :: if t[id].recipientId == recipientId && !t[id].isRead
                        then t[id].(isRead := true, readAt := Some(now)) else t[id]
  }

  predicate Owns(t: Notes, id: NoteId, recipientId: nat) {
    id in t && t[id].recipientId == recipientId
  }

  function Deleted(t: Notes, id: NoteId, recipientId: nat): Notes {
    if Owns(t, id, recipientId) then t - {id} else t
  }
}
