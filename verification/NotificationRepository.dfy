/**
 The notification repository in place: the two-statement idempotent insert, the updates, and the
 page query with cursors as the text clients send and receive.
 */
module NotificationRepository {
  import opened Wrappers
  import opened Notifications
  import opened Pagination
  import opened Cursor

  datatype Creation =
    | Inserted(id: NoteId)
    | Existing(id: NoteId)
    | ConflictGone              // the row the insert met was deleted before it could be read

  datatype CursorPage =
    | InvalidCursor
    | OutOfRange                // the database has no such integer: the query throws
    | Found(items: seq<Position>, hasMore: bool, nextCursor: Option<string>)

  // What a serial key and four-digit years allow.
  ghost predicate Storable(t: Notes) {
    forall id | id in t :: 0 < id < 0x8000_0000 && IsMoment(t[id].createdAt)
  }

  // The database reads a cursor's text as a timestamp; the microsecond form is read exactly.
  ghost predicate IsCast(cast: string -> Timestamp) {
    forall s :: IsMoment(cast(s)) && (ReadTimestamp(s).Some? ==> cast(s) == ReadTimestamp(s).value)
  }

  const MAX_INTEGER := 0x7FFF_FFFF

  // An empty text counts as no cursor.
  predicate Given(cursor: Option<string>) {
    cursor.Some? && cursor.value != ""
  }

  function CursorPosition(cursor: string, cast: string -> Timestamp): Option<Position> {
    var payload := DecodeNotificationCursor(cursor);
    if payload.Some? then Some(Position(cast(payload.value.createdAt), payload.value.id)) else None
  }

  /** What a client gets as nextCursor means, when it comes back, the last row it was shown. */
  lemma CursorMeansPosition(p: Position, cast: string -> Timestamp)
    requires IsMoment(p.createdAt) && 0 < p.id < 0x8000_0000 && IsCast(cast)
    ensures CursorPosition(EncodeNotificationCursor(p.createdAt, p.id), cast) == Some(p)
  {
    CursorRoundTrip(p.createdAt, p.id);
  }

  // A row counts as read exactly when it says since when.
  ghost predicate ReadConsistent(t: Notes) {
    forall id | id in t :: t[id].isRead <==> t[id].readAt.Some?
  }

  /** Once read, a row keeps the time it was first read at, whichever way and however often it is marked again. */
  lemma FirstReadStays(t: Notes, change: Change, id: NoteId)
    requires ReadConsistent(t) && id in t && t[id].isRead
    requires change.Create? ==> change.id !in t && !change.note.isRead && change.note.readAt.None?
    ensures ReadConsistent(Changed(t, change))
    ensures id in Changed(t, change) ==> Changed(t, change)[id] == t[id]
  {
  }

  // Several changes, latest last.
  function ChangedAll(t: Notes, changes: seq<Change>): Notes {
    if changes == [] then t else Changed(ChangedAll(t, changes[..|changes| - 1]), changes[|changes| - 1])
  }

  // No change gives an event a second notification, an id that was not drawn, or a row another time.
  lemma ChangeKeepsKeys(t: Notes, change: Change, next: NoteId)
    requires UniqueEvents(t) && forall id | id in t :: 0 < id < next && IsMoment(t[id].createdAt)
    requires change.Create? ==> change.id == next >= 1 && IsMoment(change.note.createdAt)
    ensures UniqueEvents(Changed(t, change))
    ensures forall id | id in Changed(t, change) ::
              && 0 < id < (if change.Create? then next + 1 else next)
              && IsMoment(Changed(t, change)[id].createdAt)
  {
  }

  class NotificationTable {
    var rows: Notes
    var nextId: NoteId

    ghost predicate Valid()
      reads this
    {
      && UniqueEvents(rows) && nextId >= 1
      && forall id | id in rows :: 0 < id < nextId && IsMoment(rows[id].createdAt)
    }

    // While the serial key fits its column, every row can be a cursor.
    lemma RowsAreStorable()
      requires Valid() && nextId <= MAX_INTEGER + 1
      ensures Storable(rows)
    {
    }

    constructor ()
      ensures Valid() && rows == map[]
    {
      rows, nextId := map[], 1;
    }

    /** An await: other requests change the table as they like. */
    method Await() returns (ghost changes: seq<Change>)
      requires Valid()
      modifies this
      ensures Valid() && rows == ChangedAll(old(rows), changes)
    {
      changes := [];
      var steps: nat := *;
      while steps > 0
        invariant Valid() && rows == ChangedAll(old(rows), changes)
      {
        var change: Change := *;
        if change.Create? ==> change.id == nextId && IsMoment(change.note.createdAt) {
          ChangeKeepsKeys(rows, change, nextId);
          ghost var more := changes + [change];
          assert more[..|changes|] == changes;
          rows := Changed(rows, change);
          nextId := if change.Create? then nextId + 1 else nextId;
          changes := more;
        }
        steps := steps - 1;
      }
    }

    /** Insert unless the event has a row; then read the row it has by then. */
    method CreateNotification(eventId: nat, recipientId: nat, createdAt: Timestamp)
      returns (result: Creation, ghost meanwhile: seq<Change>)
      requires Valid() && IsMoment(createdAt)
      modifies this
      ensures Valid()
      ensures (forall n | n in old(rows) :: old(rows)[n].eventId != eventId) ==>
        && result == Inserted(old(nextId))
        && rows == old(rows)[old(nextId) := Note(eventId, recipientId, createdAt, false, None)]
      ensures (exists n | n in old(rows) :: old(rows)[n].eventId == eventId) ==>
        && rows == ChangedAll(old(rows), meanwhile)
        && (result.Existing? ==> result.id in rows && rows[result.id].eventId == eventId)
        && (result.ConflictGone? ==> forall n | n in rows :: rows[n].eventId != eventId)
        && !result.Inserted?
    {
      meanwhile := [];
      if !HasNoteFor(rows, eventId) {
        result := Inserted(nextId);
        rows, nextId := rows[nextId := Note(eventId, recipientId, createdAt, false, None)], nextId + 1;
        return;
      }
      meanwhile := Await();
      if id :| id in rows && rows[id].eventId == eventId {
        result := Existing(id);
      } else {
        result := ConflictGone;
      }
    }

    method MarkAsRead(id: NoteId, recipientId: nat, now: int) returns (readAt: Option<int>)
      requires Valid()
      modifies this`rows
      ensures Valid()
      ensures rows == ReadOne(old(rows), id, recipientId, now)
      ensures readAt.Some? <==> id in old(rows) && old(rows)[id].recipientId == recipientId
      ensures readAt.None? ==> rows == old(rows)
      ensures readAt.Some? ==>
        && readAt == (if old(rows)[id].readAt.Some? then old(rows)[id].readAt else Some(now))
        && rows == old(rows)[id := old(rows)[id].(isRead := true, readAt := readAt)]
    {
      ChangeKeepsKeys(rows, Read(id, recipientId, now), nextId);
      if id !in rows || rows[id].recipientId != recipientId {
        return None;
      }
      readAt := if rows[id].readAt.Some? then rows[id].readAt else Some(now);
      rows := rows[id := rows[id].(isRead := true, readAt := readAt)];
    }

    method MarkAllAsRead(recipientId: nat, now: int)
      requires Valid()
      modifies this`rows
      ensures Valid()
      ensures rows == ReadAll(old(rows), recipientId, now)
      ensures rows.Keys == old(rows).Keys
      ensures forall id | id in rows ::
        rows[id] == if old(rows)[id].recipientId == recipientId && !old(rows)[id].isRead
                    then old(rows)[id].(isRead := true, readAt := Some(now)) else old(rows)[id]
    {
      ChangeKeepsKeys(rows, ReadEvery(recipientId, now), nextId);
      rows := map id | id in rows :: if rows[id].recipientId == recipientId && !rows[id].isRead
                                     then rows[id].(isRead := true, readAt := Some(now)) else rows[id];
    }

    method DeleteNotification(id: NoteId, recipientId: nat) returns (deleted: bool)
      requires Valid()
      modifies this`rows
      ensures Valid()
      ensures rows == Deleted(old(rows), id, recipientId)
      ensures deleted <==> id in old(rows) && old(rows)[id].recipientId == recipientId
      ensures rows == if deleted then old(rows) - {id} else old(rows)
    {
      ChangeKeepsKeys(rows, Delete(id, recipientId), nextId);
      deleted := Owns(rows, id, recipientId);
      if deleted {
        rows := rows - {id};
      }
    }

    /** A page by the cursor's text; the text handed back leads on from the page's last row. */
    method GetNotificationsForUserByCursor(
      recipientId: nat, limit: nat, cursor: Option<string>, cast: string -> Timestamp)
      returns (result: CursorPage)
      requires Storable(rows) && IsCast(cast)
      ensures result.InvalidCursor? <==> Given(cursor) && DecodeNotificationCursor(cursor.value).None?
      ensures result.OutOfRange?
              <==> Given(cursor) && var payload := DecodeNotificationCursor(cursor.value);
                                    payload.Some? && payload.value.id > 2_147_483_647
      ensures result.Found? ==>
        var position := if Given(cursor) then CursorPosition(cursor.value, cast) else None;
        var next := if result.nextCursor.Some? then CursorPosition(result.nextCursor.value, cast) else None;
        && IsPage(rows, recipientId, limit, position, Page(result.items, result.hasMore, next))
        && (result.nextCursor.Some? ==> next.Some? && 1 <= |result.nextCursor.value| <= 512)
      // in the columns: the recipient's rows older than the cursor, newest first, none left out before the last
      ensures result.Found? ==>
        var position := if Given(cursor) then CursorPosition(cursor.value, cast) else None;
        && |result.items| <= limit
        && (forall i, j | 0 <= i < j < |result.items| :: Newer(result.items[i], result.items[j]))
        && (forall i | 0 <= i < |result.items| ::
              var p := result.items[i];
              && p.id in rows && rows[p.id].recipientId == recipientId && p.createdAt == rows[p.id].createdAt
              && (position.Some? ==> Newer(position.value, p)))
        && (forall id | id in rows && rows[id].recipientId == recipientId ::
              var p := Position(rows[id].createdAt, id);
              (position.None? || Newer(position.value, p)) && p !in result.items ==>
                && result.hasMore && |result.items| == limit
                && forall i | 0 <= i < |result.items| :: Newer(result.items[i], p))
    {
      var position := None;
      if Given(cursor) {
        position := CursorPosition(cursor.value, cast);
        if position.None? {
          return InvalidCursor;
        }
        if position.value.id > MAX_INTEGER {
          return OutOfRange;
        }
      }
      var page := GetPage(rows, recipientId, limit, position);
      PageInColumns(rows, recipientId, limit, position, page);
      if page.nextCursor.None? {
        return Found(page.items, page.hasMore, None);
      }
      var last := page.nextCursor.value;
      assert last in page.items;
      InPool(rows, recipientId, position, last);
      CursorRoundTrip(last.createdAt, last.id);
      CursorMeansPosition(last, cast);
      result := Found(page.items, page.hasMore, Some(EncodeNotificationCursor(last.createdAt, last.id)));
    }
  }
}
