/**
 The `event_outbox` table and the statements the repository runs on it.
 Each statement is a function on tables; `OutboxTable` runs it in place.
 Times are microseconds, the resolution of the database.
 */
module OutboxRepository {
  import opened Wrappers

  type EventId = nat
  type WorkerId = nat

  const MICROS_PER_MS := 1000

  datatype Event = Event(
    id: EventId, eventType: string, source: string, actorId: Option<nat>,
    targetUserId: nat, payload: string, occurredAt: int)

  datatype Status = Pending | Processing | Published | DeadLetter

  datatype Row = Row(
    event: Event, status: Status, attempts: nat, availableAt: int,
    lockedAt: Option<int>, lockedBy: Option<WorkerId>, lastError: Option<string>,
    processedAt: Option<int>, deadLetteredAt: Option<int>)

  // What a claim returns to the worker: the event and its attempts as of the claim.
  datatype Copy = Copy(event: Event, attempts: nat)

  type Table = map<EventId, Row>

  ghost predicate Keyed(t: Table) {
    forall id | id in t :: t[id].event.id == id
  }

  // ---------------------------------------------------------------- one row

  function NewRow(event: Event, now: int): Row {
    Row(event, Pending, 0, now, None, None, None, None, None)
  }

  predicate Claimable(r: Row, now: int, leaseMs: nat) {
    || (r.status.Pending? && r.availableAt <= now)
    || (r.status.Processing? && r.lockedAt.Some? && r.lockedAt.value < now - leaseMs * MICROS_PER_MS)
  }

  predicate Fenced(r: Row, w: WorkerId) {
    r.status.Processing? && r.lockedBy == Some(w)
  }

  function ClaimRow(r: Row, w: WorkerId, now: int): Row {
    r.(status := Processing, attempts := r.attempts + 1, lockedAt := Some(now), lockedBy := Some(w), lastError := None)
  }

  function PublishRow(r: Row, now: int): Row {
    r.(status := Published, processedAt := Some(now), lockedAt := None, lockedBy := None)
  }

  function ReleaseRow(r: Row, availableAt: int, error: string): Row {
    r.(status := Pending, availableAt := availableAt, lastError := Some(error), lockedAt := None, lockedBy := None)
  }

  function BuryRow(r: Row, now: int, error: string): Row {
    r.(status := DeadLetter, deadLetteredAt := Some(now), lastError := Some(error), lockedAt := None, lockedBy := None)
  }

  function ReplayRow(r: Row, now: int): Row {
    r.(status := Pending, attempts := 0, availableAt := now, lockedAt := None, lockedBy := None,
       lastError := None, processedAt := None, deadLetteredAt := None)
  }

  // -------------------------------------------------------------- the table

  function Inserted(t: Table, event: Event, now: int): Table {
    if event.id in t then t else t[event.id := NewRow(event, now)]
  }

  predicate CanReplay(t: Table, id: EventId) {
    id in t && t[id].status.DeadLetter?
  }

  function Replayed(t: Table, id: EventId, now: int): Table {
    if CanReplay(t, id) then t[id := ReplayRow(t[id], now)] else t
  }

  predicate Holds(t: Table, id: EventId, w: WorkerId) {
    id in t && Fenced(t[id], w)
  }

  function PublishedBy(t: Table, id: EventId, w: WorkerId, now: int): Table {
    if Holds(t, id, w) then t[id := PublishRow(t[id], now)] else t
  }

  function ReleasedBy(t: Table, id: EventId, w: WorkerId, availableAt: int, error: string): Table {
    if Holds(t, id, w) then t[id := ReleaseRow(t[id], availableAt, error)] else t
  }

  function BuriedBy(t: Table, id: EventId, w: WorkerId, now: int, error: string): Table {
    if Holds(t, id, w) then t[id := BuryRow(t[id], now, error)] else t
  }

  function Claimed(t: Table, ids: set<EventId>, w: WorkerId, now: int): Table {
    map id | id in t :: if id in ids then ClaimRow(t[id], w, now) else t[id]
  }

  // ------------------------------------------------------- the order of a claim

  predicate Before(a: Event, b: Event) {
    a.occurredAt < b.occurredAt || (a.occurredAt == b.occurredAt && a.id < b.id)
  }

  // `chosen` is what ORDER BY occurred_at, event_id LIMIT `limit` keeps of `pool`.
  ghost predicate IsFirst(t: Table, chosen: set<EventId>, pool: set<EventId>, limit: nat) {
    && chosen <= pool <= t.Keys
    && |chosen| == (if |pool| < limit then |pool| else limit)
    && forall a, b | a in chosen && b in pool - chosen :: Before(t[a].event, t[b].event)
  }

  /** A limit and an order leave no choice: two selections of one pool are the same set. */
  lemma FirstIsUnique(t: Table, c: set<EventId>, d: set<EventId>, pool: set<EventId>, limit: nat)
    requires IsFirst(t, c, pool, limit) && IsFirst(t, d, pool, limit)
    ensures c == d
  {
    if c != d {
      var a, b := SameSizeDiffer(c, d);
    }
  }

  lemma SameSizeDiffer<T>(c: set<T>, d: set<T>) returns (a: T, b: T)
    requires |c| == |d| && c != d
    ensures a in c - d && b in d - c
  {
    assert c == (c * d) + (c - d) && d == (c * d) + (d - c);
    assert |c| == |c * d| + |c - d| && |d| == |c * d| + |d - c|;
    assert c - d == {} <==> |c - d| == 0;
    assert d - c == {} <==> |d - c| == 0;
    a :| a in c - d;
    b :| b in d - c;
  }

  lemma {:induction false} EarliestExists(t: Table, ids: set<EventId>)
    requires Keyed(t) && ids != {} && ids <= t.Keys
    ensures exists a :: a in ids && forall b | b in ids && b != a :: Before(t[a].event, t[b].event)
    decreases |ids|
  {
    var x :| x in ids;
    var rest := ids - {x};
    if rest == {} {
      assert ids == {x};
    } else {
      EarliestExists(t, rest);
      var a :| a in rest && forall b | b in rest && b != a :: Before(t[a].event, t[b].event);
      var least := if Before(t[a].event, t[x].event) then a else x;
      assert forall b | b in ids && b != least :: Before(t[least].event, t[b].event);
    }
  }

  ghost function Pool(t: Table, now: int, leaseMs: nat, lockedElsewhere: set<EventId>): set<EventId> {
    set id | id in t && Claimable(t[id], now, leaseMs) && id !in lockedElsewhere
  }

  function Ids(copies: seq<Copy>): set<EventId> {
    set i | 0 <= i < |copies| :: copies[i].event.id
  }

  // `copies` holds one copy for each of its ids, with the attempts the claim of `t` gives it.
  predicate AreCopies(t: Table, copies: seq<Copy>) {
    && (forall i, j | 0 <= i < j < |copies| :: copies[i].event.id != copies[j].event.id)
    && (forall i | 0 <= i < |copies| ::
          var id := copies[i].event.id; id in t && copies[i] == Copy(t[id].event, t[id].attempts + 1))
  }

  // RETURNING: one copy for each updated row.
  function Returning(t: Table, ids: seq<EventId>): (copies: seq<Copy>)
    requires Keyed(t)
    requires forall i | 0 <= i < |ids| :: ids[i] in t
    requires forall i, j | 0 <= i < j < |ids| :: ids[i] != ids[j]
    ensures AreCopies(t, copies) && Ids(copies) == Elements(ids)
  {
    var copies := seq(|ids|, i requires 0 <= i < |ids| => Copy(t[ids[i]].event, t[ids[i]].attempts + 1));
    assert forall i | 0 <= i < |ids| :: copies[i].event.id == ids[i];
    copies
  }

  function Elements(ids: seq<EventId>): set<EventId> {
    set i | 0 <= i < |ids| :: ids[i]
  }

  lemma ElementsGrow(ids: seq<EventId>, next: EventId)
    ensures Elements(ids + [next]) == Elements(ids) + {next}
  {
    var more := ids + [next];
    assert more[|ids|] == next && forall i | 0 <= i < |ids| :: more[i] == ids[i];
    forall id | id in Elements(ids) ensures id in Elements(more) {
      var i :| 0 <= i < |ids| && ids[i] == id;
      assert more[i] == id;
    }
  }

  // Sorted by the claim order.
  ghost predicate InOrder(t: Table, ids: seq<EventId>) {
    && (forall i | 0 <= i < |ids| :: ids[i] in t)
    && (forall i, j | 0 <= i < j < |ids| :: Before(t[ids[i]].event, t[ids[j]].event))
  }

  function WithStatus(t: Table, status: Status): set<EventId> {
    set id | id in t && t[id].status == status
  }

  function Count(t: Table, status: Status): nat {
    |WithStatus(t, status)|
  }

  method Earliest(t: Table, ids: set<EventId>) returns (a: EventId)
    requires Keyed(t) && ids != {} && ids <= t.Keys
    ensures a in ids && forall b | b in ids && b != a :: Before(t[a].event, t[b].event)
  {
    EarliestExists(t, ids);
    a :| a in ids && forall b | b in ids && b != a :: Before(t[a].event, t[b].event);
  }

  // A scan in progress: `ids` already taken, in order, all before the `rest` of the pool.
  ghost predicate Scanned(t: Table, ids: seq<EventId>, rest: set<EventId>, pool: set<EventId>) {
    && InOrder(t, ids)
    && Elements(ids) + rest == pool <= t.Keys && Elements(ids) !! rest && |Elements(ids)| == |ids|
    && forall a, b | a in Elements(ids) && b in rest :: Before(t[a].event, t[b].event)
  }

  lemma ScanNext(t: Table, ids: seq<EventId>, rest: set<EventId>, pool: set<EventId>, next: EventId)
    requires Scanned(t, ids, rest, pool) && next in rest
    requires forall b | b in rest && b != next :: Before(t[next].event, t[b].event)
    ensures Scanned(t, ids + [next], rest - {next}, pool)
  {
    ElementsGrow(ids, next);
    assert Elements(ids) + {next} + (rest - {next}) == pool;
    forall i | 0 <= i < |ids| ensures Before(t[ids[i]].event, t[next].event) {
      assert ids[i] in Elements(ids);
    }
  }

  /** Take rows in order, one at a time, until the limit is reached. */
  method Scan(t: Table, pool: set<EventId>, limit: nat) returns (ids: seq<EventId>, rest: set<EventId>)
    requires Keyed(t) && pool <= t.Keys
    ensures Scanned(t, ids, rest, pool) && |ids| <= limit && (rest == {} || |ids| == limit)
  {
    rest := pool;
    ids := [];
    while rest != {} && |ids| < limit
      invariant |ids| <= limit && Scanned(t, ids, rest, pool)
      decreases |rest|
    {
      var next := Earliest(t, rest);
      ScanNext(t, ids, rest, pool, next);
      ids := ids + [next];
      rest := rest - {next};
    }
  }

  lemma ScannedIsFirst(t: Table, ids: seq<EventId>, rest: set<EventId>, pool: set<EventId>, limit: nat)
    requires Scanned(t, ids, rest, pool) && |ids| <= limit && (rest == {} || |ids| == limit)
    ensures IsFirst(t, Elements(ids), pool, limit)
  {
    assert |pool| == |Elements(ids)| + |rest| && pool - Elements(ids) == rest;
  }

  // Before, in the columns.
  lemma OldestFirst(t: Table, ids: seq<EventId>, rest: set<EventId>, pool: set<EventId>)
    requires Keyed(t) && Scanned(t, ids, rest, pool)
    ensures forall i, j | 0 <= i < j < |ids| ::
              || t[ids[i]].event.occurredAt < t[ids[j]].event.occurredAt
              || (t[ids[i]].event.occurredAt == t[ids[j]].event.occurredAt && ids[i] < ids[j])
    ensures forall i, b | 0 <= i < |ids| && b in pool && b !in ids ::
              || t[ids[i]].event.occurredAt < t[b].event.occurredAt
              || (t[ids[i]].event.occurredAt == t[b].event.occurredAt && ids[i] < b)
  {
    forall i, b | 0 <= i < |ids| && b in pool && b !in ids ensures Before(t[ids[i]].event, t[b].event) {
      assert ids[i] in Elements(ids) && b in rest;
    }
  }

  /** The `candidates` subquery: the oldest rows of the pool, ties by id, up to the limit. */
  method Candidates(t: Table, pool: set<EventId>, limit: nat) returns (ids: seq<EventId>)
    requires Keyed(t) && pool <= t.Keys
    ensures InOrder(t, ids) && IsFirst(t, Elements(ids), pool, limit) && |Elements(ids)| == |ids|
    ensures forall i, j | 0 <= i < j < |ids| ::
              || t[ids[i]].event.occurredAt < t[ids[j]].event.occurredAt
              || (t[ids[i]].event.occurredAt == t[ids[j]].event.occurredAt && ids[i] < ids[j])
    ensures forall i, b | 0 <= i < |ids| && b in pool && b !in ids ::
              || t[ids[i]].event.occurredAt < t[b].event.occurredAt
              || (t[ids[i]].event.occurredAt == t[b].event.occurredAt && ids[i] < b)
  {
    var rest: set<EventId>;
    ids, rest := Scan(t, pool, limit);
    ScannedIsFirst(t, ids, rest, pool, limit);
    OldestFirst(t, ids, rest, pool);
  }

  // What a claim of `t` that leaves `after` took.
  ghost predicate TookFirst(t: Table, after: Table, copies: seq<Copy>, w: WorkerId, limit: nat, leaseMs: nat, now: int,
                            lockedElsewhere: set<EventId>)
  {
    && Keyed(t) && AreCopies(t, copies) && |Ids(copies)| == |copies|
    && IsFirst(t, Ids(copies), Pool(t, now, leaseMs, lockedElsewhere), limit)
    && after == Claimed(t, Ids(copies), w, now)
  }

  lemma TakenRow(t: Table, after: Table, copies: seq<Copy>, w: WorkerId, limit: nat, leaseMs: nat, now: int,
                 lockedElsewhere: set<EventId>, i: nat)
    requires TookFirst(t, after, copies, w, limit, leaseMs, now, lockedElsewhere) && i < |copies|
    ensures var id := copies[i].event.id;
      && id in t && id in after && id !in lockedElsewhere
      && var r := t[id];
         && ((r.status == Pending && r.availableAt <= now)
             || (r.status == Processing && r.lockedAt.Some? && r.lockedAt.value < now - 1_000 * leaseMs))
         && after[id] == Row(r.event, Processing, r.attempts + 1, r.availableAt, Some(now), Some(w), None,
                             r.processedAt, r.deadLetteredAt)
         && copies[i] == Copy(r.event, r.attempts + 1)
  {
    assert copies[i].event.id in Ids(copies);
  }

  lemma LeftRow(t: Table, after: Table, copies: seq<Copy>, w: WorkerId, limit: nat, leaseMs: nat, now: int,
                lockedElsewhere: set<EventId>, b: EventId)
    requires TookFirst(t, after, copies, w, limit, leaseMs, now, lockedElsewhere)
    requires b in t && b !in Ids(copies) && b !in lockedElsewhere
    requires (t[b].status == Pending && t[b].availableAt <= now)
             || (t[b].status == Processing && t[b].lockedAt.Some? && t[b].lockedAt.value < now - 1_000 * leaseMs)
    ensures |copies| == limit
    ensures forall i | 0 <= i < |copies| ::
              || copies[i].event.occurredAt < t[b].event.occurredAt
              || (copies[i].event.occurredAt == t[b].event.occurredAt && copies[i].event.id < b)
  {
    var pool := Pool(t, now, leaseMs, lockedElsewhere);
    assert b in pool - Ids(copies);
    assert |pool| == |Ids(copies)| + |pool - Ids(copies)| by {
      assert pool == Ids(copies) + (pool - Ids(copies));
    }
    forall i | 0 <= i < |copies| ensures Before(copies[i].event, t[b].event) {
      assert copies[i].event.id in Ids(copies);
    }
  }

  /** A claim in the columns: what it took and what that became; what it left, and that this came after. */
  lemma ClaimInColumns(t: Table, after: Table, copies: seq<Copy>, w: WorkerId, limit: nat, leaseMs: nat, now: int,
                       lockedElsewhere: set<EventId>)
    requires TookFirst(t, after, copies, w, limit, leaseMs, now, lockedElsewhere)
    ensures forall i | 0 <= i < |copies| ::
      var id := copies[i].event.id;
      && id in t && id in after && id !in lockedElsewhere
      && var r := t[id];
         && ((r.status == Pending && r.availableAt <= now)
             || (r.status == Processing && r.lockedAt.Some? && r.lockedAt.value < now - 1_000 * leaseMs))
         && after[id] == Row(r.event, Processing, r.attempts + 1, r.availableAt, Some(now), Some(w), None,
                             r.processedAt, r.deadLetteredAt)
         && copies[i] == Copy(r.event, r.attempts + 1)
    ensures forall b | b in t && b !in Ids(copies) && b !in lockedElsewhere ::
      ((t[b].status == Pending && t[b].availableAt <= now)
       || (t[b].status == Processing && t[b].lockedAt.Some? && t[b].lockedAt.value < now - 1_000 * leaseMs)) ==>
        && |copies| == limit
        && forall i | 0 <= i < |copies| ::
             || copies[i].event.occurredAt < t[b].event.occurredAt
             || (copies[i].event.occurredAt == t[b].event.occurredAt && copies[i].event.id < b)
  {
    forall i | 0 <= i < |copies| {
      TakenRow(t, after, copies, w, limit, leaseMs, now, lockedElsewhere, i);
    }
    forall b | b in t && b !in Ids(copies) && b !in lockedElsewhere
               && ((t[b].status == Pending && t[b].availableAt <= now)
                   || (t[b].status == Processing && t[b].lockedAt.Some?
                       && t[b].lockedAt.value < now - 1_000 * leaseMs)) {
      LeftRow(t, after, copies, w, limit, leaseMs, now, lockedElsewhere, b);
    }
  }

  // The statement on values.
  method SelectAndUpdate(t: Table, w: WorkerId, limit: nat, leaseMs: nat, now: int, lockedElsewhere: set<EventId>)
    returns (after: Table, copies: seq<Copy>)
    requires Keyed(t)
    ensures TookFirst(t, after, copies, w, limit, leaseMs, now, lockedElsewhere)
  {
    var pool := set id | id in t && Claimable(t[id], now, leaseMs) && id !in lockedElsewhere;
    var ids := Candidates(t, pool, limit);
    copies := Returning(t, ids);
    after := map id | id in t :: if id in ids then ClaimRow(t[id], w, now) else t[id];
    assert after == Claimed(t, Elements(ids), w, now) && pool == Pool(t, now, leaseMs, lockedElsewhere);
  }

  lemma StatusCount(t: Table, status: Status)
    ensures Count(t, status) == |set id | id in t && t[id].status == status|
  {
    assert WithStatus(t, status) == set id | id in t && t[id].status == status;
  }

  class OutboxTable {
    var rows: Table

    constructor ()
      ensures rows == map[]
    {
      rows := map[];
    }

    method InsertEvent(event: Event, now: int) returns (inserted: bool)
      modifies this
      ensures rows == Inserted(old(rows), event, now)
      ensures inserted <==> event.id !in old(rows)
      ensures rows == if inserted
                      then old(rows)[event.id := Row(event, Pending, 0, now, None, None, None, None, None)]
                      else old(rows)
    {
      inserted := event.id !in rows;
      if inserted {
        rows := rows[event.id := NewRow(event, now)];
      }
    }

    method ReplayDeadLetterEvent(id: EventId, now: int) returns (replayed: bool)
      modifies this
      ensures rows == Replayed(old(rows), id, now)
      ensures replayed <==> id in old(rows) && old(rows)[id].status == DeadLetter
      ensures rows == if replayed
                      then old(rows)[id := Row(old(rows)[id].event, Pending, 0, now, None, None, None, None, None)]
                      else old(rows)
    {
      replayed := CanReplay(rows, id);
      if replayed {
        rows := rows[id := ReplayRow(rows[id], now)];
      }
    }

    method MarkPublished(id: EventId, w: WorkerId, now: int) returns (updated: bool)
      modifies this
      ensures rows == PublishedBy(old(rows), id, w, now)
      ensures updated <==> id in old(rows) && old(rows)[id].status == Processing && old(rows)[id].lockedBy == Some(w)
      ensures !updated ==> rows == old(rows)
      ensures updated ==>
        var r := old(rows)[id];
        rows == old(rows)[id :=
          Row(r.event, Published, r.attempts, r.availableAt, None, None, r.lastError, Some(now), r.deadLetteredAt)]
    {
      updated := Holds(rows, id, w);
      if updated {
        rows := rows[id := PublishRow(rows[id], now)];
      }
    }

    method ReleaseForRetry(id: EventId, w: WorkerId, availableAt: int, error: string) returns (updated: bool)
      modifies this
      ensures rows == ReleasedBy(old(rows), id, w, availableAt, error)
      ensures updated <==> id in old(rows) && old(rows)[id].status == Processing && old(rows)[id].lockedBy == Some(w)
      ensures !updated ==> rows == old(rows)
      ensures updated ==>
        var r := old(rows)[id];
        rows == old(rows)[id :=
          Row(r.event, Pending, r.attempts, availableAt, None, None, Some(error), r.processedAt, r.deadLetteredAt)]
    {
      updated := Holds(rows, id, w);
      if updated {
        rows := rows[id := ReleaseRow(rows[id], availableAt, error)];
      }
    }

    method MoveToDeadLetter(id: EventId, w: WorkerId, now: int, error: string) returns (updated: bool)
      modifies this
      ensures rows == BuriedBy(old(rows), id, w, now, error)
      ensures updated <==> id in old(rows) && old(rows)[id].status == Processing && old(rows)[id].lockedBy == Some(w)
      ensures !updated ==> rows == old(rows)
      ensures updated ==>
        var r := old(rows)[id];
        rows == old(rows)[id :=
          Row(r.event, DeadLetter, r.attempts, r.availableAt, None, None, Some(error), r.processedAt, Some(now))]
    {
      updated := Holds(rows, id, w);
      if updated {
        rows := rows[id := BuryRow(rows[id], now, error)];
      }
    }

    /** The claim statement with nobody else running: scan in order, skip locked rows, stop at the limit. */
    method ClaimEvents(w: WorkerId, limit: nat, leaseMs: nat, now: int, lockedElsewhere: set<EventId>)
      returns (copies: seq<Copy>)
      requires Keyed(rows)
      modifies this
      ensures Keyed(rows) && rows.Keys == old(rows).Keys && |copies| <= limit
      ensures AreCopies(old(rows), copies)
      ensures IsFirst(old(rows), Ids(copies), Pool(old(rows), now, leaseMs, lockedElsewhere), limit)
      ensures rows == Claimed(old(rows), Ids(copies), w, now)
      // in the columns: what was taken, and what it became
      ensures forall i | 0 <= i < |copies| ::
        var id := copies[i].event.id;
        && id in old(rows) && id in rows && id !in lockedElsewhere
        && var r := old(rows)[id];
           && ((r.status == Pending && r.availableAt <= now)
               || (r.status == Processing && r.lockedAt.Some? && r.lockedAt.value < now - 1_000 * leaseMs))
           && rows[id] == Row(r.event, Processing, r.attempts + 1, r.availableAt, Some(now), Some(w), None,
                               r.processedAt, r.deadLetteredAt)
           && copies[i] == Copy(r.event, r.attempts + 1)
      // what was left, and that it comes after
      ensures forall b | b in old(rows) && b !in Ids(copies) :: rows[b] == old(rows)[b]
      ensures forall b | b in old(rows) && b !in Ids(copies) && b !in lockedElsewhere ::
        var r := old(rows)[b];
        ((r.status == Pending && r.availableAt <= now)
         || (r.status == Processing && r.lockedAt.Some? && r.lockedAt.value < now - 1_000 * leaseMs)) ==>
          && |copies| == limit
          && forall i | 0 <= i < |copies| ::
               || copies[i].event.occurredAt < r.event.occurredAt
               || (copies[i].event.occurredAt == r.event.occurredAt && copies[i].event.id < b)
    {
      var after: Table;
      after, copies := SelectAndUpdate(rows, w, limit, leaseMs, now, lockedElsewhere);
      ClaimInColumns(rows, after, copies, w, limit, leaseMs, now, lockedElsewhere);
      rows := after;
    }

    /** One count per status, in the fixed order the gauge is reported in. */
    method GetOutboxStats() returns (stats: seq<(Status, nat)>)
      ensures stats == [(Pending, Count(rows, Pending)), (Processing, Count(rows, Processing)),
                        (Published, Count(rows, Published)), (DeadLetter, Count(rows, DeadLetter))]
      ensures stats[0] == (Pending, |set id | id in rows && rows[id].status == Pending|)
      ensures stats[1] == (Processing, |set id | id in rows && rows[id].status == Processing|)
      ensures stats[2] == (Published, |set id | id in rows && rows[id].status == Published|)
      ensures stats[3] == (DeadLetter, |set id | id in rows && rows[id].status == DeadLetter|)
      ensures stats[0].1 + stats[1].1 + stats[2].1 + stats[3].1 == |rows|
    {
      stats := [(Pending, Count(rows, Pending)), (Processing, Count(rows, Processing)),
                (Published, Count(rows, Published)), (DeadLetter, Count(rows, DeadLetter))];
      CountsCover(rows);
      StatusCount(rows, Pending);
      StatusCount(rows, Processing);
      StatusCount(rows, Published);
      StatusCount(rows, DeadLetter);
    }
  }

  /** No row is counted twice and none is missed. */
  lemma CountsCover(t: Table)
    ensures Count(t, Pending) + Count(t, Processing) + Count(t, Published) + Count(t, DeadLetter) == |t|
  {
    var open := WithStatus(t, Pending) + WithStatus(t, Processing);
    var closed := WithStatus(t, Published) + WithStatus(t, DeadLetter);
    DisjointSize(WithStatus(t, Pending), WithStatus(t, Processing));
    DisjointSize(WithStatus(t, Published), WithStatus(t, DeadLetter));
    DisjointSize(open, closed);
    EveryStatus(t);
  }

  lemma EveryStatus(t: Table)
    ensures t.Keys == WithStatus(t, Pending) + WithStatus(t, Processing)
                      + (WithStatus(t, Published) + WithStatus(t, DeadLetter))
  {
    forall id | id in t ensures id in WithStatus(t, t[id].status) {
    }
  }

  lemma DisjointSize<T>(a: set<T>, b: set<T>)
    requires a !! b
    ensures |a + b| == |a| + |b|
  {
  }
}
