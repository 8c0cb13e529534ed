/**
 Keyset pagination: what one page of the `limit + 1` query is, and what a client that follows the
 cursors gets while the table changes between its requests.
 */
module Pagination {
  import opened Wrappers
  import opened Notifications

  datatype Position = Position(createdAt: Timestamp, id: NoteId)

  // ------------------------------------------------------------- the order

  predicate TimeBefore(a: Timestamp, b: Timestamp) {
    a.year < b.year || (a.year == b.year && (
    a.month < b.month || (a.month == b.month && (
    a.day < b.day || (a.day == b.day && (
    a.hour < b.hour || (a.hour == b.hour && (
    a.minute < b.minute || (a.minute == b.minute && (
    a.second < b.second || (a.second == b.second &&
    a.micro < b.micro)))))))))))
  }

  // (created_at, id) < (created_at, id)
  predicate Below(p: Position, q: Position) {
    TimeBefore(p.createdAt, q.createdAt) || (p.createdAt == q.createdAt && p.id < q.id)
  }

  lemma BelowIsOrder(p: Position, q: Position, r: Position)
    ensures Below(p, q) || Below(q, p) || p == q
    ensures !(Below(p, q) && Below(q, p)) && !Below(p, p)
    ensures Below(p, q) && Below(q, r) ==> Below(p, r)
  {
  }

  // A moment as a number that grows with time; months count as 31 days, since only the order matters.
  function Instant(t: Timestamp): int {
    (((((t.year * 12 + t.month) * 31 + t.day) * 24 + t.hour) * 60 + t.minute) * 60 + t.second) * 1_000_000 + t.micro
  }

  lemma TimesAgree(a: Timestamp, b: Timestamp)
    requires IsMoment(a) && IsMoment(b)
    ensures TimeBefore(a, b) <==> Instant(a) < Instant(b)
  {
  }

  predicate Newer(p: Position, q: Position) {
    Instant(p.createdAt) > Instant(q.createdAt) || (p.createdAt == q.createdAt && p.id > q.id)
  }

  /** The order of the feed is the order of time, ties by id. */
  lemma BelowIsOlder(p: Position, q: Position)
    requires IsMoment(p.createdAt) && IsMoment(q.createdAt)
    ensures Below(q, p) <==> Newer(p, q)
  {
    TimesAgree(q.createdAt, p.createdAt);
  }

  ghost predicate Descending(ps: seq<Position>) {
    forall i, j | 0 <= i < j < |ps| :: Below(ps[j], ps[i])
  }

  // -------------------------------------------------------------- one page

  function PositionOf(t: Notes, id: NoteId): Position
    requires id in t
  {
    Position(t[id].createdAt, id)
  }

  // WHERE recipient_id = $1 AND (no cursor OR (created_at, id) < cursor)
  predicate Matches(t: Notes, recipientId: nat, cursor: Option<Position>, id: NoteId) {
    id in t && t[id].recipientId == recipientId && (cursor.None? || Below(PositionOf(t, id), cursor.value))
  }

  function Pool(t: Notes, recipientId: nat, cursor: Option<Position>): set<Position> {
    set id | id in t && Matches(t, recipientId, cursor, id) :: PositionOf(t, id)
  }

  // ORDER BY created_at DESC, id DESC LIMIT n
  ghost predicate IsTop(ps: seq<Position>, pool: set<Position>, n: nat) {
    && Descending(ps) && (forall p | p in ps :: p in pool)
    && |ps| == (if |pool| < n then |pool| else n)
    && forall p, q | p in ps && q in pool && q !in ps :: Below(q, p)
  }

  datatype Page = Page(items: seq<Position>, hasMore: bool, nextCursor: Option<Position>)

  ghost predicate IsPage(t: Notes, recipientId: nat, limit: nat, cursor: Option<Position>, page: Page) {
    var pool := Pool(t, recipientId, cursor);
    && IsTop(page.items, pool, limit)
    && (page.hasMore <==> |pool| > limit)
    && page.nextCursor == if page.hasMore && page.items != [] then Some(page.items[|page.items| - 1]) else None
  }

  lemma {:induction false} HighestExists(pool: set<Position>) returns (p: Position)
    requires pool != {}
    ensures p in pool && forall q | q in pool && q != p :: Below(q, p)
    decreases |pool|
  {
    p :| p in pool;
    var rest := pool - {p};
    if rest != {} {
      var r := HighestExists(rest);
      BelowIsOrder(p, r, r);
      var was := p;
      p := if Below(p, r) then r else p;
      forall q | q in pool && q != p ensures Below(q, p) {
        BelowIsOrder(q, r, was);
      }
    } else {
      assert pool == {p};
    }
  }

  method Highest(pool: set<Position>) returns (p: Position)
    requires pool != {}
    ensures p in pool && forall q | q in pool && q != p :: Below(q, p)
  {
    ghost var h := HighestExists(pool);
    p :| p in pool && forall q | q in pool && q != p :: Below(q, p);
  }

  // The query under way: `taken` above everything that is left.
  ghost predicate Sorting(pool: set<Position>, taken: seq<Position>, rest: set<Position>) {
    && Descending(taken) && rest <= pool && |taken| + |rest| == |pool|
    && (forall p | p in pool :: p in rest <==> p !in taken)
    && (forall p | p in taken :: p in pool)
    && forall p, q | p in taken && q in rest :: Below(q, p)
  }

  lemma SortNext(pool: set<Position>, taken: seq<Position>, rest: set<Position>, p: Position)
    requires Sorting(pool, taken, rest) && p in rest && forall q | q in rest && q != p :: Below(q, p)
    ensures Sorting(pool, taken + [p], rest - {p})
  {
    var more := taken + [p];
    forall q ensures q in more <==> q in taken || q == p {
    }
    forall i | 0 <= i < |taken| ensures Below(p, taken[i]) {
      assert taken[i] in taken;
    }
  }

  method Query(t: Notes, recipientId: nat, cursor: Option<Position>, n: nat) returns (rows: seq<Position>)
    ensures IsTop(rows, Pool(t, recipientId, cursor), n)
  {
    var pool := Pool(t, recipientId, cursor);
    var rest := pool;
    rows := [];
    while rest != {} && |rows| < n
      invariant Sorting(pool, rows, rest) && |rows| <= n
      decreases |rest|
    {
      var p := Highest(rest);
      SortNext(pool, rows, rest, p);
      rows := rows + [p];
      rest := rest - {p};
    }
  }

  /** Ask for one row more than the page holds; keep the page; its last row is the next cursor. */
  method GetPage(t: Notes, recipientId: nat, limit: nat, cursor: Option<Position>) returns (page: Page)
    ensures IsPage(t, recipientId, limit, cursor, page)
    ensures forall i | 0 <= i < |page.items| ::
              var p := page.items[i];
              p.id in t && t[p.id].recipientId == recipientId && p.createdAt == t[p.id].createdAt
  {
    var rows := Query(t, recipientId, cursor, limit + 1);
    var hasMore := |rows| > limit;
    var pageRows := if hasMore then rows[..limit] else rows;
    TopOfTop(rows, Pool(t, recipientId, cursor), limit);
    page := Page(pageRows, hasMore, if hasMore && |pageRows| > 0 then Some(pageRows[|pageRows| - 1]) else None);
    PageIsOwn(t, recipientId, limit, cursor, page);
  }

  lemma PageIsOwn(t: Notes, recipientId: nat, limit: nat, cursor: Option<Position>, page: Page)
    requires IsPage(t, recipientId, limit, cursor, page)
    ensures forall i | 0 <= i < |page.items| ::
              var p := page.items[i];
              p.id in t && t[p.id].recipientId == recipientId && p.createdAt == t[p.id].createdAt
  {
    forall i | 0 <= i < |page.items|
      ensures var p := page.items[i];
              p.id in t && t[p.id].recipientId == recipientId && p.createdAt == t[p.id].createdAt
    {
      assert page.items[i] in page.items;
      InPool(t, recipientId, cursor, page.items[i]);
    }
  }

  /** A page in the columns: the recipient's rows older than the cursor, newest first, none left out before the last. */
  lemma PageInColumns(t: Notes, recipientId: nat, limit: nat, cursor: Option<Position>, page: Page)
    requires IsPage(t, recipientId, limit, cursor, page) && forall id | id in t :: IsMoment(t[id].createdAt)
    requires cursor.Some? ==> IsMoment(cursor.value.createdAt)
    ensures |page.items| <= limit && forall i, j | 0 <= i < j < |page.items| :: Newer(page.items[i], page.items[j])
    ensures forall i | 0 <= i < |page.items| ::
              var p := page.items[i];
              && p.id in t && t[p.id].recipientId == recipientId && p.createdAt == t[p.id].createdAt
              && (cursor.Some? ==> Newer(cursor.value, p))
    ensures forall id | id in t && t[id].recipientId == recipientId ::
              var p := Position(t[id].createdAt, id);
              (cursor.None? || Newer(cursor.value, p)) && p !in page.items ==>
                page.hasMore && |page.items| == limit && forall i | 0 <= i < |page.items| :: Newer(page.items[i], p)
  {
    PageIsOwn(t, recipientId, limit, cursor, page);
    forall i | 0 <= i < |page.items| ensures cursor.Some? ==> Newer(cursor.value, page.items[i]) {
      assert page.items[i] in page.items;
      InPool(t, recipientId, cursor, page.items[i]);
      if cursor.Some? {
        BelowIsOlder(cursor.value, page.items[i]);
      }
    }
    forall i, j | 0 <= i < j < |page.items| ensures Newer(page.items[i], page.items[j]) {
      BelowIsOlder(page.items[i], page.items[j]);
    }
    forall id | id in t && t[id].recipientId == recipientId
                && (cursor.None? || Newer(cursor.value, Position(t[id].createdAt, id)))
                && Position(t[id].createdAt, id) !in page.items
      ensures page.hasMore && |page.items| == limit
      ensures forall i | 0 <= i < |page.items| :: Newer(page.items[i], Position(t[id].createdAt, id))
    {
      LeftOffPage(t, recipientId, limit, cursor, page, id);
    }
  }

  lemma LeftOffPage(t: Notes, recipientId: nat, limit: nat, cursor: Option<Position>, page: Page, id: NoteId)
    requires IsPage(t, recipientId, limit, cursor, page) && forall n | n in t :: IsMoment(t[n].createdAt)
    requires cursor.Some? ==> IsMoment(cursor.value.createdAt)
    requires id in t && t[id].recipientId == recipientId && Position(t[id].createdAt, id) !in page.items
    requires cursor.None? || Newer(cursor.value, Position(t[id].createdAt, id))
    ensures page.hasMore && |page.items| == limit
    ensures forall i | 0 <= i < |page.items| :: Newer(page.items[i], Position(t[id].createdAt, id))
  {
    var p := Position(t[id].createdAt, id);
    if cursor.Some? {
      BelowIsOlder(cursor.value, p);
    }
    InPool(t, recipientId, cursor, p);
    PageIsOwn(t, recipientId, limit, cursor, page);
    forall i | 0 <= i < |page.items| ensures Newer(page.items[i], p) {
      assert page.items[i] in page.items;
      BelowIsOlder(page.items[i], p);
    }
    var pool := Pool(t, recipientId, cursor);
    DescendingCount(page.items, pool - {p});
    assert pool == (pool - {p}) + {p};
  }

  lemma TopOfTop(rows: seq<Position>, pool: set<Position>, limit: nat)
    requires IsTop(rows, pool, limit + 1)
    ensures IsTop(if |rows| > limit then rows[..limit] else rows, pool, limit)
  {
    if |rows| > limit {
      var items := rows[..limit];
      assert rows == items + rows[limit..];
      forall p, q | p in items && q in pool && q !in items ensures Below(q, p) {
        var i :| 0 <= i < limit && rows[i] == p;
        if q in rows {
          assert q in rows[limit..];
          var j :| limit <= j < |rows| && rows[j] == q;
        }
      }
      forall p | p in items ensures p in pool {
        assert p in rows;
      }
    }
  }

  // ----------------------------------------------- following cursors over time

  // What other requests do to the table.
  datatype Change =
    | Create(id: NoteId, note: Note)
    | Read(id: NoteId, recipientId: nat, now: int)
    | ReadEvery(recipientId: nat, now: int)
    | Delete(id: NoteId, recipientId: nat)

  function Changed(t: Notes, change: Change): Notes {
    match change
    case Create(id, note) => InsertIfAbsent(t, id, note)
    case Read(id, recipientId, now) => ReadOne(t, id, recipientId, now)
    case ReadEvery(recipientId, now) => ReadAll(t, recipientId, now)
    case Delete(id, recipientId) => Deleted(t, id, recipientId)
  }

  // A client's walk through the feed: requests, and changes in between.
  datatype Walk =
    | Start(t: Notes)
    | Meanwhile(before: Walk, change: Change)
    | Fetch(before: Walk, page: Page)

  function TableOf(walk: Walk): Notes {
    match walk
    case Start(t) => t
    case Meanwhile(before, change) => Changed(TableOf(before), change)
    case Fetch(before, _) => TableOf(before)
  }

  function LastPage(walk: Walk): Option<Page> {
    match walk
    case Start(_) => None
    case Meanwhile(before, _) => LastPage(before)
    case Fetch(_, page) => Some(page)
  }

  // The cursor to send next; no cursor to begin with.
  function NextCursor(walk: Walk): Option<Position> {
    if LastPage(walk).None? then None else LastPage(walk).value.nextCursor
  }

  // Serial ids are not handed out twice.
  predicate Used(walk: Walk, id: NoteId) {
    id in TableOf(walk) || (!walk.Start? && Used(walk.before, id))
  }

  // The client asks again only while it is told there is more.
  ghost predicate Proper(walk: Walk, recipientId: nat, limit: nat) {
    match walk
    case Start(_) => true
    case Meanwhile(before, change) =>
      Proper(before, recipientId, limit) && (change.Create? ==> !Used(before, change.id))
    case Fetch(before, page) =>
      && Proper(before, recipientId, limit)
      && (LastPage(before).Some? ==> LastPage(before).value.hasMore)
      && IsPage(TableOf(before), recipientId, limit, NextCursor(before), page)
  }

  function Shown(walk: Walk): seq<Position> {
    match walk
    case Start(_) => []
    case Meanwhile(before, _) => Shown(before)
    case Fetch(before, page) => Shown(before) + page.items
  }

  function Pages(walk: Walk): nat {
    match walk
    case Start(_) => 0
    case Meanwhile(before, _) => Pages(before)
    case Fetch(before, _) => Pages(before) + 1
  }

  /** Whatever others do, a client that was told there is more may ask for the next page, and there is one to get. */
  lemma WalksGoOn(walk: Walk, change: Change, page: Page, recipientId: nat, limit: nat)
    requires Proper(walk, recipientId, limit)
    ensures (change.Create? ==> !Used(walk, change.id)) ==> Proper(Meanwhile(walk, change), recipientId, limit)
    ensures (LastPage(walk).Some? ==> LastPage(walk).value.hasMore)
            && IsPage(TableOf(walk), recipientId, limit, NextCursor(walk), page) ==>
              Proper(Fetch(walk, page), recipientId, limit)
  {
  }

  // The row is in the table at every moment of the walk.
  predicate Throughout(walk: Walk, id: NoteId) {
    id in TableOf(walk) && (walk.Start? || Throughout(walk.before, id))
  }

  lemma InPool(t: Notes, recipientId: nat, cursor: Option<Position>, p: Position)
    ensures p in Pool(t, recipientId, cursor) <==> Matches(t, recipientId, cursor, p.id) && p == PositionOf(t, p.id)
  {
  }

  lemma ChangesKeepPositions(t: Notes, change: Change, id: NoteId)
    requires id in t && id in Changed(t, change) && (change.Create? ==> change.id !in t)
    ensures PositionOf(Changed(t, change), id) == PositionOf(t, id)
    ensures Changed(t, change)[id].recipientId == t[id].recipientId
  {
  }

  // Shown so far: descending, and down to the cursor.
  lemma {:induction false} WalkDescends(walk: Walk, recipientId: nat, limit: nat)
    requires Proper(walk, recipientId, limit) && limit >= 1
    ensures Descending(Shown(walk))
    ensures LastPage(walk).Some? && LastPage(walk).value.hasMore ==>
      Shown(walk) != [] && NextCursor(walk) == Some(Shown(walk)[|Shown(walk)| - 1])
    ensures LastPage(walk).None? ==> Shown(walk) == []
  {
    match walk
    case Start(_) =>
    case Meanwhile(before, _) => WalkDescends(before, recipientId, limit);
    case Fetch(before, page) =>
      WalkDescends(before, recipientId, limit);
      FetchDescends(TableOf(before), recipientId, limit, Shown(before), NextCursor(before), page);
  }

  lemma FetchDescends(
    t: Notes, recipientId: nat, limit: nat, shown: seq<Position>, cursor: Option<Position>, page: Page)
    requires IsPage(t, recipientId, limit, cursor, page) && limit >= 1 && Descending(shown)
    requires shown != [] ==> cursor == Some(shown[|shown| - 1])
    ensures Descending(shown + page.items)
    ensures page.hasMore ==> page.items != [] && page.nextCursor == Some((shown + page.items)[|shown + page.items| - 1])
  {
    forall i, j | 0 <= i < |shown| && 0 <= j < |page.items| ensures Below(page.items[j], shown[i]) {
      assert page.items[j] in page.items;
      InPool(t, recipientId, cursor, page.items[j]);
      BelowIsOrder(page.items[j], shown[|shown| - 1], shown[i]);
    }
  }

  // A row that stays is shown already, or still below the cursor.
  lemma {:induction false} NothingSlipsBy(walk: Walk, recipientId: nat, limit: nat, id: NoteId)
    requires Proper(walk, recipientId, limit) && limit >= 1
    requires Throughout(walk, id) && TableOf(walk)[id].recipientId == recipientId
    ensures var p := PositionOf(TableOf(walk), id);
            LastPage(walk).None? || p in Shown(walk)
            || (LastPage(walk).value.hasMore && NextCursor(walk).Some? && Below(p, NextCursor(walk).value))
  {
    match walk
    case Start(_) =>
    case Meanwhile(before, change) =>
      ChangesKeepPositions(TableOf(before), change, id);
      NothingSlipsBy(before, recipientId, limit, id);
    case Fetch(before, page) =>
      NothingSlipsBy(before, recipientId, limit, id);
      var t := TableOf(before);
      var p := PositionOf(t, id);
      if p !in Shown(before) && p !in page.items {
        InPool(t, recipientId, NextCursor(before), p);
        TopOrBelow(page.items, Pool(t, recipientId, NextCursor(before)), limit, p);
      }
  }

  lemma TopOrBelow(items: seq<Position>, pool: set<Position>, limit: nat, p: Position)
    requires IsTop(items, pool, limit) && p in pool && p !in items && limit >= 1
    ensures |pool| > limit && items != [] && Below(p, items[|items| - 1])
  {
    DescendingCount(items, pool - {p});
    assert pool == (pool - {p}) + {p};
    assert items[|items| - 1] in items;
  }

  lemma {:induction false} DescendingCount(items: seq<Position>, pool: set<Position>)
    requires Descending(items) && forall p | p in items :: p in pool
    ensures |items| <= |pool|
  {
    if items != [] {
      var last := items[|items| - 1];
      var init := items[..|items| - 1];
      forall p | p in init ensures p in pool - {last} {
        var i :| 0 <= i < |init| && init[i] == p;
        BelowIsOrder(last, p, p);
      }
      assert last in items;
      DescendingCount(init, pool - {last});
      assert |pool - {last}| == |pool| - 1;
    }
  }

  // ------------------------------------------------------------ main results

  // What was shown of a row is what the table says of it, as long as it is there.
  lemma {:induction false} ShownIsStable(walk: Walk, recipientId: nat, limit: nat)
    requires Proper(walk, recipientId, limit)
    ensures forall p | p in Shown(walk) ::
              Used(walk, p.id) && (p.id in TableOf(walk) ==> PositionOf(TableOf(walk), p.id) == p)
    ensures forall p, q | p in Shown(walk) && q in Shown(walk) && p.id == q.id :: p == q
  {
    match walk
    case Start(_) =>
    case Meanwhile(before, change) =>
      ShownIsStable(before, recipientId, limit);
      forall p | p in Shown(before) && p.id in TableOf(walk) ensures PositionOf(TableOf(walk), p.id) == p {
        if p.id in TableOf(before) {
          ChangesKeepPositions(TableOf(before), change, p.id);
        }
      }
    case Fetch(before, page) =>
      ShownIsStable(before, recipientId, limit);
      forall p | p in page.items ensures p.id in TableOf(walk) && PositionOf(TableOf(walk), p.id) == p {
        InPool(TableOf(before), recipientId, NextCursor(before), p);
      }
  }

  /** Across all pages rows come strictly newest first and none is shown twice, whatever changed meanwhile. */
  lemma {:induction false} NoRowTwice(walk: Walk, recipientId: nat, limit: nat)
    requires Proper(walk, recipientId, limit) && limit >= 1
    ensures Descending(Shown(walk))
    ensures forall i, j | 0 <= i < j < |Shown(walk)| :: Shown(walk)[i].id != Shown(walk)[j].id
    ensures forall i, j | 0 <= i < j < |Shown(walk)|
                          && IsMoment(Shown(walk)[i].createdAt) && IsMoment(Shown(walk)[j].createdAt) ::
              Newer(Shown(walk)[i], Shown(walk)[j])
  {
    WalkDescends(walk, recipientId, limit);
    ShownIsStable(walk, recipientId, limit);
    forall i, j | 0 <= i < j < |Shown(walk)| ensures Shown(walk)[i].id != Shown(walk)[j].id {
      assert Shown(walk)[i] in Shown(walk) && Shown(walk)[j] in Shown(walk);
      BelowIsOrder(Shown(walk)[i], Shown(walk)[j], Shown(walk)[i]);
    }
    forall i, j | 0 <= i < j < |Shown(walk)|
                  && IsMoment(Shown(walk)[i].createdAt) && IsMoment(Shown(walk)[j].createdAt) {
      BelowIsOlder(Shown(walk)[i], Shown(walk)[j]);
    }
  }

  /** Nobody is shown another's rows: a shown row belongs to the recipient for as long as it is there. */
  lemma {:induction false} ShownAreOwn(walk: Walk, recipientId: nat, limit: nat, p: Position)
    requires Proper(walk, recipientId, limit) && p in Shown(walk)
    ensures p.id in TableOf(walk) ==>
              TableOf(walk)[p.id].recipientId == recipientId && TableOf(walk)[p.id].createdAt == p.createdAt
  {
    match walk
    case Meanwhile(before, change) =>
      ShownAreOwn(before, recipientId, limit, p);
      ShownIsStable(before, recipientId, limit);
      if p.id in TableOf(walk) && p.id in TableOf(before) {
        ChangesKeepPositions(TableOf(before), change, p.id);
      }
    case Fetch(before, page) =>
      if p in page.items {
        InPool(TableOf(before), recipientId, NextCursor(before), p);
      } else {
        ShownAreOwn(before, recipientId, limit, p);
      }
  }

  /** A row of the recipient that was there all along has been shown, exactly once, when hasMore turns false. */
  lemma {:induction false} EveryLastingRowOnce(walk: Walk, recipientId: nat, limit: nat, id: NoteId)
    requires Proper(walk, recipientId, limit) && limit >= 1
    requires LastPage(walk).Some? && !LastPage(walk).value.hasMore
    requires Throughout(walk, id) && TableOf(walk)[id].recipientId == recipientId
    ensures exists i :: 0 <= i < |Shown(walk)| && Shown(walk)[i] == PositionOf(TableOf(walk), id)
                        && forall j | 0 <= j < |Shown(walk)| && j != i :: Shown(walk)[j] != Shown(walk)[i]
  {
    NothingSlipsBy(walk, recipientId, limit, id);
    WalkDescends(walk, recipientId, limit);
    var p := PositionOf(TableOf(walk), id);
    var i :| 0 <= i < |Shown(walk)| && Shown(walk)[i] == p;
    forall j | 0 <= j < |Shown(walk)| && j != i ensures Shown(walk)[j] != Shown(walk)[i] {
      BelowIsOrder(p, p, p);
    }
  }

  predicate Still(walk: Walk) {
    walk.Start? || (walk.Fetch? && Still(walk.before))
  }

  lemma PoolBelow(t: Notes, recipientId: nat, cursor: Position, p: Position)
    ensures p in Pool(t, recipientId, Some(cursor)) <==> p in Pool(t, recipientId, None) && Below(p, cursor)
  {
    InPool(t, recipientId, Some(cursor), p);
    InPool(t, recipientId, None, p);
  }

  // The next page continues the top of the feed.
  lemma NextPageContinues(t: Notes, recipientId: nat, limit: nat, shown: seq<Position>, page: Page)
    requires limit >= 1 && shown != []
    requires IsTop(shown, Pool(t, recipientId, None), |shown|)
    requires IsPage(t, recipientId, limit, Some(shown[|shown| - 1]), page)
    ensures IsTop(shown + page.items, Pool(t, recipientId, None), |shown| + limit)
    ensures page.hasMore <==> |Pool(t, recipientId, None)| > |shown| + limit
  {
    var cursor := shown[|shown| - 1];
    var all, rest := Pool(t, recipientId, None), Pool(t, recipientId, Some(cursor));
    forall p ensures p in rest <==> p in all && p !in shown {
      PoolBelow(t, recipientId, cursor, p);
      assert cursor in shown;
      if p in shown {
        var i :| 0 <= i < |shown| && shown[i] == p;
        BelowIsOrder(p, cursor, p);
      }
    }
    ShownCount(shown, all, rest);
    forall i, j | 0 <= i < |shown| && 0 <= j < |page.items| ensures Below(page.items[j], shown[i]) {
      assert page.items[j] in page.items;
      assert shown[i] in shown;
    }
    var more := shown + page.items;
    forall p, q | p in more && q in all && q !in more ensures Below(q, p) {
      assert q in rest;
    }
  }

  lemma {:induction false} ShownCount(shown: seq<Position>, all: set<Position>, rest: set<Position>)
    requires Descending(shown) && (forall p | p in shown :: p in all)
    requires forall p :: p in rest <==> p in all && p !in shown
    ensures |all| == |shown| + |rest|
  {
    if shown == [] {
      assert rest == all;
    } else {
      var last, init := shown[|shown| - 1], shown[..|shown| - 1];
      assert shown == init + [last];
      forall p | p in init ensures p != last {
        var i :| 0 <= i < |init| && init[i] == p;
        BelowIsOrder(last, p, p);
      }
      ShownCount(init, all, rest + {last});
      assert last !in rest;
    }
  }

  // The first `n` rows of the sorted feed were shown, and the client was told whether that is all.
  ghost predicate Covers(walk: Walk, recipientId: nat, n: nat) {
    var pool := Pool(TableOf(walk), recipientId, None);
    && IsTop(Shown(walk), pool, n)
    && (LastPage(walk).Some? ==> (LastPage(walk).value.hasMore <==> |pool| > n))
    && (LastPage(walk).Some? ==> (NextCursor(walk).Some? <==> |pool| > n))
  }

  lemma {:induction false} NextPageCovers(before: Walk, page: Page, recipientId: nat, limit: nat, n: nat)
    requires limit >= 1 && Proper(Fetch(before, page), recipientId, limit) && Covers(before, recipientId, n)
    requires LastPage(before).None? ==> n == 0
    ensures Covers(Fetch(before, page), recipientId, n + limit)
  {
    WalkDescends(before, recipientId, limit);
    if LastPage(before).None? {
      assert Shown(before) + page.items == page.items;
    } else {
      NextPageContinues(TableOf(before), recipientId, limit, Shown(before), page);
    }
  }

  /** On a table that does not change, k pages show exactly the first k * limit rows of the sorted feed. */
  lemma {:induction false} PagesCoverTheFeed(walk: Walk, recipientId: nat, limit: nat)
    requires Proper(walk, recipientId, limit) && Still(walk) && limit >= 1
    ensures Covers(walk, recipientId, Pages(walk) * limit)
    ensures LastPage(walk).None? <==> Pages(walk) == 0
  {
    if walk.Fetch? {
      PagesCoverTheFeed(walk.before, recipientId, limit);
      NextPageCovers(walk.before, walk.page, recipientId, limit, Pages(walk.before) * limit);
      assert Pages(walk) * limit == Pages(walk.before) * limit + limit;
    }
  }

  lemma {:induction false} WalkEndsWithThePool(walk: Walk, recipientId: nat, limit: nat)
    requires Proper(walk, recipientId, limit) && Still(walk) && limit >= 1
    requires LastPage(walk).Some? && NextCursor(walk).None?
    ensures var pool := Pool(TableOf(walk), recipientId, None);
            && Descending(Shown(walk)) && |Shown(walk)| == |pool| && (forall p :: p in Shown(walk) <==> p in pool)
            && Pages(walk) == if |pool| == 0 then 1 else (|pool| + limit - 1) / limit
  {
    PagesCoverTheFeed(walk, recipientId, limit);
    var pool := Pool(TableOf(walk), recipientId, None);
    var unseen := set p | p in pool && p !in Shown(walk);
    ShownCount(Shown(walk), pool, unseen);
    assert unseen == {};
    forall p | p in pool ensures p in Shown(walk) {
      assert p !in unseen;
    }
    PagesCoverTheFeed(walk.before, recipientId, limit);
    CeilingOf(|pool|, limit, Pages(walk));
  }

  /** The walk ends after max(1, ceil(n / limit)) pages, having shown all n rows of the recipient, newest first. */
  lemma {:induction false} WalkEndsWithTheFeed(walk: Walk, recipientId: nat, limit: nat, own: set<NoteId>)
    requires Proper(walk, recipientId, limit) && Still(walk) && limit >= 1
    requires LastPage(walk).Some? && NextCursor(walk).None?
    requires forall id :: id in own <==> id in TableOf(walk) && TableOf(walk)[id].recipientId == recipientId
    ensures Descending(Shown(walk)) && |Shown(walk)| == |own|
    ensures forall id :: id in own <==> exists i :: 0 <= i < |Shown(walk)| && Shown(walk)[i].id == id
    ensures Pages(walk) == if |own| == 0 then 1 else (|own| + limit - 1) / limit
  {
    WalkEndsWithThePool(walk, recipientId, limit);
    FeedIsOwn(TableOf(walk), recipientId, Shown(walk), own);
  }

  lemma FeedIsOwn(t: Notes, recipientId: nat, shown: seq<Position>, own: set<NoteId>)
    requires forall p :: p in shown <==> p in Pool(t, recipientId, None)
    requires forall id :: id in own <==> id in t && t[id].recipientId == recipientId
    ensures |Pool(t, recipientId, None)| == |own|
    ensures forall id :: id in own <==> exists i :: 0 <= i < |shown| && shown[i].id == id
  {
    PositionsCount(t, own);
    forall p ensures p in Pool(t, recipientId, None) <==> p in Positions(t, own) {
      InPool(t, recipientId, None, p);
    }
    assert Pool(t, recipientId, None) == Positions(t, own);
    forall id ensures id in own <==> exists i :: 0 <= i < |shown| && shown[i].id == id {
      if id in own {
        InPool(t, recipientId, None, Position(t[id].createdAt, id));
        assert Position(t[id].createdAt, id) in shown;
      }
      if i :| 0 <= i < |shown| && shown[i].id == id {
        assert shown[i] in shown;
        InPool(t, recipientId, None, shown[i]);
      }
    }
  }

  ghost function Positions(t: Notes, ids: set<NoteId>): set<Position>
    requires ids <= t.Keys
  {
    set id | id in ids :: Position(t[id].createdAt, id)
  }

  lemma {:induction false} PositionsCount(t: Notes, ids: set<NoteId>)
    requires ids <= t.Keys
    ensures |Positions(t, ids)| == |ids|
    decreases |ids|
  {
    if ids != {} {
      var x :| x in ids;
      PositionsCount(t, ids - {x});
      assert Positions(t, ids) == Positions(t, ids - {x}) + {Position(t[x].createdAt, x)};
    }
  }

  lemma Scaled(a: int, b: int, m: nat)
    ensures a <= b ==> a * m <= b * m
  {
  }

  lemma CeilingOf(n: nat, limit: nat, k: nat)
    requires limit >= 1 && k >= 1 && n <= k * limit && (k > 1 ==> (k - 1) * limit < n)
    ensures k == if n == 0 then 1 else (n + limit - 1) / limit
  {
    if n > 0 {
      var q := (n + limit - 1) / limit;
      assert q * limit <= n + limit - 1 < q * limit + limit;
      assert k * limit - limit == (k - 1) * limit;
      Scaled(q, k - 1, limit);
      Scaled(k + 1, q, limit);
    }
  }
}
