/** Cursor pagination of a monitor's events, newest first (backend/store/events.go). */
module Pagination {
  import opened Model

  // Cursors are opaque to clients; this model keeps the id that a cursor encodes.
  datatype EventPage = EventPage(events: seq<Event>, nextCursor: Option<nat>)

  predicate Matches(e: Event, i: nat, typ: Option<EventType>) {
    e.monitor == i && (typ.None? || e.typ == typ.value)
  }

  // The matching rows below the cursor, in table order.
  function Rows(events: seq<Event>, i: nat, typ: Option<EventType>, cursor: Option<nat>): seq<Event> {
    if |events| == 0 then []
    else
      var e := events[|events| - 1];
      Rows(events[..|events| - 1], i, typ, cursor) +
      if Matches(e, i, typ) && (cursor.None? || e.id < cursor.value) then [e] else []
  }

  function Reversed(events: seq<Event>): (r: seq<Event>)
    ensures |r| == |events| && forall k :: 0 <= k < |r| ==> r[k] == events[|events| - 1 - k]
  {
    seq(|events|, k requires 0 <= k < |events| => events[|events| - 1 - k])
  }

  // ORDER BY id DESC LIMIT, over a table whose ids increase.
  function Newest(rows: seq<Event>, limit: nat): (r: seq<Event>)
    ensures |r| == if |rows| < limit then |rows| else limit
    ensures forall k :: 0 <= k < |r| ==> r[k] == rows[|rows| - 1 - k]
  {
    if |rows| <= limit then Reversed(rows) else Reversed(rows[|rows| - limit..])
  }

  // listEventsByMonitorPage and toEventPage: a full page carries a cursor.
  function ListEvents(events: seq<Event>, i: nat, typ: Option<EventType>, cursor: Option<nat>, limit: nat): EventPage
    requires limit > 0
  {
    var page := Newest(Rows(events, i, typ, cursor), limit);
    EventPage(page, if |page| == limit then Some(page[|page| - 1].id) else None)
  }

  predicate Increasing(events: seq<Event>) {
    forall j, k :: 0 <= j < k < |events| ==> events[j].id < events[k].id
  }

  lemma {:induction false} RowsIncrease(events: seq<Event>, i: nat, typ: Option<EventType>, cursor: Option<nat>)
    requires Increasing(events)
    ensures Increasing(Rows(events, i, typ, cursor))
    ensures forall e :: e in Rows(events, i, typ, cursor) <==>
                        (e in events && Matches(e, i, typ) && (cursor.None? || e.id < cursor.value))
  {
    if |events| > 0 {
      var front, last := events[..|events| - 1], events[|events| - 1];
      RowsIncrease(front, i, typ, cursor);
      forall e | e in front
        ensures e.id < last.id
      {
      }
    }
  }

  // Rows at or after the cursor are not returned.
  lemma {:induction false} NoRows(events: seq<Event>, i: nat, typ: Option<EventType>, cursor: nat)
    requires forall e :: e in events ==> e.id >= cursor
    ensures Rows(events, i, typ, Some(cursor)) == []
  {
    if |events| > 0 { NoRows(events[..|events| - 1], i, typ, cursor); }
  }

  lemma {:induction false} RowsAppend(events: seq<Event>, more: seq<Event>, i: nat, typ: Option<EventType>, cursor: Option<nat>)
    ensures Rows(events + more, i, typ, cursor) == Rows(events, i, typ, cursor) + Rows(more, i, typ, cursor)
  {
    if |more| == 0 {
      assert events + more == events;
    } else {
      assert (events + more)[..|events + more| - 1] == events + more[..|more| - 1];
      RowsAppend(events, more[..|more| - 1], i, typ, cursor);
    }
  }

  // Below the id of a matching row there are exactly the matching rows before it.
  lemma RowsBelow(events: seq<Event>, i: nat, typ: Option<EventType>, m: nat)
    requires Increasing(events) && m < |Rows(events, i, typ, None)|
    ensures Rows(events, i, typ, Some(Rows(events, i, typ, None)[m].id)) == Rows(events, i, typ, None)[..m]
  {
    var all := Rows(events, i, typ, None);
    RowsIncrease(events, i, typ, None);
    var c := all[m].id;
    FilterBelow(events, i, typ, c);
    CutAt(all, i, typ, m);
  }

  lemma {:induction false} FilterBelow(events: seq<Event>, i: nat, typ: Option<EventType>, c: nat)
    ensures Rows(events, i, typ, Some(c)) == Rows(Rows(events, i, typ, None), i, typ, Some(c))
  {
    if |events| > 0 {
      var front, e := events[..|events| - 1], events[|events| - 1];
      FilterBelow(front, i, typ, c);
      var rows := Rows(front, i, typ, None);
      if Matches(e, i, typ) {
        assert (rows + [e])[..|rows|] == rows;
      } else {
        assert rows + [] == rows;
      }
    }
  }

  lemma CutAt(rows: seq<Event>, i: nat, typ: Option<EventType>, m: nat)
    requires Increasing(rows) && m < |rows| && forall e :: e in rows ==> Matches(e, i, typ)
    ensures Rows(rows, i, typ, Some(rows[m].id)) == rows[..m]
  {
    assert rows == rows[..m] + rows[m..];
    RowsAppend(rows[..m], rows[m..], i, typ, Some(rows[m].id));
    NoRows(rows[m..], i, typ, rows[m].id);
    AllRows(rows[..m], i, typ, rows[m].id);
  }

  lemma {:induction false} AllRows(rows: seq<Event>, i: nat, typ: Option<EventType>, c: nat)
    requires forall e :: e in rows ==> Matches(e, i, typ) && e.id < c
    ensures Rows(rows, i, typ, Some(c)) == rows
  {
    if |rows| > 0 { AllRows(rows[..|rows| - 1], i, typ, c); }
  }

  // The table at each read: since the first one rows were only added, with larger ids.
  ghost predicate Grows(tables: nat -> seq<Event>) {
    forall j :: GrownAt(tables, j)
  }

  predicate GrownAt(tables: nat -> seq<Event>, j: nat) {
    Increasing(tables(j)) && tables(0) <= tables(j)
  }

  // A later read below a row of the first table sees the same rows.
  lemma LaterRows(tables: nat -> seq<Event>, j: nat, i: nat, typ: Option<EventType>, m: nat)
    requires Grows(tables) && m < |Rows(tables(0), i, typ, None)|
    ensures Rows(tables(j), i, typ, Some(Rows(tables(0), i, typ, None)[m].id)) == Rows(tables(0), i, typ, None)[..m]
  {
    var first, later := tables(0), tables(j);
    assert GrownAt(tables, 0) && GrownAt(tables, j);
    var c := Rows(first, i, typ, None)[m].id;
    var more := later[|first|..];
    assert first <= later && later == first + more;
    RowsBelow(first, i, typ, m);
    RowsIncrease(first, i, typ, None);
    assert Rows(first, i, typ, None)[m] in first;
    var k :| 0 <= k < |first| && first[k] == Rows(first, i, typ, None)[m];
    forall e | e in more
      ensures e.id >= c
    {
      var l :| 0 <= l < |more| && more[l] == e;
      assert later[|first| + l] == e && later[k] == first[k];
    }
    RowsAppend(first, more, i, typ, Some(c));
    NoRows(more, i, typ, c);
  }

  predicate Descending(events: seq<Event>) {
    forall j, k :: 0 <= j < k < |events| ==> events[j].id > events[k].id
  }

  // The rows that follow after the `got` newest.
  predicate NewestFrom(rows: seq<Event>, got: nat, some: seq<Event>)
    requires got + |some| <= |rows|
  {
    forall k :: 0 <= k < |some| ==> some[k] == rows[|rows| - 1 - got - k]
  }

  // What a read adds after `got` rows, and where its cursor points.
  ghost predicate Continues(rows: seq<Event>, got: nat, page: EventPage, limit: nat)
    requires limit > 0
  {
    got + |page.events| <= |rows| && NewestFrom(rows, got, page.events) &&
    (page.nextCursor.Some? ==> |page.events| == limit && page.nextCursor == Some(rows[|rows| - got - limit].id)) &&
    (page.nextCursor.None? ==> |page.events| < limit && got + |page.events| == |rows|)
  }

  lemma PageContinues(rows: seq<Event>, got: nat, limit: nat)
    requires limit > 0 && got <= |rows|
    ensures var page := Newest(rows[..|rows| - got], limit);
            Continues(rows, got, EventPage(page, if |page| == limit then Some(page[|page| - 1].id) else None), limit)
  {
  }

  lemma ReadContinues(tables: nat -> seq<Event>, j: nat, i: nat, typ: Option<EventType>, cursor: Option<nat>, got: nat, limit: nat)
    requires Grows(tables) && limit > 0 && got <= |Rows(tables(0), i, typ, None)|
    requires got == 0 ==> j == 0 && cursor.None?
    requires got > 0 ==> cursor == Some(Rows(tables(0), i, typ, None)[|Rows(tables(0), i, typ, None)| - got].id)
    ensures Continues(Rows(tables(0), i, typ, None), got, ListEvents(tables(j), i, typ, cursor, limit), limit)
  {
    var rows := Rows(tables(0), i, typ, None);
    if got > 0 { LaterRows(tables, j, i, typ, |rows| - got); }
    assert Rows(tables(j), i, typ, cursor) == rows[..|rows| - got];
    PageContinues(rows, got, limit);
  }

  lemma ReversedDescends(rows: seq<Event>)
    requires Increasing(rows)
    ensures Descending(Reversed(rows)) && forall e :: e in Reversed(rows) <==> e in rows
  {
    forall e | e in rows
      ensures e in Reversed(rows)
    {
      var k :| 0 <= k < |rows| && rows[k] == e;
      assert Reversed(rows)[|rows| - 1 - k] == e;
    }
  }

  // Rows in n full pages.
  function FullPages(n: nat, limit: nat): nat {
    if n == 0 then 0 else FullPages(n - 1, limit) + limit
  }

  lemma {:induction false} FullPagesProduct(n: nat, limit: nat)
    ensures FullPages(n, limit) == n * limit
  {
    if n > 0 {
      FullPagesProduct(n - 1, limit);
      assert n * limit == (n - 1) * limit + limit;
    }
  }

  // After some pages: a full walk so far, and where to go on.
  ghost predicate Walking(rows: seq<Event>, all: seq<Event>, pages: nat, cursor: Option<nat>, limit: nat) {
    pages > 0 && |all| <= |rows| && NewestFrom(rows, 0, all) &&
    (cursor.Some? ==> 0 < |all| == FullPages(pages, limit) && cursor == Some(rows[|rows| - |all|].id)) &&
    (cursor.None? ==> |all| == |rows| && FullPages(pages - 1, limit) <= |all| < FullPages(pages - 1, limit) + limit)
  }

  lemma WalksOn(rows: seq<Event>, all: seq<Event>, pages: nat, cursor: Option<nat>, page: EventPage, limit: nat)
    requires limit > 0 && Walking(rows, all, pages, cursor, limit) && cursor.Some? && Continues(rows, |all|, page, limit)
    ensures Walking(rows, all + page.events, pages + 1, page.nextCursor, limit)
    ensures |all + page.events| <= |rows| && (page.nextCursor.Some? ==> |page.events| > 0)
  {
  }

  lemma WalkStarts(rows: seq<Event>, page: EventPage, limit: nat)
    requires limit > 0 && Continues(rows, 0, page, limit)
    ensures Walking(rows, page.events, 1, page.nextCursor, limit)
  {
  }

  // The next read of a walk that goes on.
  lemma NextRead(tables: nat -> seq<Event>, i: nat, typ: Option<EventType>, all: seq<Event>, pages: nat, cursor: Option<nat>, limit: nat)
    requires Grows(tables) && limit > 0 && cursor.Some? && Walking(Rows(tables(0), i, typ, None), all, pages, cursor, limit)
    ensures var page := ListEvents(tables(pages), i, typ, cursor, limit);
            Walking(Rows(tables(0), i, typ, None), all + page.events, pages + 1, page.nextCursor, limit) &&
            Unread(tables, i, typ, all + page.events) >= 0 &&
            (page.nextCursor.Some? ==> Unread(tables, i, typ, all + page.events) < Unread(tables, i, typ, all))
  {
    ReadContinues(tables, pages, i, typ, cursor, |all|, limit);
    WalksOn(Rows(tables(0), i, typ, None), all, pages, cursor, ListEvents(tables(pages), i, typ, cursor, limit), limit);
  }

  ghost function Unread(tables: nat -> seq<Event>, i: nat, typ: Option<EventType>, all: seq<Event>): int {
    |Rows(tables(0), i, typ, None)| - |all|
  }

  lemma FirstRead(tables: nat -> seq<Event>, i: nat, typ: Option<EventType>, limit: nat)
    requires Grows(tables) && limit > 0
    ensures var page := ListEvents(tables(0), i, typ, None, limit);
            Walking(Rows(tables(0), i, typ, None), page.events, 1, page.nextCursor, limit) && Unread(tables, i, typ, page.events) >= 0
  {
    ReadContinues(tables, 0, i, typ, None, 0, limit);
    WalkStarts(Rows(tables(0), i, typ, None), ListEvents(tables(0), i, typ, None, limit), limit);
  }

  // The client's loop.
  method ReadPages(tables: nat -> seq<Event>, i: nat, typ: Option<EventType>, limit: nat) returns (all: seq<Event>, pages: nat)
    requires Grows(tables) && limit > 0
    ensures Walking(Rows(tables(0), i, typ, None), all, pages, None, limit)
  {
    var page := ListEvents(tables(0), i, typ, None, limit);
    all, pages := page.events, 1;
    FirstRead(tables, i, typ, limit);
    while page.nextCursor.Some?
      invariant Walking(Rows(tables(0), i, typ, None), all, pages, page.nextCursor, limit) && Unread(tables, i, typ, all) >= 0
      decreases Unread(tables, i, typ, all), page.nextCursor.Some?
    {
      NextRead(tables, i, typ, all, pages, page.nextCursor, limit);
      page := ListEvents(tables(pages), i, typ, page.nextCursor, limit);
      all, pages := all + page.events, pages + 1;
    }
  }

  lemma WholeFeed(events: seq<Event>, i: nat, typ: Option<EventType>, all: seq<Event>)
    requires Increasing(events) && |all| == |Rows(events, i, typ, None)| && NewestFrom(Rows(events, i, typ, None), 0, all)
    ensures Descending(all) && forall e :: e in all <==> e in events && Matches(e, i, typ)
  {
    RowsIncrease(events, i, typ, None);
    ReversedDescends(Rows(events, i, typ, None));
    assert all == Reversed(Rows(events, i, typ, None));
  }

  // A client that follows NextCursor until it is empty, while rows are added between its
  // reads, gets exactly the rows that matched at its first read, once each and newest
  // first, in floor(n / limit) + 1 pages.
  method FollowCursors(tables: nat -> seq<Event>, i: nat, typ: Option<EventType>, limit: nat) returns (all: seq<Event>, pages: nat)
    requires Grows(tables) && limit > 0
    ensures Descending(all)
    ensures forall e :: e in all <==> e in tables(0) && e.monitor == i && (typ.Some? ==> e.typ == typ.value)
    ensures |all| == |Rows(tables(0), i, typ, None)|
    ensures pages == |all| / limit + 1
  {
    all, pages := ReadPages(tables, i, typ, limit);
    Quotient(|all|, limit, pages - 1);
    assert GrownAt(tables, 0);
    WholeFeed(tables(0), i, typ, all);
  }

  lemma Quotient(n: nat, limit: nat, p: nat)
    requires limit > 0 && FullPages(p, limit) <= n < FullPages(p, limit) + limit
    ensures p == n / limit
  {
    FullPagesProduct(p, limit);
    var q := n / limit;
    assert n == q * limit + n % limit;
    assert (p - q) * limit == p * limit - q * limit;
    NoMultiple(p - q, limit);
  }

  lemma NoMultiple(d: int, limit: int)
    requires limit > 0 && -limit < d * limit < limit
    ensures d == 0
  {
    if d > 0 { AtLeastOnce(d, limit); } else if d < 0 { AtLeastOnce(-d, limit); }
  }

  lemma AtLeastOnce(d: int, limit: int)
    requires d > 0 && limit > 0
    ensures d * limit >= limit
  {
    assert d * limit == (d - 1) * limit + limit;
  }
}
