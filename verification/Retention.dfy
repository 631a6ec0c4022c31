/** What retention removes: rows older than the cutoff, but no event with a pending alert. */
module Retention {
  import opened Model
  import opened Schedule
  import opened Engine
  import opened Log
  import opened Alerts
  import opened Downtime
  import opened Rollup

  const PRUNE_BATCH_LIMIT: nat := 5000

  // The rows kept, and the number removed, by a filter on age.
  function Young<T>(rows: seq<T>, at: T -> Time, cutoff: Time): seq<T> {
    if |rows| == 0 then []
    else
      var last := rows[|rows| - 1];
      Young(rows[..|rows| - 1], at, cutoff) + if at(last) < cutoff then [] else [last]
  }

  function OldCount<T>(rows: seq<T>, at: T -> Time, cutoff: Time): nat {
    if |rows| == 0 then 0
    else OldCount(rows[..|rows| - 1], at, cutoff) + if at(rows[|rows| - 1]) < cutoff then 1 else 0
  }

  lemma {:induction false} YoungAppend<T>(rows: seq<T>, more: seq<T>, at: T -> Time, cutoff: Time)
    ensures Young(rows + more, at, cutoff) == Young(rows, at, cutoff) + Young(more, at, cutoff)
    ensures OldCount(rows + more, at, cutoff) == OldCount(rows, at, cutoff) + OldCount(more, at, cutoff)
  {
    if |more| == 0 {
      assert rows + more == rows;
    } else {
      assert (rows + more)[..|rows + more| - 1] == rows + more[..|more| - 1];
      YoungAppend(rows, more[..|more| - 1], at, cutoff);
    }
  }

  lemma {:induction false} NoneOld<T>(rows: seq<T>, at: T -> Time, cutoff: Time)
    requires OldCount(rows, at, cutoff) == 0
    ensures Young(rows, at, cutoff) == rows
  {
    if |rows| > 0 { NoneOld(rows[..|rows| - 1], at, cutoff); }
  }

  // Exactly the rows at or after the cutoff are kept, in order.
  lemma {:induction false} YoungIsExact<T>(rows: seq<T>, at: T -> Time, cutoff: Time)
    ensures forall r :: r in Young(rows, at, cutoff) <==> r in rows && at(r) >= cutoff
    ensures |rows| == |Young(rows, at, cutoff)| + OldCount(rows, at, cutoff)
  {
    if |rows| > 0 { YoungIsExact(rows[..|rows| - 1], at, cutoff); }
  }

  // The rows kept are rows of the table, in its order.
  predicate Subsequence<T(==)>(kept: seq<T>, rows: seq<T>)
    decreases |rows|
  {
    |kept| == 0 ||
    (|rows| > 0 &&
     (Subsequence(kept, rows[..|rows| - 1]) ||
      (kept[|kept| - 1] == rows[|rows| - 1] && Subsequence(kept[..|kept| - 1], rows[..|rows| - 1]))))
  }

  lemma {:induction false} YoungInOrder<T>(rows: seq<T>, at: T -> Time, cutoff: Time)
    ensures Subsequence(Young(rows, at, cutoff), rows)
  {
    if |rows| > 0 {
      var young, last := Young(rows[..|rows| - 1], at, cutoff), rows[|rows| - 1];
      YoungInOrder(rows[..|rows| - 1], at, cutoff);
      assert (young + [last])[..|young|] == young && young + [] == young;
    }
  }

  // Each young row is kept as often as it occurs, and no old one.
  lemma {:induction false} YoungAsOften<T>(rows: seq<T>, at: T -> Time, cutoff: Time, r: T)
    ensures multiset(Young(rows, at, cutoff))[r] == if at(r) >= cutoff then multiset(rows)[r] else 0
  {
    if |rows| > 0 {
      var front, last := rows[..|rows| - 1], rows[|rows| - 1];
      YoungAsOften(front, at, cutoff, r);
      assert rows == front + [last];
    }
  }

  function CheckinAt(c: Checkin): Time { c.at }

  function ProbeAt(p: ProbeResult): Time { p.at }

  // ----------------------------------------------------------------------- events

  function PrunableIds(db: Db, cutoff: Time): set<nat> {
    set e | e in db.events && Prunable(db, e, cutoff) :: e.id
  }

  ghost predicate UniqueIds(events: seq<Event>) {
    forall j, k :: 0 <= j < k < |events| ==> events[j].id != events[k].id
  }

  lemma {:induction false} KeepKeepsUnique(events: seq<Event>, doomed: set<nat>)
    requires UniqueIds(events)
    ensures UniqueIds(KeepEvents(events, doomed))
  {
    if |events| > 0 {
      var front := events[..|events| - 1];
      KeepKeepsUnique(front, doomed);
      if events[|events| - 1].id !in doomed {
        var kept, last := KeepEvents(front, doomed), events[|events| - 1];
        forall j | 0 <= j < |kept|
          ensures kept[j].id != last.id
        {
          assert kept[j] in front;
        }
      }
    }
  }

  // Removing events by id removes as many rows as ids.
  lemma {:induction false} KeepCounts(events: seq<Event>, doomed: set<nat>)
    requires UniqueIds(events) && forall id :: id in doomed ==> exists e :: e in events && e.id == id
    ensures |KeepEvents(events, doomed)| == |events| - |doomed|
    decreases |events|
  {
    if |events| == 0 {
      assert doomed == {};
    } else {
      var front, last := events[..|events| - 1], events[|events| - 1];
      var rest := doomed - {last.id};
      forall id | id in rest
        ensures exists e :: e in front && e.id == id
      {
        var e :| e in events && e.id == id;
        assert e in front;
      }
      KeepCounts(front, rest);
      KeepSame(front, rest, doomed);
    }
  }

  lemma {:induction false} KeepSame(events: seq<Event>, a: set<nat>, b: set<nat>)
    requires forall e :: e in events ==> (e.id in a <==> e.id in b)
    ensures KeepEvents(events, a) == KeepEvents(events, b)
  {
    if |events| > 0 { KeepSame(events[..|events| - 1], a, b); }
  }

  lemma {:induction false} KeepAlertsTwice(alerts: seq<Alert>, first: set<nat>, second: set<nat>)
    ensures KeepAlerts(KeepAlerts(alerts, first, true), second, true) == KeepAlerts(alerts, first + second, true)
  {
    if |alerts| > 0 {
      var front, a := alerts[..|alerts| - 1], alerts[|alerts| - 1];
      KeepAlertsTwice(front, first, second);
      if a.eventId !in first {
        var kept := KeepAlerts(alerts, first, true);
        assert kept[..|kept| - 1] == KeepAlerts(front, first, true);
      }
    }
  }

  // Two batches are one.
  lemma PruneTwice(db: Db, first: set<nat>, second: set<nat>)
    ensures PruneDb(PruneDb(db, first), second) == PruneDb(db, first + second)
  {
    KeepTwice(db.events, first, second);
    KeepAlertsTwice(db.alerts, first, second);
  }

  // A batch leaves the other prunable events prunable, and no other.
  lemma PrunableAfter(db: Db, doomed: set<nat>, cutoff: Time)
    requires doomed <= PrunableIds(db, cutoff) && UniqueIds(db.events)
    ensures PrunableIds(PruneDb(db, doomed), cutoff) == PrunableIds(db, cutoff) - doomed
    ensures UniqueIds(PruneDb(db, doomed).events)
  {
    var r := PruneDb(db, doomed);
    KeepKeepsUnique(db.events, doomed);
    forall e | e in r.events
      ensures Prunable(r, e, cutoff) <==> Prunable(db, e, cutoff)
    {
    }
    forall id | id in PrunableIds(db, cutoff) - doomed
      ensures id in PrunableIds(r, cutoff)
    {
      var e :| e in db.events && Prunable(db, e, cutoff) && e.id == id;
      assert e in r.events;
    }
  }

  lemma {:induction false} NothingDoomed(db: Db)
    ensures PruneDb(db, {}) == db
  {
    KeepAll(db.events);
    KeepAllAlerts(db.alerts);
  }

  lemma {:induction false} KeepAll(events: seq<Event>)
    ensures KeepEvents(events, {}) == events
  {
    if |events| > 0 { KeepAll(events[..|events| - 1]); }
  }

  lemma {:induction false} KeepAllAlerts(alerts: seq<Alert>)
    ensures KeepAlerts(alerts, {}, true) == alerts
  {
    if |alerts| > 0 { KeepAllAlerts(alerts[..|alerts| - 1]); }
  }

  lemma SubsetSize(a: set<nat>, b: set<nat>)
    requires a <= b
    ensures |b - a| == |b| - |a|
  {
    assert b == a + (b - a);
  }

  // One batch on the way from db: `gone` is deleted already, `doomed` goes now.
  lemma BatchAdvances(db: Db, gone: set<nat>, doomed: set<nat>, cutoff: Time)
    requires UniqueIds(db.events) && gone <= PrunableIds(db, cutoff) && doomed <= PrunableIds(PruneDb(db, gone), cutoff)
    ensures PruneDb(PruneDb(db, gone), doomed) == PruneDb(db, gone + doomed)
    ensures gone + doomed <= PrunableIds(db, cutoff) && |gone + doomed| == |gone| + |doomed|
    ensures PrunableIds(PruneDb(db, gone + doomed), cutoff) == PrunableIds(db, cutoff) - (gone + doomed)
    ensures |PrunableIds(db, cutoff) - (gone + doomed)| == |PrunableIds(db, cutoff) - gone| - |doomed|
    ensures UniqueIds(PruneDb(db, gone + doomed).events)
  {
    var all := PrunableIds(db, cutoff);
    PruneTwice(db, gone, doomed);
    PrunableAfter(db, gone, cutoff);
    PrunableAfter(db, gone + doomed, cutoff);
    assert all - (gone + doomed) == (all - gone) - doomed;
    SubsetSize(doomed, all - gone);
  }

  // Which events are prunable depends on events and alerts alone.
  lemma SamePrunable(db: Db, r: Db, cutoff: Time)
    requires db.events == r.events && db.alerts == r.alerts
    ensures PrunableIds(db, cutoff) == PrunableIds(r, cutoff)
  {
    forall e | e in db.events
      ensures Prunable(db, e, cutoff) <==> Prunable(r, e, cutoff)
    {
    }
  }

  // The whole prune.
  function Pruned(db: Db, cutoff: Time): Db {
    PruneDb(db, PrunableIds(db, cutoff)).(
      checkins := Young(db.checkins, CheckinAt, cutoff),
      probeResults := Young(db.probeResults, ProbeAt, cutoff))
  }

  // A completed prune takes all of a monitor's old downs and ups when none has a pending
  // alert, and so leaves the stored ones a suffix of its log.
  lemma CompletedPrune(cal: Calendar, w: World, cutoff: Time, i: nat, n: nat, end: Time) returns (m: nat)
    requires LogOk(w) && StoredFrom(w, i, n, end) && Downtime.Increasing(MarksOf(w.log, i))
    requires forall e :: e in w.db.events && e.monitor == i && IsTransition(e.typ) && e.at < cutoff ==> !HasPending(w.db, e)
    ensures Enabled(w, Prune(PrunableIds(w.db, cutoff), cutoff))
    ensures StoredFrom(Do(cal, w, Prune(PrunableIds(w.db, cutoff), cutoff)), i, m, end)
    ensures m >= n && forall k :: n <= k < m ==> MarksOf(w.log, i)[k].at < cutoff
  {
    var doomed := PrunableIds(w.db, cutoff);
    forall e | e in w.db.events
      ensures e.id in doomed <==> Prunable(w.db, e, cutoff)
    {
      if e.id in doomed {
        var d :| d in w.db.events && Prunable(w.db, d, cutoff) && d.id == e.id;
        SameId(w.log, d, e);
      }
    }
    forall k | 0 <= k < |w.log|
      ensures PrunedAt(w.log, w.pruned, doomed, k, i, cutoff)
    {
      if w.log[k].id !in w.pruned { assert w.log[k] in w.db.events; }
    }
    m := CompletedPruneLeavesSuffix(cal, w, doomed, cutoff, i, n, end);
  }

  lemma SameId(log: seq<Event>, d: Event, e: Event)
    requires (forall k :: 0 <= k < |log| ==> log[k].id == k) && d in log && e in log && d.id == e.id
    ensures d == e
  {
  }

  predicate HasPending(db: Db, e: Event) {
    exists a :: a in db.alerts && a.eventId == e.id && a.status.Pending?
  }

  lemma {:induction false} EventsInOrder(events: seq<Event>, doomed: set<nat>)
    ensures Subsequence(KeepEvents(events, doomed), events)
  {
    if |events| > 0 {
      var rest, e := KeepEvents(events[..|events| - 1], doomed), events[|events| - 1];
      EventsInOrder(events[..|events| - 1], doomed);
      if e.id !in doomed { assert (rest + [e])[..|rest|] == rest; }
    }
  }

  lemma {:induction false} AlertsInOrder(alerts: seq<Alert>, doomed: set<nat>)
    ensures Subsequence(KeepAlerts(alerts, doomed, true), alerts)
  {
    if |alerts| > 0 {
      var rest, a := KeepAlerts(alerts[..|alerts| - 1], doomed, true), alerts[|alerts| - 1];
      AlertsInOrder(alerts[..|alerts| - 1], doomed);
      if a.eventId !in doomed { assert (rest + [a])[..|rest|] == rest; }
    }
  }

  // A stored event that is older than the cutoff and has no pending alert.
  predicate Expendable(db: Db, e: Event, cutoff: Time) {
    e in db.events && e.at < cutoff && !HasPending(db, e)
  }

  // A completed prune, row by row: of check-ins and probe results each row at or after the
  // cutoff stays, as often as it was there; of events all but the expendable ones, and of
  // alerts those that refer to none of these. What stays keeps its order.
  ghost predicate PrunedByRow(before: Db, after: Db, cutoff: Time) {
    after.monitors == before.monitors && after.nextEvent == before.nextEvent && after.nextAlert == before.nextAlert &&
    Subsequence(after.checkins, before.checkins) && Subsequence(after.probeResults, before.probeResults) &&
    (forall c: Checkin :: multiset(after.checkins)[c] == if c.at >= cutoff then multiset(before.checkins)[c] else 0) &&
    (forall p: ProbeResult :: multiset(after.probeResults)[p] == if p.at >= cutoff then multiset(before.probeResults)[p] else 0) &&
    EventsPrunedByRow(before, after, cutoff)
  }

  ghost predicate EventsPrunedByRow(before: Db, after: Db, cutoff: Time) {
    Subsequence(after.events, before.events) && Subsequence(after.alerts, before.alerts) &&
    (forall e :: e in after.events <==> e in before.events && !Expendable(before, e, cutoff)) &&
    (forall a :: a in after.alerts <==> a in before.alerts && !exists e :: Expendable(before, e, cutoff) && e.id == a.eventId)
  }

  lemma EventsByRow(db: Db, cutoff: Time)
    requires UniqueIds(db.events)
    ensures EventsPrunedByRow(db, PruneDb(db, PrunableIds(db, cutoff)), cutoff)
  {
    var doomed := PrunableIds(db, cutoff);
    EventsInOrder(db.events, doomed);
    AlertsInOrder(db.alerts, doomed);
    forall e | e in db.events
      ensures e.id in doomed <==> Expendable(db, e, cutoff)
    {
      if e.id in doomed {
        var d :| d in db.events && Prunable(db, d, cutoff) && d.id == e.id;
        assert d == e;
      }
    }
    forall a | a in db.alerts
      ensures a.eventId in doomed <==> exists e :: Expendable(db, e, cutoff) && e.id == a.eventId
    {
      if a.eventId in doomed {
        var d :| d in db.events && Prunable(db, d, cutoff) && d.id == a.eventId;
        assert Expendable(db, d, cutoff);
      }
    }
  }

  // What the store's prune leaves.
  lemma PruneByRow(db: Db, cutoff: Time)
    requires UniqueIds(db.events)
    ensures PrunedByRow(db, Pruned(db, cutoff), cutoff)
  {
    YoungInOrder(db.checkins, CheckinAt, cutoff);
    YoungInOrder(db.probeResults, ProbeAt, cutoff);
    forall c: Checkin
      ensures multiset(Young(db.checkins, CheckinAt, cutoff))[c] == if c.at >= cutoff then multiset(db.checkins)[c] else 0
    {
      YoungAsOften(db.checkins, CheckinAt, cutoff, c);
    }
    forall p: ProbeResult
      ensures multiset(Young(db.probeResults, ProbeAt, cutoff))[p] == if p.at >= cutoff then multiset(db.probeResults)[p] else 0
    {
      YoungAsOften(db.probeResults, ProbeAt, cutoff, p);
    }
    EventsByRow(db, cutoff);
  }

  // Retention removes exactly the old events without a pending alert and neither adds nor
  // removes a pending alert, and every alert kept still has its event.
  lemma PruningIsSafe(db: Db, cutoff: Time)
    requires AlertsOk(db) && UniqueIds(db.events)
    ensures forall e :: e in db.events ==> (e in Pruned(db, cutoff).events <==> e.at >= cutoff || HasPending(db, e))
    ensures forall e :: e in Pruned(db, cutoff).events ==> e in db.events
    ensures forall a: Alert :: a.status.Pending? ==> (a in Pruned(db, cutoff).alerts <==> a in db.alerts)
    ensures forall a :: a in Pruned(db, cutoff).alerts ==> Refers(Pruned(db, cutoff).events, a)
    ensures AlertsOk(Pruned(db, cutoff))
  {
    var doomed, r := PrunableIds(db, cutoff), Pruned(db, cutoff);
    PruneKeepsAlerts(db, doomed);
    forall e | e in db.events
      ensures e.id in doomed <==> Prunable(db, e, cutoff)
    {
      if e.id in doomed {
        var d :| d in db.events && Prunable(db, d, cutoff) && d.id == e.id;
        assert d == e;
      }
    }
    forall a | a in db.alerts && a.status.Pending?
      ensures a.eventId !in doomed
    {
    }
  }
}
