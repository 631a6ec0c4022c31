/** The store: database tables updated in place, one transaction at a time
  * (backend/store and the statements of backend/db).
  */
module Storage {
  import opened Model
  import opened Schedule
  import opened Rows
  import opened Outbox
  import opened Engine
  import opened Selection
  import opened Effects
  import opened Ticks
  import opened Acceptance
  import opened DailyStats
  import opened Downtime
  import opened Retention

  datatype Failure = NotFound | BadSchedule(field: InvalidField)

  datatype EvalResult = EvalResult(claimed: nat, toLate: nat, toDown: nat)

  datatype CheckinResult = CheckinResult(state: State, transition: Transition, nextDeadline: Option<Time>)

  // ----------------------------------------------------------------- specifications

  // A claimed alert is joined with its monitor and its event.
  predicate Joined(db: Db, a: Alert) {
    a.monitor < |db.monitors| && exists e :: e in db.events && e.id == a.eventId
  }

  function AlertKeys(db: Db, now: Time): (keys: seq<Option<Time>>)
    ensures |keys| == |db.alerts|
    ensures forall k :: 0 <= k < |keys| ==>
              keys[k] == if AlertDue(db.alerts[k], now) && Joined(db, db.alerts[k]) then Some(db.alerts[k].nextAttemptAt) else None
  {
    seq(|db.alerts|, k requires 0 <= k < |db.alerts| =>
      if AlertDue(db.alerts[k], now) && Joined(db, db.alerts[k]) then Some(db.alerts[k].nextAttemptAt) else None)
  }

  // claimDueAlerts, by position in the table.
  function DueAlerts(db: Db, now: Time, limit: nat): (ids: seq<nat>)
    ensures forall k :: 0 <= k < |ids| ==> ids[k] < |db.alerts| && AlertDue(db.alerts[ids[k]], now) && Joined(db, db.alerts[ids[k]])
    ensures Distinct(ids) && |ids| <= limit
  {
    TakeEarliest(AlertKeys(db, now), limit)
  }

  lemma ClaimsEarliestAlerts(db: Db, now: Time, limit: nat)
    ensures var rows := DueAlerts(db, now, limit);
            (forall j, k :: 0 <= j < k < |rows| ==> db.alerts[rows[j]].nextAttemptAt <= db.alerts[rows[k]].nextAttemptAt) &&
            (forall r :: 0 <= r < |db.alerts| && AlertDue(db.alerts[r], now) && Joined(db, db.alerts[r]) && r !in rows ==>
               |rows| == limit && forall k :: 0 <= k < |rows| ==> db.alerts[rows[k]].nextAttemptAt <= db.alerts[r].nextAttemptAt)
  {
    var rows, keys := DueAlerts(db, now, limit), AlertKeys(db, now);
    forall j, k | 0 <= j < k < |rows|
      ensures db.alerts[rows[j]].nextAttemptAt <= db.alerts[rows[k]].nextAttemptAt
    {
      assert keys[rows[j]].value <= keys[rows[k]].value;
    }
    forall r, k | 0 <= r < |db.alerts| && AlertDue(db.alerts[r], now) && Joined(db, db.alerts[r]) && r !in rows && 0 <= k < |rows|
      ensures db.alerts[rows[k]].nextAttemptAt <= db.alerts[r].nextAttemptAt
    {
      assert keys[rows[k]].value <= keys[r].value;
    }
    forall r | 0 <= r < |db.alerts| && AlertDue(db.alerts[r], now) && Joined(db, db.alerts[r]) && r !in rows
      ensures |rows| == limit
    {
      assert keys[r].Some?;
    }
  }

  lemma {:induction false} LogEventsAppend(db: Db, i: nat, a: seq<Emit>, b: seq<Emit>, at: Time)
    ensures LogEvents(db, i, a + b, at) == LogEvents(LogEvents(db, i, a, at), i, b, at)
    decreases |a|
  {
    if |a| == 0 {
      assert a + b == b;
    } else {
      assert (a + b)[1..] == a[1..] + b;
      LogEventsAppend(LogEvent(db, i, a[0], at), i, a[1..], b, at);
    }
  }

  // Writing events and updating monitors commute.
  lemma {:induction false} LogEventsAnyMonitors(db: Db, ms: seq<Monitor>, i: nat, emits: seq<Emit>, at: Time)
    ensures LogEvents(db.(monitors := ms), i, emits, at) == LogEvents(db, i, emits, at).(monitors := ms)
    decreases |emits|
  {
    if |emits| > 0 { LogEventsAnyMonitors(LogEvent(db, i, emits[0], at), ms, i, emits[1..], at); }
  }

  // A probe's transaction as the statements it is made of.
  lemma ProbeByStatement(db: Db, i: nat, o: ProbeOutcome, at: Time)
    requires i < |db.monitors|
    ensures var c := ProbeChange(db.monitors[i], o);
            var (state, streak) := NextProbeState(o);
            var probed := db.monitors[i].(state := state, failStreak := streak, nextProbeAt := Some(o.nextProbeAt));
            var first := LogEvents(db.(monitors := db.monitors[i := probed]), i, TransitionEmits(o), at);
            Apply(db, i, c, at) == LogEvents(first, i, TlsEmits(o), at).(monitors := db.monitors[i := c.row])
  {
    var c := ProbeChange(db.monitors[i], o);
    var (state, streak) := NextProbeState(o);
    var probed := db.monitors[i].(state := state, failStreak := streak, nextProbeAt := Some(o.nextProbeAt));
    var start := db.(monitors := db.monitors[i := probed]);
    LogEventsAppend(start, i, TransitionEmits(o), TlsEmits(o), at);
    LogEventsAnyMonitors(start, db.monitors[i := c.row], i, c.emits, at);
  }

  // The statistics of monitor j after check-ins of the first `checked` monitors, probes
  // of the first `probed` and outages of the first `timed` have been folded in.
  predicate Merged(byMonitor: map<nat, DailyStat>, db: Db, day: int, j: nat, checked: nat, probed: nat, timed: nat) {
    var (n, failed) := if j < checked then CheckinCounts(db.checkins, j, day) else (0, 0);
    var (p, failures) := if j < probed then ProbeCounts(db.probeResults, j, day) else (0, 0);
    var outage := j < timed && HasOutage(db.events, j, day * DAY, day * DAY + DAY);
    (j in byMonitor <==> n > 0 || p > 0 || outage) &&
    (j in byMonitor ==>
       byMonitor[j] == DailyStat(if p > 0 then p else n, if p > 0 then failures else failed,
                                 if outage then RollupDowntime(db.events, j, day * DAY, day * DAY + DAY) else 0))
  }

  ghost predicate MergedAll(byMonitor: map<nat, DailyStat>, db: Db, day: int, checked: nat, probed: nat, timed: nat) {
    (forall j :: j in byMonitor ==> j < |db.monitors|) &&
    (forall j :: 0 <= j < |db.monitors| ==> Merged(byMonitor, db, day, j, checked, probed, timed))
  }

  lemma MergedIsStat(byMonitor: map<nat, DailyStat>, db: Db, day: int, j: nat)
    requires j < |db.monitors| && MergedAll(byMonitor, db, day, |db.monitors|, |db.monitors|, |db.monitors|)
    ensures StatFor(db, j, day) == if j in byMonitor then Some(byMonitor[j]) else None
  {
    assert Merged(byMonitor, db, day, j, |db.monitors|, |db.monitors|, |db.monitors|);
    if !HasOutage(db.events, j, day * DAY, day * DAY + DAY) { NoOutageNoDowntime(db, j, day); }
  }

  predicate Active(db: Db, i: nat, day: int) {
    |CheckinsOn(db.checkins, i, day)| > 0 || |ProbesOn(db.probeResults, i, day)| > 0 ||
    HasOutage(db.events, i, day * 86_400, (day + 1) * 86_400)
  }

  function ActiveOn(db: Db, day: int): set<nat> {
    set i: nat | i < |db.monitors| && Active(db, i, day)
  }

  lemma MergedAreActive(byMonitor: map<nat, DailyStat>, db: Db, day: int)
    requires MergedAll(byMonitor, db, day, |db.monitors|, |db.monitors|, |db.monitors|)
    ensures byMonitor.Keys == ActiveOn(db, day)
  {
    forall j: nat
      ensures j in byMonitor <==> j in ActiveOn(db, day)
    {
      if j < |db.monitors| {
        MergedIsStat(byMonitor, db, day, j);
        StatInSizes(db, j, day);
      }
    }
  }

  // One row of the table after a day's rollup: an active monitor's row of that day in
  // numbers of stored rows, any other as it was.
  predicate RolledUp(stats: map<(nat, int), DailyStat>, after: map<(nat, int), DailyStat>, db: Db, day: int, i: nat, d: int) {
    if d == day && i < |db.monitors| && Active(db, i, d) then
      var probes := |ProbesOn(db.probeResults, i, d)|;
      (i, d) in after &&
      after[(i, d)] ==
      DailyStat(if probes > 0 then probes else |CheckinsOn(db.checkins, i, d)|,
                if probes > 0 then |FailedProbesOn(db.probeResults, i, d)| else |FailedCheckinsOn(db.checkins, i, d)|,
                RollupDowntime(db.events, i, d * 86_400, (d + 1) * 86_400))
    else ((i, d) in after <==> (i, d) in stats) && ((i, d) in after ==> after[(i, d)] == stats[(i, d)])
  }

  lemma UpsertRollsUp(stats: map<(nat, int), DailyStat>, db: Db, day: int)
    ensures forall i: nat, d: int :: RolledUp(stats, Upserted(stats, db, day, |db.monitors|), db, day, i, d)
  {
    forall i: nat, d: int
      ensures RolledUp(stats, Upserted(stats, db, day, |db.monitors|), db, day, i, d)
    {
      UpsertedRow(stats, db, day, |db.monitors|, (i, d));
      StatInSizes(db, i, d);
    }
  }

  // Folding one query row for monitor i keeps all the others merged.
  lemma MergeOne(before: map<nat, DailyStat>, after: map<nat, DailyStat>, db: Db, day: int, i: nat,
                 checked: nat, probed: nat, timed: nat, nowChecked: nat, nowProbed: nat, nowTimed: nat)
    requires MergedAll(before, db, day, checked, probed, timed) && i < |db.monitors|
    requires after == before || (i in after && after == before[i := after[i]])
    requires nowChecked == checked || nowChecked - 1 == checked == i
    requires nowProbed == probed || nowProbed - 1 == probed == i
    requires nowTimed == timed || nowTimed - 1 == timed == i
    requires Merged(after, db, day, i, nowChecked, nowProbed, nowTimed)
    ensures MergedAll(after, db, day, nowChecked, nowProbed, nowTimed)
  {
    forall j | 0 <= j < |db.monitors|
      ensures Merged(after, db, day, j, nowChecked, nowProbed, nowTimed)
    {
      if j != i { assert Merged(before, db, day, j, checked, probed, timed); }
    }
  }

  // Ids of prunable events, at most `limit` of them.
  method PickPrunable(db: Db, cutoff: Time, limit: nat) returns (picked: set<nat>)
    ensures picked <= PrunableIds(db, cutoff)
    ensures |picked| == if limit < |PrunableIds(db, cutoff)| then limit else |PrunableIds(db, cutoff)|
  {
    picked := {};
    var k := 0;
    while k < |db.events| && |picked| < limit
      invariant k <= |db.events| && |picked| <= limit
      invariant picked == set e | e in db.events[..k] && Prunable(db, e, cutoff) :: e.id
    {
      assert db.events[..k + 1] == db.events[..k] + [db.events[k]];
      if Prunable(db, db.events[k], cutoff) {
        picked := picked + {db.events[k].id};
      }
      k := k + 1;
    }
    assert k == |db.events| ==> db.events[..k] == db.events;
    SubsetSize(picked, PrunableIds(db, cutoff));
  }

  // Removes at most `limit` old rows and nothing else.
  method DropOld<T>(rows: seq<T>, at: T -> Time, cutoff: Time, limit: nat) returns (kept: seq<T>, n: nat)
    ensures multiset(kept) <= multiset(rows) && Young(kept, at, cutoff) == Young(rows, at, cutoff)
    ensures OldCount(kept, at, cutoff) == OldCount(rows, at, cutoff) - n
    ensures n == if limit < OldCount(rows, at, cutoff) then limit else OldCount(rows, at, cutoff)
  {
    kept, n := [], 0;
    for k := 0 to |rows|
      invariant multiset(kept) <= multiset(rows[..k])
      invariant Young(kept, at, cutoff) == Young(rows[..k], at, cutoff)
      invariant OldCount(kept, at, cutoff) == OldCount(rows[..k], at, cutoff) - n
      invariant n == if limit < OldCount(rows[..k], at, cutoff) then limit else OldCount(rows[..k], at, cutoff)
    {
      assert rows[..k + 1][..k] == rows[..k] && rows[..k + 1] == rows[..k] + [rows[k]];
      if at(rows[k]) < cutoff && n < limit {
        n := n + 1;
      } else {
        assert (kept + [rows[k]])[..|kept|] == kept;
        kept := kept + [rows[k]];
      }
    }
    assert rows[..|rows|] == rows;
  }

  class Store {
    var monitors: seq<Monitor>
    var checkins: seq<Checkin>
    var probeResults: seq<ProbeResult>
    var events: seq<Event>
    var alerts: seq<Alert>
    var nextEvent: nat
    var nextAlert: nat
    var dailyStats: map<(nat, int), DailyStat>

    constructor ()
      ensures Snapshot() == EMPTY.db && dailyStats == map[]
    {
      monitors, checkins, probeResults, events, alerts, nextEvent, nextAlert := [], [], [], [], [], 0, 0;
      dailyStats := map[];
    }

    function Snapshot(): Db
      reads this
    {
      Db(monitors, checkins, probeResults, events, alerts, nextEvent, nextAlert)
    }

    // A transaction that returns an error is rolled back.
    method Rollback(db: Db)
      modifies this
      ensures dailyStats == old(dailyStats)
      ensures Snapshot() == db
    {
      monitors, checkins, probeResults, events, alerts := db.monitors, db.checkins, db.probeResults, db.events, db.alerts;
      nextEvent, nextAlert := db.nextEvent, db.nextAlert;
    }

    // -------------------------------------------------------------- single statements

    method InsertEvent(i: nat, typ: EventType, message: Message, meta: Option<Instant>, now: Time) returns (event: Event)
      modifies this`events, this`nextEvent
      ensures event == Event(old(nextEvent), i, typ, message, meta, now)
      ensures events == old(events) + [event] && nextEvent == old(nextEvent) + 1
    {
      event := Event(nextEvent, i, typ, message, meta, now);
      events, nextEvent := events + [event], nextEvent + 1;
    }

    method InsertAlert(i: nat, eventId: nat, now: Time)
      modifies this`alerts, this`nextAlert
      ensures alerts == old(alerts) + [Alert(old(nextAlert), i, eventId, Pending, 0, now, None, now, false)]
      ensures nextAlert == old(nextAlert) + 1
    {
      alerts, nextAlert := alerts + [Alert(nextAlert, i, eventId, Pending, 0, now, None, now, false)], nextAlert + 1;
    }

    method UpdateMonitor(i: nat, row: Monitor)
      requires i < |monitors|
      modifies this`monitors
      ensures monitors == old(monitors)[i := row]
    {
      monitors := monitors[i := row];
    }

    // recordEvent: a timeline event without an alert.
    method RecordEvent(i: nat, typ: EventType, message: Message, now: Time)
      modifies this`events, this`nextEvent
      ensures Snapshot() == LogEvent(old(Snapshot()), i, Emit(typ, message, None, false), now)
    {
      var _ := InsertEvent(i, typ, message, None, now);
    }

    // recordTransition: a timeline event and its pending alert.
    method RecordTransition(i: nat, typ: EventType, message: Message, meta: Option<Instant>, now: Time)
      modifies this`events, this`nextEvent, this`alerts, this`nextAlert
      ensures Snapshot() == LogEvent(old(Snapshot()), i, Emit(typ, message, meta, true), now)
    {
      var event := InsertEvent(i, typ, message, meta, now);
      InsertAlert(i, event.id, now);
    }

    method CreateMonitor(m: Monitor) returns (i: nat)
      requires Newborn(m)
      modifies this`monitors
      ensures i == |old(monitors)| && monitors == old(monitors) + [m]
    {
      i := |monitors|;
      monitors := monitors + [m];
    }

    // -------------------------------------------------------------------- check-ins

    method ApplySuccess(cal: Calendar, i: nat, now: Time) returns (r: Result<CheckinResult, Failure>)
      requires i < |monitors|
      modifies this
      ensures dailyStats == old(dailyStats)
      ensures var c := CheckinChange(cal, old(monitors)[i], Success, now);
              match c
              case Err(field) => r == Err(BadSchedule(field)) && Snapshot() == old(Snapshot())
              case Ok(change) =>
                Snapshot() == Apply(old(Snapshot()), i, change, now) &&
                r == Ok(CheckinResult(Up, if old(monitors)[i].state.Down? then WentUp else NoTransition, change.row.nextDeadline))
    {
      var m := monitors[i];
      var deadline := NextDeadlineFor(cal, m, now);
      if deadline.Err? {
        return Err(BadSchedule(deadline.error));
      }
      UpdateMonitor(i, UpdateOnCheckin(m, Up, now, deadline.value, 0));
      r := Ok(CheckinResult(Up, if m.state.Down? then WentUp else NoTransition, deadline.value));
      if m.state.Down? {
        LogOne(Snapshot(), i, Emit(UpEvent, Recovered, None, true), now);
        RecordTransition(i, UpEvent, Recovered, None, now);
      }
    }

    method ApplyFail(cal: Calendar, i: nat, now: Time) returns (r: CheckinResult)
      requires i < |monitors|
      modifies this
      ensures dailyStats == old(dailyStats)
      ensures CheckinChange(cal, old(monitors)[i], Fail, now).Ok?
      ensures Snapshot() == Apply(old(Snapshot()), i, CheckinChange(cal, old(monitors)[i], Fail, now).value, now)
      ensures r == CheckinResult(Down, if old(monitors)[i].state.Down? then NoTransition else WentDown, None)
    {
      var m := monitors[i];
      UpdateMonitor(i, UpdateOnCheckin(m, Down, now, None, m.failStreak + 1));
      r := CheckinResult(Down, if m.state.Down? then NoTransition else WentDown, None);
      if !m.state.Down? {
        LogOne(Snapshot(), i, Emit(DownEvent, ReportedFailure, None, true), now);
        RecordTransition(i, DownEvent, ReportedFailure, None, now);
      }
    }

    // One ping in one transaction. An unknown monitor, or a success on a schedule that is
    // not accepted, leaves no trace. A start is logged and changes nothing else. A success
    // takes the monitor up and arms it from now, with an `up` event and its alert if it was
    // down; a failure takes it down without a deadline, with a `down` event and its alert
    // unless it was down. The new tables are those of the engine's check-in step.
    method RecordCheckin(cal: Calendar, i: nat, kind: CheckinKind, now: Time) returns (r: Result<CheckinResult, Failure>)
      modifies this
      ensures dailyStats == old(dailyStats)
      ensures i >= |old(monitors)| ==> r == Err(NotFound) && Snapshot() == old(Snapshot())
      ensures i < |old(monitors)| && kind.Success? && !Accepts(cal, old(monitors)[i]) ==>
                r.Err? && r.error.BadSchedule? && Blames(cal, old(monitors)[i], r.error.field) && Snapshot() == old(Snapshot())
      ensures i < |old(monitors)| && r.Ok? ==>
                checkins == old(checkins) + [Checkin(i, kind, now)] && probeResults == old(probeResults)
      ensures i < |old(monitors)| && kind.Start? ==>
                r == Ok(CheckinResult(old(monitors)[i].state, NoTransition, None)) &&
                monitors == old(monitors) && Quiet(old(Snapshot()), Snapshot())
      ensures i < |old(monitors)| && kind.Success? && Accepts(cal, old(monitors)[i]) ==>
                var m := old(monitors)[i];
                r == Ok(CheckinResult(Up, if m.state.Down? then WentUp else NoTransition, ArmedAt(cal, m, now))) &&
                monitors == old(monitors)[i := m.(state := Up, lastCheckinAt := Some(now), nextDeadline := ArmedAt(cal, m, now),
                                                  failStreak := 0, pausedAt := if m.autoResume then None else m.pausedAt)] &&
                Announced(old(Snapshot()), Snapshot(), i, if m.state.Down? then [Notice(UpEvent, Recovered, None)] else [], now)
      ensures i < |old(monitors)| && kind.Fail? ==>
                var m := old(monitors)[i];
                r == Ok(CheckinResult(Down, if m.state.Down? then NoTransition else WentDown, None)) &&
                monitors == old(monitors)[i := m.(state := Down, lastCheckinAt := Some(now), nextDeadline := None,
                                                  failStreak := m.failStreak + 1, pausedAt := if m.autoResume then None else m.pausedAt)] &&
                Announced(old(Snapshot()), Snapshot(), i, if m.state.Down? then [] else [Notice(DownEvent, ReportedFailure, None)], now)
      ensures i < |old(monitors)| ==>
                match CheckinChange(cal, old(monitors)[i], kind, now)
                case Err(field) => r == Err(BadSchedule(field))
                case Ok(change) => Snapshot() == Apply(old(Snapshot()).(checkins := old(checkins) + [Checkin(i, kind, now)]), i, change, now)
    {
      if i >= |monitors| {
        return Err(NotFound);
      }
      var saved := Snapshot();
      checkins := checkins + [Checkin(i, kind, now)];
      DeadlineIffAccepted(cal, monitors[i], now);
      if CheckinChange(cal, monitors[i], kind, now).Ok? { CheckinAnnounces(cal, saved, i, kind, now); }
      match kind {
        case Start =>
          r := Ok(CheckinResult(monitors[i].state, NoTransition, None));
        case Success =>
          r := ApplySuccess(cal, i, now);
          if r.Err? {
            Rollback(saved);
          }
        case Fail =>
          var failed := ApplyFail(cal, i, now);
          r := Ok(failed);
      }
    }

    // -------------------------------------------------------------------- scheduler

    // evaluateOne on the claimed row, counting into the result.
    method EvaluateOne(i: nat, claimed: Monitor, now: Time, before: EvalResult) returns (res: EvalResult)
      requires i < |monitors|
      modifies this
      ensures dailyStats == old(dailyStats)
      ensures Snapshot() == Apply(old(Snapshot()), i, EvaluateChange(claimed, old(monitors)[i]), now)
      ensures res.claimed == before.claimed
      ensures |events| - |old(events)| == (res.toLate - before.toLate) + (res.toDown - before.toDown)
      ensures |alerts| - |old(alerts)| == res.toDown - before.toDown
    {
      res := before;
      if claimed.nextDeadline.None? {
        return;
      }
      match claimed.state {
        case Up =>
          UpdateMonitor(i, monitors[i].(state := Late, nextDeadline := Some(claimed.nextDeadline.value + Grace(claimed))));
          LogOne(Snapshot(), i, Emit(LateEvent, IsLate, None, false), now);
          RecordEvent(i, LateEvent, IsLate, now);
          res := res.(toLate := res.toLate + 1);
        case Late =>
          UpdateMonitor(i, monitors[i].(state := Down, nextDeadline := None, failStreak := monitors[i].failStreak + 1));
          LogOne(Snapshot(), i, Emit(DownEvent, MissedDeadline, None, true), now);
          RecordTransition(i, DownEvent, MissedDeadline, None, now);
          res := res.(toDown := res.toDown + 1);
        case _ =>
      }
    }

    // One scheduler transaction. It claims the unpaused rows in `up` or `late` whose deadline
    // lies before `now`, earliest first up to the limit: one is left out only for `limit`
    // others that are due no later. Each claimed row takes one step with its event, and its
    // alert when it goes down; every other row stays as it is. The result counts what was
    // written.
    method EvaluateDueMonitors(now: Time, limit: nat) returns (res: EvalResult, ghost ids: seq<nat>)
      modifies this
      ensures dailyStats == old(dailyStats)
      ensures EarliestOverdue(old(monitors), ids, now, limit)
      ensures Ticked(old(Snapshot()), Snapshot(), ids, now)
      ensures res.claimed == |ids| == res.toLate + res.toDown && res.toDown == |LatePositions(old(monitors), ids)|
      ensures ids == DueIds(old(monitors), now, limit)
      ensures Snapshot() == EvaluateDb(old(Snapshot()), Engine.Snapshot(old(monitors), ids), now)
    {
      var due := ClaimDueMonitors(now, limit);
      ids := due;
      TickInColumns(Snapshot(), ids, |ids|, now);
      assert ids[..|ids|] == ids;
      var rows := Engine.Snapshot(monitors, due);
      assert rows[..|ids|] == rows;
      res := EvaluateClaimed(rows, now);
    }

    // claimDueMonitors: the positions of the rows to step, in order.
    method ClaimDueMonitors(now: Time, limit: nat) returns (ids: seq<nat>)
      ensures EarliestOverdue(monitors, ids, now, limit) && ids == DueIds(monitors, now, limit)
    {
      ClaimInColumns(monitors, now, limit);
      ids := DueIds(monitors, now, limit);
    }

    // The loop over the claimed rows.
    method EvaluateClaimed(rows: seq<Claimed>, now: Time) returns (res: EvalResult)
      requires forall k :: 0 <= k < |rows| ==> rows[k].id < |monitors|
      modifies this
      ensures dailyStats == old(dailyStats)
      ensures Snapshot() == EvaluateDb(old(Snapshot()), rows, now)
      ensures res.claimed == |rows| && |events| - |old(events)| == res.toLate + res.toDown
      ensures |alerts| - |old(alerts)| == res.toDown
    {
      res := EvalResult(|rows|, 0, 0);
      var k := 0;
      while k < |rows|
        invariant k <= |rows| && res.claimed == |rows|
        invariant Snapshot() == EvaluateDb(old(Snapshot()), rows[..k], now)
        invariant |events| - |old(events)| == res.toLate + res.toDown
        invariant |alerts| - |old(alerts)| == res.toDown && dailyStats == old(dailyStats)
      {
        EvaluateDbFront(old(Snapshot()), rows, now, k);
        res := EvaluateOne(rows[k].id, rows[k].row, now, res);
        k := k + 1;
      }
      assert rows[..k] == rows;
    }

    // ------------------------------------------------------------------------ prober

    // maybeWarnTLSExpiry: at most one warning for each certificate expiry.
    method MaybeWarnTlsExpiry(i: nat, o: ProbeOutcome, at: Time)
      requires i < |monitors|
      modifies this
      ensures dailyStats == old(dailyStats)
      ensures WarnsTls(o) ==>
                Snapshot() == LogEvents(old(Snapshot()), i, TlsEmits(o), at).(
                  monitors := old(monitors)[i := old(monitors)[i].(tlsWarnedExpiresAt := Some(Stored(o.tlsExpiresAt.value)))])
      ensures !WarnsTls(o) ==> Snapshot() == old(Snapshot())
    {
      if o.tlsExpiresAt.None? {
        return;
      }
      var expires := o.tlsExpiresAt.value;
      if expires - o.now > TLS_WARNING_WINDOW {
        return;
      }
      if o.priorTlsWarned.Some? && WholeSecond(o.priorTlsWarned.value) == WholeSecond(expires) {
        return;
      }
      LogOne(Snapshot(), i, Emit(TlsExpiryEvent, CertificateExpires, Some(expires), true), at);
      RecordTransition(i, TlsExpiryEvent, CertificateExpires, Some(expires), at);
      UpdateMonitor(i, monitors[i].(tlsWarnedExpiresAt := Some(Stored(expires))));
    }

    // The event and alert of a confirmed transition, if the probe makes one.
    method RecordProbeTransition(i: nat, o: ProbeOutcome, state: State, at: Time) returns (transition: Transition)
      requires state == NextProbeState(o).0
      modifies this`events, this`nextEvent, this`alerts, this`nextAlert
      ensures Snapshot() == LogEvents(old(Snapshot()), i, TransitionEmits(o), at)
      ensures transition.WentDown? <==> TransitionEmits(o) == [Emit(DownEvent, ProbeFailed(o.error), None, true)]
      ensures transition.WentUp? <==> TransitionEmits(o) == [Emit(UpEvent, Recovered, None, true)]
    {
      transition := NoTransition;
      if state.Down? && o.priorState != Some(Down) {
        transition := WentDown;
        LogOne(Snapshot(), i, Emit(DownEvent, ProbeFailed(o.error), None, true), at);
        RecordTransition(i, DownEvent, ProbeFailed(o.error), None, at);
      } else if state.Up? && o.priorState == Some(Down) {
        transition := WentUp;
        LogOne(Snapshot(), i, Emit(UpEvent, Recovered, None, true), at);
        RecordTransition(i, UpEvent, Recovered, None, at);
      }
    }

    // One probe result in one transaction. A success takes the monitor up and ends the
    // streak; a failure adds to the streak that the prober saw and takes the monitor down
    // once it reaches the threshold, two by default. The next probe is the prober's. A
    // confirmed change has its event and alert, and so has a certificate that expires
    // within fourteen days, once for each whole second of expiry.
    method RecordProbeResult(i: nat, o: ProbeOutcome, at: Time) returns (r: Result<(State, Transition), Failure>)
      modifies this
      ensures dailyStats == old(dailyStats)
      ensures i >= |old(monitors)| ==> r == Err(NotFound) && Snapshot() == old(Snapshot())
      ensures i < |old(monitors)| ==> r.Ok? && ProbeRecorded(old(Snapshot()), Snapshot(), i, o, at, r.value.0, r.value.1)
      ensures i < |old(monitors)| ==>
                Snapshot() == Apply(old(Snapshot()).(probeResults := old(probeResults) + [ProbeResult(i, o.ok, o.latencyMs, at)]),
                                    i, ProbeChange(old(monitors)[i], o), at)
    {
      if i >= |monitors| {
        return Err(NotFound);
      }
      ghost var before := Snapshot();
      var state, transition := WriteProbe(i, o, at);
      ProbeInColumns(before, i, o, at, transition);
      r := Ok((state, transition));
    }

    // The statements of that transaction.
    method WriteProbe(i: nat, o: ProbeOutcome, at: Time) returns (state: State, transition: Transition)
      requires i < |monitors|
      modifies this
      ensures dailyStats == old(dailyStats)
      ensures Snapshot() == Apply(old(Snapshot()).(probeResults := old(probeResults) + [ProbeResult(i, o.ok, o.latencyMs, at)]),
                                  i, ProbeChange(old(monitors)[i], o), at)
      ensures state == ProbeChange(old(monitors)[i], o).row.state
      ensures transition.WentDown? <==> TransitionEmits(o) == [Emit(DownEvent, ProbeFailed(o.error), None, true)]
      ensures transition.WentUp? <==> TransitionEmits(o) == [Emit(UpEvent, Recovered, None, true)]
    {
      probeResults := probeResults + [ProbeResult(i, o.ok, o.latencyMs, at)];
      ProbeByStatement(Snapshot(), i, o, at);
      var next := NextProbeState(o);
      state := next.0;
      UpdateMonitor(i, monitors[i].(state := state, failStreak := next.1, nextProbeAt := Some(o.nextProbeAt)));
      transition := RecordProbeTransition(i, o, state, at);
      MaybeWarnTlsExpiry(i, o, at);
    }

    // ----------------------------------------------------------------- monitor flags

    // Paused from now on, with one event; nothing else changes.
    method PauseMonitor(i: nat, now: Time) returns (r: Result<Monitor, Failure>)
      modifies this
      ensures dailyStats == old(dailyStats)
      ensures i >= |old(monitors)| ==> r == Err(NotFound) && Snapshot() == old(Snapshot())
      ensures i < |old(monitors)| ==>
                monitors == old(monitors)[i := old(monitors)[i].(pausedAt := Some(now))] &&
                Noted(old(Snapshot()), Snapshot(), i, PauseEvent, Paused, now) && SameLogs(old(Snapshot()), Snapshot())
      ensures i < |old(monitors)| ==> Snapshot() == Apply(old(Snapshot()), i, PauseChange(old(monitors)[i], now), now)
      ensures i < |old(monitors)| ==> r == Ok(monitors[i])
    {
      if i >= |monitors| {
        return Err(NotFound);
      }
      UpdateMonitor(i, monitors[i].(pausedAt := Some(now)));
      LogOne(Snapshot(), i, Emit(PauseEvent, Paused, None, false), now);
      RecordEvent(i, PauseEvent, Paused, now);
      r := Ok(monitors[i]);
    }

    // Muted or unmuted, with one event; nothing else changes.
    method SetMuted(i: nat, muted: bool, now: Time) returns (r: Result<Monitor, Failure>)
      modifies this
      ensures dailyStats == old(dailyStats)
      ensures i >= |old(monitors)| ==> r == Err(NotFound) && Snapshot() == old(Snapshot())
      ensures i < |old(monitors)| ==>
                monitors == old(monitors)[i := old(monitors)[i].(alertsMuted := muted)] && SameLogs(old(Snapshot()), Snapshot()) &&
                Noted(old(Snapshot()), Snapshot(), i, if muted then MuteEvent else UnmuteEvent,
                      if muted then AlertsMuted else AlertsUnmuted, now)
      ensures i < |old(monitors)| ==> Snapshot() == Apply(old(Snapshot()), i, MuteChange(old(monitors)[i], muted), now)
      ensures i < |old(monitors)| ==> r == Ok(monitors[i])
    {
      if i >= |monitors| {
        return Err(NotFound);
      }
      UpdateMonitor(i, monitors[i].(alertsMuted := muted));
      var typ, message := if muted then MuteEvent else UnmuteEvent, if muted then AlertsMuted else AlertsUnmuted;
      LogOne(Snapshot(), i, Emit(typ, message, None, false), now);
      RecordEvent(i, typ, message, now);
      r := Ok(monitors[i]);
    }

    // Up again whatever the state was, unpaused and armed from now, with one `resume` event
    // and no alert; a schedule that is not accepted leaves no trace.
    method ResumeMonitor(cal: Calendar, i: nat, now: Time) returns (r: Result<Monitor, Failure>)
      modifies this
      ensures dailyStats == old(dailyStats)
      ensures i >= |old(monitors)| ==> r == Err(NotFound) && Snapshot() == old(Snapshot())
      ensures i < |old(monitors)| && !Accepts(cal, old(monitors)[i]) ==>
                r.Err? && r.error.BadSchedule? && Blames(cal, old(monitors)[i], r.error.field) && Snapshot() == old(Snapshot())
      ensures i < |old(monitors)| && Accepts(cal, old(monitors)[i]) ==>
                var m := old(monitors)[i];
                monitors == old(monitors)[i := m.(pausedAt := None, state := Up, nextDeadline := ArmedAt(cal, m, now))] &&
                r == Ok(monitors[i]) && SameLogs(old(Snapshot()), Snapshot()) &&
                Noted(old(Snapshot()), Snapshot(), i, ResumeEvent, Resumed, now)
      ensures i < |old(monitors)| ==>
                match ResumeChange(cal, old(monitors)[i], now)
                case Err(field) => r == Err(BadSchedule(field)) && Snapshot() == old(Snapshot())
                case Ok(change) => Snapshot() == Apply(old(Snapshot()), i, change, now) && r == Ok(monitors[i])
    {
      if i >= |monitors| {
        return Err(NotFound);
      }
      DeadlineIffAccepted(cal, monitors[i], now);
      var deadline := NextDeadlineFor(cal, monitors[i], now);
      if deadline.Err? {
        return Err(BadSchedule(deadline.error));
      }
      UpdateMonitor(i, monitors[i].(pausedAt := None, state := Up, nextDeadline := deadline.value));
      LogOne(Snapshot(), i, Emit(ResumeEvent, Resumed, None, false), now);
      RecordEvent(i, ResumeEvent, Resumed, now);
      r := Ok(monitors[i]);
    }

    // ------------------------------------------------------------------------ outbox

    // One reminder of its latest down event for each monitor that a reminder is due for, and
    // for no other; it is pending and due at once.
    method EnqueueDownReminders(now: Time) returns (count: nat, ghost ids: seq<nat>)
      modifies this`alerts, this`nextAlert
      ensures forall i: nat :: i in ids <==> i < |monitors| && ReminderDue(old(Snapshot()), i, now)
      ensures (forall j, k :: 0 <= j < k < |ids| ==> ids[j] < ids[k]) && count == |ids|
      ensures RemindersAdded(old(Snapshot()), Snapshot(), ids, now)
      ensures Snapshot() == RemindFrom(old(Snapshot()), 0, now)
    {
      ids := RemindInColumns(Snapshot(), Snapshot(), [], 0, now);
      count := 0;
      var k := 0;
      while k < |monitors|
        invariant k <= |monitors| && monitors == old(monitors) && count == |alerts| - |old(alerts)|
        invariant RemindFrom(Snapshot(), k, now) == RemindFrom(old(Snapshot()), 0, now)
      {
        if WantsReminder(Snapshot(), k, now) {
          var down := LatestDown(events, k, None).value;
          alerts, nextAlert := alerts + [Alert(nextAlert, k, down.id, Pending, 0, now, None, now, true)], nextAlert + 1;
          count := count + 1;
        }
        k := k + 1;
      }
    }

    // Claims pending alerts that are due, earliest first: each job carries its row's values
    // and its monitor's mute flag, and a row is left out only for `limit` rows due no later.
    method ClaimDueAlerts(now: Time, limit: nat) returns (jobs: seq<AlertJob>, ghost rows: seq<nat>)
      ensures |jobs| == |rows| <= limit && Distinct(rows)
      ensures forall k :: 0 <= k < |rows| ==> rows[k] < |alerts| && alerts[rows[k]].monitor < |monitors|
      ensures forall k :: 0 <= k < |rows| ==> alerts[rows[k]].status.Pending? && alerts[rows[k]].nextAttemptAt < now
      ensures forall k :: 0 <= k < |rows| ==>
                var a := alerts[rows[k]];
                jobs[k] == AlertJob(a.id, a.monitor, a.eventId, a.isReminder, a.attempts, monitors[a.monitor].alertsMuted)
      ensures forall j, k :: 0 <= j < k < |rows| ==> alerts[rows[j]].nextAttemptAt <= alerts[rows[k]].nextAttemptAt
      ensures forall r :: 0 <= r < |alerts| && r !in rows && alerts[r].status.Pending? && alerts[r].nextAttemptAt < now &&
                          alerts[r].monitor < |monitors| && (exists e :: e in events && e.id == alerts[r].eventId) ==>
                |rows| == limit && forall k :: 0 <= k < |rows| ==> alerts[rows[k]].nextAttemptAt <= alerts[r].nextAttemptAt
      ensures rows == DueAlerts(Snapshot(), now, limit) && jobs == Jobs(Snapshot(), rows)
    {
      var due := DueAlerts(Snapshot(), now, limit);
      rows := due;
      ClaimsEarliestAlerts(Snapshot(), now, limit);
      jobs := Jobs(Snapshot(), due);
    }

    // Delivered: one more attempt, sent now. No other row changes.
    method MarkAlertSent(id: nat, now: Time)
      modifies this`alerts
      ensures |alerts| == |old(alerts)|
      ensures forall k :: 0 <= k < |alerts| && old(alerts)[k].id != id ==> alerts[k] == old(alerts)[k]
      ensures forall k :: 0 <= k < |alerts| && old(alerts)[k].id == id ==>
                alerts[k] == old(alerts)[k].(status := Sent, sentAt := Some(now), attempts := old(alerts)[k].attempts + 1)
    {
      alerts := SettleById(alerts, id, MarkSent, 0, now);
    }

    // Muted: sent without an attempt or a sent time. No other row changes.
    method SuppressAlert(id: nat)
      modifies this`alerts
      ensures |alerts| == |old(alerts)|
      ensures forall k :: 0 <= k < |alerts| && old(alerts)[k].id != id ==> alerts[k] == old(alerts)[k]
      ensures forall k :: 0 <= k < |alerts| && old(alerts)[k].id == id ==> alerts[k] == old(alerts)[k].(status := Sent)
    {
      alerts := SettleById(alerts, id, Suppress, 0, 0);
    }

    // Backed off: one more attempt, still pending, due at `next`. No other row changes.
    method RescheduleAlert(id: nat, next: Time)
      modifies this`alerts
      ensures |alerts| == |old(alerts)|
      ensures forall k :: 0 <= k < |alerts| && old(alerts)[k].id != id ==> alerts[k] == old(alerts)[k]
      ensures forall k :: 0 <= k < |alerts| && old(alerts)[k].id == id ==>
                alerts[k] == old(alerts)[k].(attempts := old(alerts)[k].attempts + 1, nextAttemptAt := next)
    {
      alerts := SettleById(alerts, id, Retry, next, 0);
    }

    // The row of that id has failed with one attempt more, and one alert_failed event
    // without an alert says why. No other row changes.
    method FailAlert(id: nat, i: nat, reason: FailReason, now: Time)
      modifies this
      ensures dailyStats == old(dailyStats) && monitors == old(monitors) && SameLogs(old(Snapshot()), Snapshot())
      ensures |alerts| == |old(alerts)| && nextAlert == old(nextAlert)
      ensures forall k :: 0 <= k < |alerts| && old(alerts)[k].id != id ==> alerts[k] == old(alerts)[k]
      ensures forall k :: 0 <= k < |alerts| && old(alerts)[k].id == id ==>
                alerts[k] == old(alerts)[k].(status := Failed, attempts := old(alerts)[k].attempts + 1)
      ensures events == old(events) + [Event(old(nextEvent), i, AlertFailedEvent, DeliveryFailed(reason), None, now)]
      ensures nextEvent == old(nextEvent) + 1
      ensures Snapshot() == LogEvents(old(Snapshot()).(alerts := SettleById(old(alerts), id, GiveUp(reason), 0, now)),
                                      i, [FailureEvent(reason)], now)
    {
      alerts := SettleById(alerts, id, GiveUp(reason), 0, now);
      LogOne(Snapshot(), i, FailureEvent(reason), now);
      RecordEvent(i, AlertFailedEvent, DeliveryFailed(reason), now);
    }

    // ------------------------------------------------------------ rollup and retention

    // The three rollup queries, merged by monitor.
    method MergeStats(d: int) returns (byMonitor: map<nat, DailyStat>)
      ensures MergedAll(byMonitor, Snapshot(), d, |monitors|, |monitors|, |monitors|)
    {
      byMonitor := map[];
      var none, n := DailyStat(0, 0, 0), |monitors|;
      for i := 0 to n
        invariant MergedAll(byMonitor, Snapshot(), d, i, 0, 0)
      {
        ghost var before := byMonitor;
        assert Merged(before, Snapshot(), d, i, i, 0, 0);
        var (checkins, failures) := CheckinCounts(checkins, i, d);
        if checkins > 0 {
          byMonitor := byMonitor[i := DailyStat(checkins, failures, 0)];
        }
        MergeOne(before, byMonitor, Snapshot(), d, i, i, 0, 0, i + 1, 0, 0);
      }
      for i := 0 to n
        invariant MergedAll(byMonitor, Snapshot(), d, n, i, 0)
      {
        ghost var before := byMonitor;
        assert Merged(before, Snapshot(), d, i, n, i, 0);
        var (probes, failures) := ProbeCounts(probeResults, i, d);
        if probes > 0 {
          var stat := if i in byMonitor then byMonitor[i] else none;
          byMonitor := byMonitor[i := stat.(checkins := probes, failures := failures)];
        }
        MergeOne(before, byMonitor, Snapshot(), d, i, n, i, 0, n, i + 1, 0);
      }
      for i := 0 to n
        invariant MergedAll(byMonitor, Snapshot(), d, n, n, i)
      {
        ghost var before := byMonitor;
        assert Merged(before, Snapshot(), d, i, n, n, i);
        if HasOutage(events, i, d * DAY, d * DAY + DAY) {
          var stat := if i in byMonitor then byMonitor[i] else none;
          byMonitor := byMonitor[i := stat.(downtimeS := RollupDowntime(events, i, d * DAY, d * DAY + DAY))];
        }
        MergeOne(before, byMonitor, Snapshot(), d, i, n, n, i, n, n, i + 1);
      }
    }

    // Folds the UTC day of a time into daily_stats: a monitor with a probe, a check-in or an
    // outage on that day gets a row of its probes and failed probes, or without a probe its
    // check-ins and failed check-ins, and its downtime. Every other row stays. The result is
    // the number of those monitors.
    method RollupDay(day: Time) returns (updated: nat)
      modifies this`dailyStats
      ensures forall i: nat, d: int :: RolledUp(old(dailyStats), dailyStats, Snapshot(), DayOf(day), i, d)
      ensures updated == |ActiveOn(Snapshot(), DayOf(day))|
      ensures dailyStats == Upserted(old(dailyStats), Snapshot(), DayOf(day), |monitors|)
    {
      var d, db := DayOf(day), Snapshot();
      var byMonitor := MergeStats(d);
      for i := 0 to |monitors|
        invariant dailyStats == Upserted(old(dailyStats), db, d, i)
      {
        MergedIsStat(byMonitor, db, d, i);
        if i in byMonitor {
          dailyStats := dailyStats[(i, d) := byMonitor[i]];
        }
      }
      updated := |byMonitor|;
      UpsertRollsUp(old(dailyStats), db, d);
      MergedAreActive(byMonitor, db, d);
    }

    // deleteOldCheckinsBatch: at most `limit` rows, all of them old.
    method DeleteOldCheckinsBatch(cutoff: Time, limit: nat) returns (n: nat)
      modifies this`checkins
      ensures multiset(checkins) <= multiset(old(checkins))
      ensures Young(checkins, CheckinAt, cutoff) == Young(old(checkins), CheckinAt, cutoff)
      ensures OldCount(checkins, CheckinAt, cutoff) == OldCount(old(checkins), CheckinAt, cutoff) - n
      ensures n == if limit < OldCount(old(checkins), CheckinAt, cutoff) then limit else OldCount(old(checkins), CheckinAt, cutoff)
    {
      checkins, n := DropOld(checkins, CheckinAt, cutoff, limit);
    }

    method DeleteOldProbeResultsBatch(cutoff: Time, limit: nat) returns (n: nat)
      modifies this`probeResults
      ensures multiset(probeResults) <= multiset(old(probeResults))
      ensures Young(probeResults, ProbeAt, cutoff) == Young(old(probeResults), ProbeAt, cutoff)
      ensures OldCount(probeResults, ProbeAt, cutoff) == OldCount(old(probeResults), ProbeAt, cutoff) - n
      ensures n == if limit < OldCount(old(probeResults), ProbeAt, cutoff) then limit else OldCount(old(probeResults), ProbeAt, cutoff)
    {
      probeResults, n := DropOld(probeResults, ProbeAt, cutoff, limit);
    }

    // deleteOldEventsBatch: at most `limit` old events without a pending alert; the
    // foreign key takes their alerts along.
    method DeleteOldEventsBatch(cutoff: Time, limit: nat) returns (n: nat, ghost doomed: set<nat>)
      requires UniqueIds(events)
      modifies this`events, this`alerts
      ensures doomed <= PrunableIds(old(Snapshot()), cutoff) && n == |doomed|
      ensures n == if limit < |PrunableIds(old(Snapshot()), cutoff)| then limit else |PrunableIds(old(Snapshot()), cutoff)|
      ensures Snapshot() == PruneDb(old(Snapshot()), doomed) && n == |old(events)| - |events|
    {
      var picked := PickPrunable(Snapshot(), cutoff, limit);
      KeepCounts(events, picked);
      n, doomed := |picked|, picked;
      events, alerts := KeepEvents(events, picked), KeepAlerts(alerts, picked, true);
    }

    // Drains each table batch by batch until a batch comes back short. PruneByRow says what
    // is left, row by row.
    method PruneOldData(cutoff: Time) returns (removedCheckins: nat, removedProbes: nat, removedEvents: nat)
      requires UniqueIds(events)
      modifies this
      ensures Snapshot() == Pruned(old(Snapshot()), cutoff) && dailyStats == old(dailyStats)
      ensures removedCheckins == |old(checkins)| - |checkins| && removedProbes == |old(probeResults)| - |probeResults|
      ensures removedEvents == |old(events)| - |events| == |PrunableIds(old(Snapshot()), cutoff)|
    {
      ghost var db := Snapshot();
      removedCheckins := DrainCheckins(cutoff);
      removedProbes := DrainProbeResults(cutoff);
      SamePrunable(db, Snapshot(), cutoff);
      removedEvents := DrainEvents(cutoff);
    }

    method DrainCheckins(cutoff: Time) returns (total: nat)
      modifies this`checkins
      ensures checkins == Young(old(checkins), CheckinAt, cutoff) && total == |old(checkins)| - |checkins|
    {
      total := 0;
      var n := PRUNE_BATCH_LIMIT;
      while n == PRUNE_BATCH_LIMIT
        invariant n <= PRUNE_BATCH_LIMIT
        invariant Young(checkins, CheckinAt, cutoff) == Young(old(checkins), CheckinAt, cutoff)
        invariant total + OldCount(checkins, CheckinAt, cutoff) == OldCount(old(checkins), CheckinAt, cutoff)
        invariant n < PRUNE_BATCH_LIMIT ==> OldCount(checkins, CheckinAt, cutoff) == 0
        decreases OldCount(checkins, CheckinAt, cutoff) + n
      {
        n := DeleteOldCheckinsBatch(cutoff, PRUNE_BATCH_LIMIT);
        total := total + n;
      }
      NoneOld(checkins, CheckinAt, cutoff);
      YoungIsExact(old(checkins), CheckinAt, cutoff);
    }

    method DrainProbeResults(cutoff: Time) returns (total: nat)
      modifies this`probeResults
      ensures probeResults == Young(old(probeResults), ProbeAt, cutoff) && total == |old(probeResults)| - |probeResults|
    {
      total := 0;
      var n := PRUNE_BATCH_LIMIT;
      while n == PRUNE_BATCH_LIMIT
        invariant n <= PRUNE_BATCH_LIMIT
        invariant Young(probeResults, ProbeAt, cutoff) == Young(old(probeResults), ProbeAt, cutoff)
        invariant total + OldCount(probeResults, ProbeAt, cutoff) == OldCount(old(probeResults), ProbeAt, cutoff)
        invariant n < PRUNE_BATCH_LIMIT ==> OldCount(probeResults, ProbeAt, cutoff) == 0
        decreases OldCount(probeResults, ProbeAt, cutoff) + n
      {
        n := DeleteOldProbeResultsBatch(cutoff, PRUNE_BATCH_LIMIT);
        total := total + n;
      }
      NoneOld(probeResults, ProbeAt, cutoff);
      YoungIsExact(old(probeResults), ProbeAt, cutoff);
    }

    method DrainEvents(cutoff: Time) returns (total: nat)
      requires UniqueIds(events)
      modifies this`events, this`alerts
      ensures Snapshot() == PruneDb(old(Snapshot()), PrunableIds(old(Snapshot()), cutoff))
      ensures total == |old(events)| - |events| == |PrunableIds(old(Snapshot()), cutoff)|
    {
      total := 0;
      var n := PRUNE_BATCH_LIMIT;
      ghost var gone: set<nat> := {};
      ghost var db, prunable := Snapshot(), PrunableIds(Snapshot(), cutoff);
      NothingDoomed(db);
      while n == PRUNE_BATCH_LIMIT
        invariant n <= PRUNE_BATCH_LIMIT && UniqueIds(events) && gone <= prunable
        invariant Snapshot() == PruneDb(db, gone)
        invariant PrunableIds(Snapshot(), cutoff) == prunable - gone
        invariant total == |gone| == |old(events)| - |events|
        invariant n < PRUNE_BATCH_LIMIT ==> prunable - gone == {}
        decreases |prunable - gone| + n
      {
        ghost var doomed;
        n, doomed := DeleteOldEventsBatch(cutoff, PRUNE_BATCH_LIMIT);
        BatchAdvances(db, gone, doomed, cutoff);
        gone, total := gone + doomed, total + n;
      }
      assert gone == prunable;
    }
  }
}
