/** Reminder cadence, with one alerter: consecutive reminders of an outage are at least
  * one cadence apart, and the first comes at least one cadence after the down event.
  */
module Reminders {
  import opened Model
  import opened Schedule
  import opened Rows
  import opened Outbox
  import opened Engine
  import opened Log
  import opened Alerts
  import opened Delivery

  // Creation times of the event's reminders, oldest first.
  function RemindersOf(alerts: seq<Alert>, eventId: nat): seq<Time> {
    if |alerts| == 0 then []
    else
      var last := alerts[|alerts| - 1];
      RemindersOf(alerts[..|alerts| - 1], eventId) + if last.eventId == eventId && last.isReminder then [last.createdAt] else []
  }

  // Each time is at least `cadence` after the one before it, starting from `since`.
  predicate Apart(times: seq<Time>, since: Time, cadence: int) {
    |times| == 0 ||
    (Apart(times[..|times| - 1], since, cadence) &&
     times[|times| - 1] >= cadence + if |times| == 1 then since else times[|times| - 2])
  }

  ghost predicate CadenceOk(monitors: seq<Monitor>, events: seq<Event>, alerts: seq<Alert>) {
    forall e :: e in events && e.monitor < |monitors| ==>
                  Apart(RemindersOf(alerts, e.id), e.at, monitors[e.monitor].reminderEveryS)
  }

  // An event's own alert was created with it.
  ghost predicate CreatedOk(events: seq<Event>, alerts: seq<Alert>) {
    forall a, e :: a in alerts && e in events && !a.isReminder && a.eventId == e.id ==> a.createdAt == e.at
  }

  ghost predicate RemindersOk(db: Db) {
    CadenceOk(db.monitors, db.events, db.alerts) && CreatedOk(db.events, db.alerts)
  }

  lemma {:induction false} NoReminders(alerts: seq<Alert>, eventId: nat)
    requires forall a :: a in alerts ==> a.eventId != eventId
    ensures RemindersOf(alerts, eventId) == []
  {
    if |alerts| > 0 { NoReminders(alerts[..|alerts| - 1], eventId); }
  }

  lemma RemindersAppend(alerts: seq<Alert>, a: Alert, eventId: nat)
    ensures RemindersOf(alerts + [a], eventId) ==
            RemindersOf(alerts, eventId) + if a.eventId == eventId && a.isReminder then [a.createdAt] else []
  {
    assert (alerts + [a])[..|alerts|] == alerts;
  }

  lemma NewEventKeepsCadence(monitors: seq<Monitor>, events: seq<Event>, alerts: seq<Alert>, event: Event, alert: Alert, alerted: bool)
    requires CadenceOk(monitors, events, alerts) && RefersOk(events, alerts) && EventIdsOk(events, event.id)
    requires !alert.isReminder
    ensures CadenceOk(monitors, events + [event], if alerted then alerts + [alert] else alerts)
  {
    forall a | a in alerts
      ensures a.eventId != event.id
    {
      assert Refers(events, a);
    }
    NoReminders(alerts, event.id);
    forall e | e in events + [event] && e.monitor < |monitors|
      ensures Apart(RemindersOf(if alerted then alerts + [alert] else alerts, e.id), e.at, monitors[e.monitor].reminderEveryS)
    {
      RemindersAppend(alerts, alert, e.id);
      assert RemindersOf(alerts, e.id) + [] == RemindersOf(alerts, e.id);
    }
  }

  lemma NewEventKeepsCreated(events: seq<Event>, alerts: seq<Alert>, event: Event, alert: Alert, alerted: bool)
    requires CreatedOk(events, alerts) && RefersOk(events, alerts) && EventIdsOk(events, event.id)
    requires alert.eventId == event.id && alert.createdAt == event.at
    ensures CreatedOk(events + [event], if alerted then alerts + [alert] else alerts)
  {
    forall a | a in alerts
      ensures a.eventId != event.id
    {
      assert Refers(events, a);
    }
  }

  lemma {:induction false} LogEventsKeepReminders(db: Db, i: nat, emits: seq<Emit>, at: Time)
    requires RemindersOk(db) && AlertsOk(db) && Paired(emits)
    ensures RemindersOk(LogEvents(db, i, emits, at))
    decreases |emits|
  {
    if |emits| > 0 {
      var e := emits[0];
      var event := Event(db.nextEvent, i, e.typ, e.message, e.meta, at);
      var alert := Alert(db.nextAlert, i, event.id, Pending, 0, at, None, at, false);
      NewEventKeepsCadence(db.monitors, db.events, db.alerts, event, alert, e.alert);
      NewEventKeepsCreated(db.events, db.alerts, event, alert, e.alert);
      LogEventKeepsAlerts(db, i, e, at);
      LogEventsKeepReminders(LogEvent(db, i, e, at), i, emits[1..], at);
    }
  }

  lemma TouchKeepsReminders(w: World, i: nat, c: Change, source: Source, at: Time)
    requires RemindersOk(w.db) && AlertsOk(w.db) && Sized(w) && i < |w.past| && Paired(c.emits)
    requires c.row.reminderEveryS == w.db.monitors[i].reminderEveryS
    ensures RemindersOk(Touch(w, i, c, source, at).db)
  {
    LogEventsKeepReminders(w.db.(monitors := w.db.monitors[i := c.row]), i, c.emits, at);
  }

  lemma {:induction false} EvaluateRowsKeepReminders(w: World, rows: seq<Claimed>, at: Time)
    requires RemindersOk(w.db) && AlertsOk(w.db) && Sized(w)
    requires forall k :: 0 <= k < |rows| ==> rows[k].id < |w.db.monitors|
    ensures RemindersOk(EvaluateRows(w, rows, at).db)
    decreases |rows|
  {
    if |rows| > 0 {
      var c := EvaluateChange(rows[0].row, w.db.monitors[rows[0].id]);
      TouchKeepsAlerts(w, rows[0].id, c, Evaluated, at);
      TouchKeepsReminders(w, rows[0].id, c, Evaluated, at);
      EvaluateRowsKeepReminders(Touch(w, rows[0].id, c, Evaluated, at), rows[1..], at);
    }
  }

  lemma {:induction false} SettleKeepsReminders(alerts: seq<Alert>, settled: seq<Alert>, eventId: nat)
    requires |alerts| == |settled|
    requires forall k :: 0 <= k < |alerts| ==>
               (settled[k].eventId == alerts[k].eventId && settled[k].isReminder == alerts[k].isReminder &&
                settled[k].createdAt == alerts[k].createdAt)
    ensures RemindersOf(settled, eventId) == RemindersOf(alerts, eventId)
  {
    if |alerts| > 0 { SettleKeepsReminders(alerts[..|alerts| - 1], settled[..|alerts| - 1], eventId); }
  }

  lemma SettledKeepsReminders(db: Db, id: nat, verdict: Verdict, next: Time, now: Time)
    requires RemindersOk(db)
    ensures RemindersOk(db.(alerts := SettleById(db.alerts, id, verdict, next, now)))
  {
    var settled := SettleById(db.alerts, id, verdict, next, now);
    forall e | e in db.events
      ensures RemindersOf(settled, e.id) == RemindersOf(db.alerts, e.id)
    {
      SettleKeepsReminders(db.alerts, settled, e.id);
    }
    forall a, e | a in settled && e in db.events && !a.isReminder && a.eventId == e.id
      ensures a.createdAt == e.at
    {
      var k :| 0 <= k < |settled| && settled[k] == a;
      assert db.alerts[k] in db.alerts;
    }
  }

  lemma RecordKeepsReminders(db: Db, job: AlertJob, verdict: Verdict, next: Time, now: Time)
    requires RemindersOk(db) && AlertsOk(db)
    ensures RemindersOk(Record(db, job, verdict, next, now))
  {
    SettledKeepsReminders(db, job.id, verdict, next, now);
    if verdict.GiveUp? {
      SettleKeepsAlerts(db, job.id, verdict, next, now);
      LogEventsKeepReminders(db.(alerts := SettleById(db.alerts, job.id, verdict, next, now)), job.monitor,
                             [FailureEvent(verdict.reason)], now);
    }
  }

  lemma DispatchKeepsReminders(w: World, send: SendResult, at: Time, recorded: bool)
    requires RemindersOk(w.db) && AlertsOk(w.db) && Sized(w) && |w.jobs| > 0 && w.jobs[0].monitor < |w.db.monitors|
    ensures RemindersOk(DispatchStep(w, send, at, recorded).db)
  {
    var job := w.jobs[0];
    var v := DispatchStep(w, send, at, recorded);
    assert v.db == if recorded then Record(w.db, job, Judge(job, send), at + Backoff(job.attempts), at) else w.db;
    RecordKeepsReminders(w.db, job, Judge(job, send), at + Backoff(job.attempts), at);
  }

  // ------------------------------------------------------------------- enqueueing

  lemma {:induction false} LastReminderStored(alerts: seq<Alert>, eventId: nat)
    requires |RemindersOf(alerts, eventId)| > 0
    ensures exists a :: a in alerts && a.eventId == eventId && a.isReminder &&
                        a.createdAt == RemindersOf(alerts, eventId)[|RemindersOf(alerts, eventId)| - 1]
  {
    var n := |alerts| - 1;
    if !(alerts[n].eventId == eventId && alerts[n].isReminder) {
      assert RemindersOf(alerts[..n], eventId) + [] == RemindersOf(alerts[..n], eventId);
      LastReminderStored(alerts[..n], eventId);
    }
  }

  lemma {:induction false} PrimaryStored(alerts: seq<Alert>, eventId: nat)
    requires Primaries(alerts, eventId) > 0
    ensures exists a :: a in alerts && a.eventId == eventId && !a.isReminder
  {
    var n := |alerts| - 1;
    if alerts[n].eventId == eventId && !alerts[n].isReminder {
      assert alerts[n] in alerts;
    } else {
      PrimaryStored(alerts[..n], eventId);
    }
  }

  ghost predicate IdsIdentify(events: seq<Event>) {
    forall d, e :: d in events && e in events && d.id == e.id ==> d == e
  }

  // A new reminder comes one cadence after the previous alert of its outage.
  lemma ReminderIsApart(db: Db, i: nat, now: Time, event: Event)
    requires i < |db.monitors| && RemindersOk(db) && AlertsOk(db) && IdsIdentify(db.events) && WantsReminder(db, i, now)
    requires event == LatestDown(db.events, i, None).value
    ensures Apart(RemindersOf(db.alerts, event.id) + [now], event.at, db.monitors[i].reminderEveryS)
  {
    var times, cadence := RemindersOf(db.alerts, event.id), db.monitors[i].reminderEveryS;
    assert event in db.events && event.monitor == i && event.typ.DownEvent?;
    assert (times + [now])[..|times|] == times;
    if |times| == 0 {
      PrimaryStored(db.alerts, event.id);
      var a :| a in db.alerts && a.eventId == event.id && !a.isReminder;
      assert Refers(db.events, a);
      assert a.createdAt == event.at;
    } else {
      LastReminderStored(db.alerts, event.id);
      var a :| a in db.alerts && a.eventId == event.id && a.isReminder && a.createdAt == times[|times| - 1];
      assert Refers(db.events, a);
    }
  }

  lemma RemindOneKeepsReminders(db: Db, i: nat, now: Time)
    requires i < |db.monitors| && RemindersOk(db) && AlertsOk(db) && IdsIdentify(db.events)
    ensures RemindersOk(RemindOne(db, i, now))
  {
    if WantsReminder(db, i, now) {
      var event := LatestDown(db.events, i, None).value;
      var a := Alert(db.nextAlert, i, event.id, Pending, 0, now, None, now, true);
      ReminderIsApart(db, i, now, event);
      forall e | e in db.events && e.monitor < |db.monitors|
        ensures Apart(RemindersOf(db.alerts + [a], e.id), e.at, db.monitors[e.monitor].reminderEveryS)
      {
        RemindersAppend(db.alerts, a, e.id);
        assert RemindersOf(db.alerts, e.id) + [] == RemindersOf(db.alerts, e.id);
      }
    }
  }

  lemma {:induction false} RemindKeepsReminders(db: Db, k: nat, now: Time)
    requires k <= |db.monitors| && RemindersOk(db) && AlertsOk(db) && IdsIdentify(db.events)
    ensures RemindersOk(RemindFrom(db, k, now))
    decreases |db.monitors| - k
  {
    if k < |db.monitors| {
      RemindOneKeepsReminders(db, k, now);
      RemindOneKeepsAlerts(db, k, now);
      RemindKeepsReminders(RemindOne(db, k, now), k + 1, now);
    }
  }

  // ---------------------------------------------------------------------- pruning

  lemma {:induction false} PruneKeepsReminderTimes(alerts: seq<Alert>, doomed: set<nat>, eventId: nat)
    requires eventId !in doomed
    ensures RemindersOf(KeepAlerts(alerts, doomed, true), eventId) == RemindersOf(alerts, eventId)
  {
    if |alerts| > 0 {
      var front, a := alerts[..|alerts| - 1], alerts[|alerts| - 1];
      PruneKeepsReminderTimes(front, doomed, eventId);
      RemindersAppend(KeepAlerts(front, doomed, true), a, eventId);
      assert RemindersOf(front, eventId) + [] == RemindersOf(front, eventId);
    }
  }

  lemma PruneKeepsCadence(db: Db, doomed: set<nat>)
    requires RemindersOk(db)
    ensures RemindersOk(PruneDb(db, doomed))
  {
    forall e | e in KeepEvents(db.events, doomed)
      ensures RemindersOf(KeepAlerts(db.alerts, doomed, true), e.id) == RemindersOf(db.alerts, e.id)
    {
      PruneKeepsReminderTimes(db.alerts, doomed, e.id);
    }
  }

  // ------------------------------------------------------------------------- runs

  lemma StoredIdsUnique(w: World)
    requires LogOk(w)
    ensures IdsIdentify(w.db.events)
  {
    forall d, e | d in w.db.events && e in w.db.events && d.id == e.id
      ensures d == e
    {
      var j :| 0 <= j < |w.log| && w.log[j] == d;
      var k :| 0 <= k < |w.log| && w.log[k] == e;
    }
  }

  lemma TransactionKeepsReminders(cal: Calendar, w: World, s: Step)
    requires RemindersOk(w.db) && AlertsOk(w.db) && Enabled(w, s) && IsTransaction(s)
    ensures RemindersOk(Do(cal, w, s).db)
  {
    var r := ChangeOf(cal, w, s);
    if r.Ok? {
      match s
      case CheckIn(i, kind, at) => TouchKeepsReminders(AddCheckin(w, i, kind, at), i, r.value, Reported(kind), at);
      case Probe(i, o, at) => TouchKeepsReminders(Probing(w, i, o, at), i, r.value, Probed, at);
      case Resume(i, at) => TouchKeepsReminders(w, i, r.value, Resumption, at);
      case Pause(i, at) => TouchKeepsReminders(w, i, r.value, Flagged, at);
      case Mute(i, _, at) => TouchKeepsReminders(w, i, r.value, Flagged, at);
    }
  }

  lemma StepKeepsReminders(cal: Calendar, w: World, s: Step)
    requires RemindersOk(w.db) && AlertsOk(w.db) && LogOk(w) && Enabled(w, s)
    ensures RemindersOk(Do(cal, w, s).db)
  {
    if IsTransaction(s) {
      TransactionKeepsReminders(cal, w, s);
    } else {
      match s
      case Commit(r) => EvaluateRowsKeepReminders(w.(claims := w.claims - {r}), w.claims[r].rows, w.claims[r].at);
      case Remind(at) =>
        StoredIdsUnique(w);
        RemindKeepsReminders(w.db, 0, at);
      case DispatchNext(send, at, recorded) => DispatchKeepsReminders(w, send, at, recorded);
      case Prune(doomed, _) => PruneKeepsCadence(w.db, doomed);
      case _ =>
    }
  }

  lemma RunStepKeepsReminders(cal: Calendar, ws: seq<World>, steps: seq<Step>, l: nat)
    requires Run(cal, ws, steps) && l < |steps| && RemindersOk(ws[l].db)
    ensures RemindersOk(ws[l + 1].db)
  {
    RunKeepsAlerts(cal, ws, steps, l);
    RunKeepsLog(cal, ws, steps, l);
    assert StepsTo(cal, ws[l], steps[l], ws[l + 1]);
    StepKeepsReminders(cal, ws[l], steps[l]);
  }

  lemma {:induction false} RunKeepsReminders(cal: Calendar, ws: seq<World>, steps: seq<Step>, k: nat)
    requires Run(cal, ws, steps) && k < |ws|
    ensures RemindersOk(ws[k].db)
  {
    if k > 0 {
      RunKeepsReminders(cal, ws, steps, k - 1);
      RunStepKeepsReminders(cal, ws, steps, k - 1);
    }
  }

  lemma {:induction false} ApartAddsUp(times: seq<Time>, since: Time, cadence: int, n: nat)
    requires Apart(times, since, cadence) && n < |times|
    ensures times[n] >= since + (n + 1) * cadence
    decreases |times|
  {
    var last := |times| - 1;
    if n < last {
      ApartAddsUp(times[..last], since, cadence, n);
    } else if n > 0 {
      ApartAddsUp(times[..last], since, cadence, n - 1);
      assert (n + 1) * cadence == n * cadence + cadence;
    }
  }

  // The n-th reminder of an outage (counted from 0) is created at least n + 1 cadences
  // after the outage's down event.
  lemma RemindersKeepCadence(cal: Calendar, ws: seq<World>, steps: seq<Step>, k: nat, down: Event, n: nat)
    requires Run(cal, ws, steps) && k < |ws| && down in ws[k].db.events
    requires n < |RemindersOf(ws[k].db.alerts, down.id)|
    ensures down.monitor < |ws[k].db.monitors| && down.typ.DownEvent?
    ensures RemindersOf(ws[k].db.alerts, down.id)[n] >= down.at + (n + 1) * ws[k].db.monitors[down.monitor].reminderEveryS
  {
    var w := ws[k];
    RunKeepsReminders(cal, ws, steps, k);
    RunKeepsAlerts(cal, ws, steps, k);
    RunKeepsLog(cal, ws, steps, k);
    StoredIdsUnique(w);
    LastReminderStored(w.db.alerts, down.id);
    var a :| a in w.db.alerts && a.eventId == down.id && a.isReminder;
    assert Refers(w.db.events, a);
    ApartAddsUp(RemindersOf(w.db.alerts, down.id), down.at, w.db.monitors[down.monitor].reminderEveryS, n);
  }

  predicate RemindsOf(alerts: seq<Alert>, i: nat) {
    exists a :: a in alerts && a.monitor == i && a.isReminder
  }

  lemma AddedOne(db: Db, after: Db, ids: seq<nat>, k: nat, at: Time)
    requires RemindersAdded(db, after, ids, at) && k < |ids|
    ensures var a := after.alerts[|db.alerts|..][k]; a.monitor == ids[k] && a.isReminder
  {
    assert RemindsOfLatest(db, after.alerts[|db.alerts| + k], db.nextAlert + k, ids[k], at);
  }

  lemma AddedIffListed(db: Db, after: Db, ids: seq<nat>, i: nat, at: Time)
    requires RemindersAdded(db, after, ids, at)
    ensures i in ids <==> RemindsOf(after.alerts[|db.alerts|..], i)
  {
    var added := after.alerts[|db.alerts|..];
    if i in ids {
      var k :| 0 <= k < |ids| && ids[k] == i;
      AddedOne(db, after, ids, k, at);
      assert added[k] in added;
    }
    if RemindsOf(added, i) {
      var a :| a in added && a.monitor == i && a.isReminder;
      var k :| 0 <= k < |added| && added[k] == a;
      AddedOne(db, after, ids, k, at);
    }
  }

  // The tick adds a reminder for a monitor exactly when one is due for it.
  lemma ReminderIffDue(cal: Calendar, w: World, at: Time, i: nat)
    requires Enabled(w, Remind(at)) && i < |w.db.monitors|
    ensures var v := Do(cal, w, Remind(at));
            w.db.alerts <= v.db.alerts && (ReminderDue(w.db, i, at) <==> RemindsOf(v.db.alerts[|w.db.alerts|..], i))
  {
    var ids := RemindInColumns(w.db, w.db, [], 0, at);
    AddedIffListed(w.db, Do(cal, w, Remind(at)).db, ids, i, at);
  }

  // So after a tick every unmuted monitor with reminders on that is down, and whose down
  // event is stored, has an alert that was created within its last cadence.
  lemma TickCoversDownMonitors(cal: Calendar, w: World, at: Time, i: nat) returns (a: Alert)
    requires Enabled(w, Remind(at)) && i < |w.db.monitors|
    requires var m := w.db.monitors[i]; m.state.Down? && !m.alertsMuted && m.reminderEveryS > 0
    requires exists e :: e in w.db.events && e.monitor == i && e.typ.DownEvent?
    ensures var v := Do(cal, w, Remind(at));
            a in v.db.alerts && a.monitor == i && a.createdAt > at - v.db.monitors[i].reminderEveryS
  {
    var v := Do(cal, w, Remind(at));
    ReminderIffDue(cal, w, at, i);
    if ReminderDue(w.db, i, at) {
      var ids := RemindInColumns(w.db, w.db, [], 0, at);
      var k :| 0 <= k < |ids| && ids[k] == i;
      a := v.db.alerts[|w.db.alerts| + k];
      assert RemindsOfLatest(w.db, a, w.db.nextAlert + k, i, at);
    } else {
      a :| a in w.db.alerts && a.monitor == i && a.createdAt > at - w.db.monitors[i].reminderEveryS;
    }
  }
}
