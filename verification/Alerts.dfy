/** Exactly one alert per alerting event, in every interleaving, whatever snapshots
  * the prober worked from and whatever retention removed.
  */
module Alerts {
  import opened Model
  import opened Schedule
  import opened Rows
  import opened Outbox
  import opened Engine

  predicate Alerting(t: EventType) {
    t.DownEvent? || t.UpEvent? || t.TlsExpiryEvent?
  }

  // Number of non-reminder alerts that reference the event.
  function Primaries(alerts: seq<Alert>, eventId: nat): nat {
    if |alerts| == 0 then 0
    else
      var last := alerts[|alerts| - 1];
      Primaries(alerts[..|alerts| - 1], eventId) + if last.eventId == eventId && !last.isReminder then 1 else 0
  }

  // The event an alert references exists; only `down` events have reminders.
  ghost predicate Refers(events: seq<Event>, a: Alert) {
    exists e :: e in events && e.id == a.eventId && e.monitor == a.monitor && (a.isReminder ==> e.typ.DownEvent?)
  }

  ghost predicate RefersOk(events: seq<Event>, alerts: seq<Alert>) {
    forall a :: a in alerts ==> Refers(events, a)
  }

  ghost predicate CountsOk(events: seq<Event>, alerts: seq<Alert>) {
    forall e :: e in events ==> Primaries(alerts, e.id) == if Alerting(e.typ) then 1 else 0
  }

  ghost predicate IdsOk(alerts: seq<Alert>, next: nat) {
    (forall k :: 0 <= k < |alerts| ==> alerts[k].id < next) &&
    (forall j, k :: 0 <= j < k < |alerts| ==> alerts[j].id < alerts[k].id)
  }

  ghost predicate EventIdsOk(events: seq<Event>, next: nat) {
    forall e :: e in events ==> e.id < next
  }

  ghost predicate AlertsOk(db: Db) {
    EventIdsOk(db.events, db.nextEvent) && IdsOk(db.alerts, db.nextAlert) &&
    RefersOk(db.events, db.alerts) && CountsOk(db.events, db.alerts)
  }

  // recordTransition is used exactly for the event types that must page someone.
  predicate Paired(emits: seq<Emit>) {
    forall k :: 0 <= k < |emits| ==> (emits[k].alert <==> Alerting(emits[k].typ))
  }

  lemma {:induction false} NoPrimaries(alerts: seq<Alert>, eventId: nat)
    requires forall a :: a in alerts ==> a.eventId != eventId
    ensures Primaries(alerts, eventId) == 0
  {
    if |alerts| > 0 { NoPrimaries(alerts[..|alerts| - 1], eventId); }
  }

  lemma PrimariesAppend(alerts: seq<Alert>, a: Alert, eventId: nat)
    ensures Primaries(alerts + [a], eventId) ==
            Primaries(alerts, eventId) + if a.eventId == eventId && !a.isReminder then 1 else 0
  {
    assert (alerts + [a])[..|alerts|] == alerts;
  }

  lemma RefersGrows(events: seq<Event>, more: seq<Event>, alerts: seq<Alert>)
    requires RefersOk(events, alerts)
    ensures RefersOk(events + more, alerts)
  {
    forall a | a in alerts
      ensures Refers(events + more, a)
    {
      var e :| e in events && e.id == a.eventId && e.monitor == a.monitor && (a.isReminder ==> e.typ.DownEvent?);
      assert e in events + more;
    }
  }

  lemma NewEventCounts(events: seq<Event>, alerts: seq<Alert>, event: Event, alert: Alert, alerted: bool)
    requires CountsOk(events, alerts) && RefersOk(events, alerts) && EventIdsOk(events, event.id)
    requires alert.eventId == event.id && !alert.isReminder && (alerted <==> Alerting(event.typ))
    ensures CountsOk(events + [event], if alerted then alerts + [alert] else alerts)
  {
    forall a | a in alerts
      ensures a.eventId != event.id
    {
      assert Refers(events, a);
    }
    NoPrimaries(alerts, event.id);
    forall e | e in events + [event]
      ensures Primaries(if alerted then alerts + [alert] else alerts, e.id) == if Alerting(e.typ) then 1 else 0
    {
      PrimariesAppend(alerts, alert, e.id);
    }
  }

  lemma LogEventKeepsAlerts(db: Db, i: nat, e: Emit, at: Time)
    requires AlertsOk(db) && (e.alert <==> Alerting(e.typ))
    ensures AlertsOk(LogEvent(db, i, e, at))
  {
    var event := Event(db.nextEvent, i, e.typ, e.message, e.meta, at);
    var alert := Alert(db.nextAlert, i, event.id, Pending, 0, at, None, at, false);
    NewEventCounts(db.events, db.alerts, event, alert, e.alert);
    RefersGrows(db.events, [event], db.alerts);
    assert event in db.events + [event];
  }

  lemma {:induction false} LogEventsKeepAlerts(db: Db, i: nat, emits: seq<Emit>, at: Time)
    requires AlertsOk(db) && Paired(emits)
    ensures AlertsOk(LogEvents(db, i, emits, at))
    decreases |emits|
  {
    if |emits| > 0 {
      LogEventKeepsAlerts(db, i, emits[0], at);
      LogEventsKeepAlerts(LogEvent(db, i, emits[0], at), i, emits[1..], at);
    }
  }

  lemma TouchKeepsAlerts(w: World, i: nat, c: Change, source: Source, at: Time)
    requires AlertsOk(w.db) && Sized(w) && i < |w.past| && Paired(c.emits)
    ensures AlertsOk(Touch(w, i, c, source, at).db)
  {
    LogEventsKeepAlerts(w.db.(monitors := w.db.monitors[i := c.row]), i, c.emits, at);
  }

  lemma {:induction false} EvaluateRowsKeepAlerts(w: World, rows: seq<Claimed>, at: Time)
    requires AlertsOk(w.db) && Sized(w) && forall k :: 0 <= k < |rows| ==> rows[k].id < |w.db.monitors|
    ensures AlertsOk(EvaluateRows(w, rows, at).db)
    decreases |rows|
  {
    if |rows| > 0 {
      var c := EvaluateChange(rows[0].row, w.db.monitors[rows[0].id]);
      TouchKeepsAlerts(w, rows[0].id, c, Evaluated, at);
      EvaluateRowsKeepAlerts(Touch(w, rows[0].id, c, Evaluated, at), rows[1..], at);
    }
  }

  lemma {:induction false} SettleKeepsPrimaries(alerts: seq<Alert>, settled: seq<Alert>, eventId: nat)
    requires |alerts| == |settled|
    requires forall k :: 0 <= k < |alerts| ==>
               settled[k].eventId == alerts[k].eventId && settled[k].isReminder == alerts[k].isReminder
    ensures Primaries(settled, eventId) == Primaries(alerts, eventId)
  {
    if |alerts| > 0 { SettleKeepsPrimaries(alerts[..|alerts| - 1], settled[..|alerts| - 1], eventId); }
  }

  lemma SettleKeepsCounts(events: seq<Event>, alerts: seq<Alert>, id: nat, verdict: Verdict, next: Time, now: Time)
    requires CountsOk(events, alerts)
    ensures CountsOk(events, SettleById(alerts, id, verdict, next, now))
  {
    forall e | e in events
      ensures Primaries(SettleById(alerts, id, verdict, next, now), e.id) == Primaries(alerts, e.id)
    {
      SettleKeepsPrimaries(alerts, SettleById(alerts, id, verdict, next, now), e.id);
    }
  }

  lemma SettleKeepsRefers(events: seq<Event>, alerts: seq<Alert>, id: nat, verdict: Verdict, next: Time, now: Time)
    requires RefersOk(events, alerts)
    ensures RefersOk(events, SettleById(alerts, id, verdict, next, now))
  {
    var settled := SettleById(alerts, id, verdict, next, now);
    forall a | a in settled
      ensures Refers(events, a)
    {
      var k :| 0 <= k < |settled| && settled[k] == a;
      assert Refers(events, alerts[k]);
    }
  }

  lemma SettleKeepsAlerts(db: Db, id: nat, verdict: Verdict, next: Time, now: Time)
    requires AlertsOk(db)
    ensures AlertsOk(db.(alerts := SettleById(db.alerts, id, verdict, next, now)))
  {
    SettleKeepsCounts(db.events, db.alerts, id, verdict, next, now);
    SettleKeepsRefers(db.events, db.alerts, id, verdict, next, now);
  }

  lemma RecordKeepsAlerts(db: Db, job: AlertJob, verdict: Verdict, next: Time, now: Time)
    requires AlertsOk(db)
    ensures AlertsOk(Record(db, job, verdict, next, now))
  {
    var settled := db.(alerts := SettleById(db.alerts, job.id, verdict, next, now));
    SettleKeepsAlerts(db, job.id, verdict, next, now);
    if verdict.GiveUp? { LogEventsKeepAlerts(settled, job.monitor, [FailureEvent(verdict.reason)], now); }
  }

  lemma ReminderKeepsCounts(events: seq<Event>, alerts: seq<Alert>, a: Alert)
    requires CountsOk(events, alerts) && a.isReminder
    ensures CountsOk(events, alerts + [a])
  {
    forall e | e in events
      ensures Primaries(alerts + [a], e.id) == Primaries(alerts, e.id)
    {
      PrimariesAppend(alerts, a, e.id);
    }
  }

  lemma RemindOneKeepsAlerts(db: Db, i: nat, now: Time)
    requires AlertsOk(db) && i < |db.monitors|
    ensures AlertsOk(RemindOne(db, i, now))
  {
    if WantsReminder(db, i, now) {
      var event := LatestDown(db.events, i, None).value;
      ReminderKeepsCounts(db.events, db.alerts, Alert(db.nextAlert, i, event.id, Pending, 0, now, None, now, true));
    }
  }

  lemma {:induction false} RemindKeepsAlerts(db: Db, k: nat, now: Time)
    requires AlertsOk(db) && k <= |db.monitors|
    ensures AlertsOk(RemindFrom(db, k, now))
    decreases |db.monitors| - k
  {
    if k < |db.monitors| {
      RemindOneKeepsAlerts(db, k, now);
      RemindKeepsAlerts(RemindOne(db, k, now), k + 1, now);
    }
  }

  lemma {:induction false} PruneKeepsPrimaries(alerts: seq<Alert>, doomed: set<nat>, eventId: nat)
    requires eventId !in doomed
    ensures Primaries(KeepAlerts(alerts, doomed, true), eventId) == Primaries(alerts, eventId)
  {
    if |alerts| > 0 {
      var front, kept := alerts[..|alerts| - 1], KeepAlerts(alerts, doomed, true);
      PruneKeepsPrimaries(front, doomed, eventId);
      if alerts[|alerts| - 1].eventId !in doomed {
        assert kept[..|kept| - 1] == KeepAlerts(front, doomed, true);
      }
    }
  }

  lemma {:induction false} PruneKeepsIds(alerts: seq<Alert>, doomed: set<nat>, kept: bool, next: nat)
    requires IdsOk(alerts, next)
    ensures IdsOk(KeepAlerts(alerts, doomed, kept), next)
  {
    if |alerts| > 0 {
      var front := alerts[..|alerts| - 1];
      PruneKeepsIds(front, doomed, kept, alerts[|alerts| - 1].id);
    }
  }

  lemma PruneKeepsCounts(events: seq<Event>, alerts: seq<Alert>, doomed: set<nat>)
    requires CountsOk(events, alerts)
    ensures CountsOk(KeepEvents(events, doomed), KeepAlerts(alerts, doomed, true))
  {
    forall e | e in KeepEvents(events, doomed)
      ensures Primaries(KeepAlerts(alerts, doomed, true), e.id) == Primaries(alerts, e.id)
    {
      PruneKeepsPrimaries(alerts, doomed, e.id);
    }
  }

  lemma PruneKeepsRefers(events: seq<Event>, alerts: seq<Alert>, doomed: set<nat>)
    requires RefersOk(events, alerts)
    ensures RefersOk(KeepEvents(events, doomed), KeepAlerts(alerts, doomed, true))
  {
    forall a | a in KeepAlerts(alerts, doomed, true)
      ensures Refers(KeepEvents(events, doomed), a)
    {
      var e :| e in events && e.id == a.eventId && e.monitor == a.monitor && (a.isReminder ==> e.typ.DownEvent?);
      assert e in KeepEvents(events, doomed);
    }
  }

  lemma PruneKeepsAlerts(db: Db, doomed: set<nat>)
    requires AlertsOk(db)
    ensures AlertsOk(PruneDb(db, doomed))
  {
    PruneKeepsIds(db.alerts, doomed, true, db.nextAlert);
    PruneKeepsCounts(db.events, db.alerts, doomed);
    PruneKeepsRefers(db.events, db.alerts, doomed);
  }

  lemma ReportKeepsAlerts(cal: Calendar, w: World, s: Step)
    requires AlertsOk(w.db) && Enabled(w, s) && (s.CheckIn? || s.Probe?)
    ensures AlertsOk(Do(cal, w, s).db)
  {
    match s
    case CheckIn(i, kind, at) =>
      var r := CheckinChange(cal, w.db.monitors[i], kind, at);
      if r.Ok? {
        var v := AddCheckin(w, i, kind, at);
        assert AlertsOk(v.db);
        TouchKeepsAlerts(v, i, r.value, Reported(kind), at);
      }
    case Probe(i, o, at) =>
      var v := Probing(w, i, o, at);
      assert AlertsOk(v.db);
      TouchKeepsAlerts(v, i, ProbeChange(w.db.monitors[i], o), Probed, at);
  }

  lemma FlagKeepsAlerts(cal: Calendar, w: World, s: Step)
    requires AlertsOk(w.db) && Enabled(w, s) && (s.Pause? || s.Mute? || s.Resume?)
    ensures AlertsOk(Do(cal, w, s).db)
  {
    match s
    case Pause(i, at) => TouchKeepsAlerts(w, i, PauseChange(w.db.monitors[i], at), Flagged, at);
    case Mute(i, muted, at) => TouchKeepsAlerts(w, i, MuteChange(w.db.monitors[i], muted), Flagged, at);
    case Resume(i, at) =>
      var r := ResumeChange(cal, w.db.monitors[i], at);
      if r.Ok? { TouchKeepsAlerts(w, i, r.value, Resumption, at); }
  }

  lemma DispatchKeepsAlerts(w: World, send: SendResult, at: Time, recorded: bool)
    requires AlertsOk(w.db) && Sized(w) && |w.jobs| > 0 && w.jobs[0].monitor < |w.db.monitors|
    ensures AlertsOk(DispatchStep(w, send, at, recorded).db)
  {
    var job := w.jobs[0];
    RecordKeepsAlerts(w.db, job, Judge(job, send), at + Backoff(job.attempts), at);
  }

  lemma StepKeepsAlerts(cal: Calendar, w: World, s: Step)
    requires AlertsOk(w.db) && Enabled(w, s)
    ensures AlertsOk(Do(cal, w, s).db)
  {
    match s
    case CheckIn(_, _, _) => ReportKeepsAlerts(cal, w, s);
    case Probe(_, _, _) => ReportKeepsAlerts(cal, w, s);
    case Pause(_, _) => FlagKeepsAlerts(cal, w, s);
    case Mute(_, _, _) => FlagKeepsAlerts(cal, w, s);
    case Resume(_, _) => FlagKeepsAlerts(cal, w, s);
    case Commit(r) => EvaluateRowsKeepAlerts(w.(claims := w.claims - {r}), w.claims[r].rows, w.claims[r].at);
    case Remind(at) => RemindKeepsAlerts(w.db, 0, at);
    case DispatchNext(send, at, recorded) => DispatchKeepsAlerts(w, send, at, recorded);
    case Prune(doomed, _) => PruneKeepsAlerts(w.db, doomed);
    case _ =>
  }

  lemma {:induction false} RunKeepsAlerts(cal: Calendar, ws: seq<World>, steps: seq<Step>, k: nat)
    requires Run(cal, ws, steps) && k < |ws|
    ensures AlertsOk(ws[k].db)
  {
    if k > 0 {
      RunKeepsAlerts(cal, ws, steps, k - 1);
      assert StepsTo(cal, ws[k - 1], steps[k - 1], ws[k - 1 + 1]);
      StepKeepsAlerts(cal, ws[k - 1], steps[k - 1]);
    }
  }

  // The audit's first invariant, for every run: each stored down, up and tls_expiry
  // event has exactly one alert that is not a reminder, no other event has one, every
  // stored alert references a stored event, and only down events have reminders.
  lemma ExactlyOneAlert(cal: Calendar, ws: seq<World>, steps: seq<Step>, k: nat, e: Event)
    requires Run(cal, ws, steps) && k < |ws| && e in ws[k].db.events
    ensures Primaries(ws[k].db.alerts, e.id) == if Alerting(e.typ) then 1 else 0
    ensures forall a :: a in ws[k].db.alerts ==> Refers(ws[k].db.events, a)
  {
    RunKeepsAlerts(cal, ws, steps, k);
  }
}
