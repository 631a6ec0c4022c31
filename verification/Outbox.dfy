/** The alert outbox: reminders, claims and delivery verdicts (worker/alerter, store/alerter.go). */
module Outbox {
  import opened Model

  const MAX_ATTEMPTS := 3
  const BASE_BACKOFF: Time := 60
  const BACKOFF_MULT := 5

  // A claimed row, as the dispatcher sees it after the claim has released its locks.
  datatype AlertJob = AlertJob(id: nat, monitor: nat, eventId: nat, isReminder: bool, attempts: int, alertsMuted: bool)

  datatype SendResult = NoChannel | RenderFailed | Delivered | Refused(retryable: bool)

  datatype Verdict = Suppress | MarkSent | Retry | GiveUp(reason: FailReason)

  function Pow5(n: nat): (r: int)
    ensures r >= 1
  {
    if n == 0 then 1 else BACKOFF_MULT * Pow5(n - 1)
  }

  function Backoff(attempts: int): Time {
    if attempts <= 0 then BASE_BACKOFF else BASE_BACKOFF * Pow5(attempts)
  }

  // dispatch: what one send result means for the claimed alert.
  function Judge(job: AlertJob, send: SendResult): Verdict {
    if job.alertsMuted then Suppress
    else match send
      case NoChannel => GiveUp(NotConfigured)
      case RenderFailed => GiveUp(NotBuilt)
      case Delivered => MarkSent
      case Refused(retryable) =>
        if retryable && job.attempts + 1 < MAX_ATTEMPTS then Retry
        else GiveUp(Rejected)
  }

  // The UPDATE that records a verdict on a stored row.
  function Settle(a: Alert, verdict: Verdict, next: Time, now: Time): Alert {
    match verdict
    case Suppress => a.(status := Sent)
    case MarkSent => a.(status := Sent, sentAt := Some(now), attempts := a.attempts + 1)
    case Retry => a.(attempts := a.attempts + 1, nextAttemptAt := next)
    case GiveUp(_) => a.(status := Failed, attempts := a.attempts + 1)
  }

  function SettleById(alerts: seq<Alert>, id: nat, verdict: Verdict, next: Time, now: Time): (r: seq<Alert>)
    ensures |r| == |alerts|
    ensures forall k :: 0 <= k < |r| ==>
              r[k] == (if alerts[k].id == id then Settle(alerts[k], verdict, next, now) else alerts[k]) &&
              r[k].id == alerts[k].id && r[k].eventId == alerts[k].eventId && r[k].monitor == alerts[k].monitor &&
              r[k].createdAt == alerts[k].createdAt && r[k].isReminder == alerts[k].isReminder
  {
    seq(|alerts|, k requires 0 <= k < |alerts| =>
      if alerts[k].id == id then Settle(alerts[k], verdict, next, now) else alerts[k])
  }

  function FailureEvent(reason: FailReason): Emit {
    Emit(AlertFailedEvent, DeliveryFailed(reason), None, false)
  }

  // MarkAlertSent, SuppressAlert, RescheduleAlert or FailAlert with its event.
  function Record(db: Db, job: AlertJob, verdict: Verdict, next: Time, now: Time): Db {
    var settled := db.(alerts := SettleById(db.alerts, job.id, verdict, next, now));
    if verdict.GiveUp? then LogEvents(settled, job.monitor, [FailureEvent(verdict.reason)], now) else settled
  }

  // One dispatched job; `now` is read after the send.
  function Dispatch(db: Db, job: AlertJob, send: SendResult, now: Time): Db {
    Record(db, job, Judge(job, send), now + Backoff(job.attempts), now)
  }

  // ---------------------------------------------------------------- claims

  predicate AlertDue(a: Alert, now: Time) {
    a.status.Pending? && a.nextAttemptAt < now
  }

  function JobFor(db: Db, a: Alert): AlertJob
    requires a.monitor < |db.monitors|
  {
    AlertJob(a.id, a.monitor, a.eventId, a.isReminder, a.attempts, db.monitors[a.monitor].alertsMuted)
  }

  // ------------------------------------------------------------- reminders

  predicate DownBefore(e: Event, i: nat, before: Option<Time>) {
    e.monitor == i && e.typ.DownEvent? && (before.None? || e.at <= before.value)
  }

  // The monitor's most recent stored `down` event, optionally bounded in time.
  function LatestDown(events: seq<Event>, i: nat, before: Option<Time>): (r: Option<Event>)
    ensures r.Some? ==> r.value in events && DownBefore(r.value, i, before)
    ensures forall e :: e in events && DownBefore(e, i, before) ==> r.Some? && e.at <= r.value.at
  {
    if |events| == 0 then None
    else
      var rest, e := LatestDown(events[..|events| - 1], i, before), events[|events| - 1];
      if DownBefore(e, i, before) && (rest.None? || rest.value.at <= e.at) then Some(e) else rest
  }

  predicate AlertedSince(alerts: seq<Alert>, i: nat, since: Time) {
    exists a :: a in alerts && a.monitor == i && a.createdAt > since
  }

  predicate WantsReminder(db: Db, i: nat, now: Time)
    requires i < |db.monitors|
  {
    var m := db.monitors[i];
    m.state.Down? && !m.alertsMuted && m.reminderEveryS > 0 &&
    !AlertedSince(db.alerts, i, now - m.reminderEveryS) &&
    LatestDown(db.events, i, None).Some?
  }

  function RemindOne(db: Db, i: nat, now: Time): (r: Db)
    requires i < |db.monitors|
    ensures r.monitors == db.monitors && r.events == db.events && r.nextEvent == db.nextEvent
  {
    if WantsReminder(db, i, now) then
      var event := LatestDown(db.events, i, None).value;
      db.(alerts := db.alerts + [Alert(db.nextAlert, i, event.id, Pending, 0, now, None, now, true)],
          nextAlert := db.nextAlert + 1)
    else db
  }

  // EnqueueDownReminders over the monitors from position k on.
  function RemindFrom(db: Db, k: nat, now: Time): (r: Db)
    requires k <= |db.monitors|
    ensures r.monitors == db.monitors && r.events == db.events && r.nextEvent == db.nextEvent
    decreases |db.monitors| - k
  {
    if k == |db.monitors| then db else RemindFrom(RemindOne(db, k, now), k + 1, now)
  }

  // A reminder is due: the monitor is down and not muted, reminders are on, none of its
  // alerts was created within the last cadence, and a down event of it is stored.
  predicate ReminderDue(db: Db, i: nat, now: Time)
    requires i < |db.monitors|
  {
    var m := db.monitors[i];
    m.state.Down? && !m.alertsMuted && m.reminderEveryS > 0 &&
    (forall a :: a in db.alerts && a.monitor == i ==> a.createdAt <= now - m.reminderEveryS) &&
    exists e :: e in db.events && e.monitor == i && e.typ.DownEvent?
  }

  // The alert reminds of a latest stored down event of its monitor, and is due at once.
  predicate RemindsOfLatest(db: Db, a: Alert, id: nat, i: nat, now: Time) {
    a == Alert(id, i, a.eventId, Pending, 0, now, None, now, true) &&
    exists e :: e in db.events && e.monitor == i && e.typ.DownEvent? && e.id == a.eventId &&
                forall d :: d in db.events && d.monitor == i && d.typ.DownEvent? ==> d.at <= e.at
  }

  // The monitors below n that a reminder is due for, in order.
  ghost predicate ThoseDue(db: Db, ids: seq<nat>, n: nat, now: Time)
    requires n <= |db.monitors|
  {
    (forall i: nat :: i in ids <==> i < n && ReminderDue(db, i, now)) && forall j, k :: 0 <= j < k < |ids| ==> ids[j] < ids[k]
  }

  // One reminder for each listed monitor, in order, and nothing else.
  ghost predicate RemindersAdded(db: Db, after: Db, ids: seq<nat>, now: Time) {
    |after.alerts| == |db.alerts| + |ids| && db.alerts <= after.alerts && after.nextAlert == db.nextAlert + |ids| &&
    (forall k :: 0 <= k < |ids| ==> RemindsOfLatest(db, after.alerts[|db.alerts| + k], db.nextAlert + k, ids[k], now)) &&
    after == db.(alerts := after.alerts, nextAlert := after.nextAlert)
  }

  // Reminders of other monitors do not stand in the way of this one's.
  lemma WantsIffDue(db: Db, mid: Db, ids: seq<nat>, k: nat, now: Time)
    requires k < |db.monitors| && ThoseDue(db, ids, k, now) && RemindersAdded(db, mid, ids, now)
    ensures WantsReminder(mid, k, now) <==> ReminderDue(db, k, now)
  {
    var l, added := |db.alerts|, mid.alerts[|db.alerts|..];
    assert mid.alerts == db.alerts + added;
    forall t | 0 <= t < |added|
      ensures added[t].monitor != k
    {
      assert RemindsOfLatest(db, mid.alerts[l + t], db.nextAlert + t, ids[t], now) && ids[t] in ids;
    }
    if exists e :: e in db.events && e.monitor == k && e.typ.DownEvent? {
      var e :| e in db.events && e.monitor == k && e.typ.DownEvent?;
      assert DownBefore(e, k, None);
    }
  }

  lemma AddsLatest(db: Db, mid: Db, k: nat, now: Time)
    requires k < |db.monitors| && mid == db.(alerts := mid.alerts, nextAlert := mid.nextAlert) && WantsReminder(mid, k, now)
    ensures var after := RemindOne(mid, k, now);
            |after.alerts| == |mid.alerts| + 1 && mid.alerts <= after.alerts && after.nextAlert == mid.nextAlert + 1 &&
            RemindsOfLatest(db, after.alerts[|mid.alerts|], mid.nextAlert, k, now) &&
            after == mid.(alerts := after.alerts, nextAlert := after.nextAlert)
  {
    var e := LatestDown(db.events, k, None).value;
    assert DownBefore(e, k, None);
    forall d | d in db.events && d.monitor == k && d.typ.DownEvent?
      ensures d.at <= e.at
    {
      assert DownBefore(d, k, None);
    }
  }

  lemma RemindOneMore(db: Db, mid: Db, ids: seq<nat>, k: nat, now: Time) returns (more: seq<nat>)
    requires k < |db.monitors| && ThoseDue(db, ids, k, now) && RemindersAdded(db, mid, ids, now)
    ensures ThoseDue(db, more, k + 1, now) && RemindersAdded(db, RemindOne(mid, k, now), more, now)
  {
    WantsIffDue(db, mid, ids, k, now);
    more := ids;
    if WantsReminder(mid, k, now) {
      AddsLatest(db, mid, k, now);
      more := ids + [k];
      forall j | 0 <= j < |ids|
        ensures ids[j] < k
      {
        assert ids[j] in ids;
      }
    }
  }

  // The statement enqueues exactly the reminders that are due.
  lemma {:induction false} RemindInColumns(db: Db, mid: Db, ids: seq<nat>, k: nat, now: Time) returns (all: seq<nat>)
    requires k <= |db.monitors| && ThoseDue(db, ids, k, now) && RemindersAdded(db, mid, ids, now)
    ensures ThoseDue(db, all, |db.monitors|, now) && RemindersAdded(db, RemindFrom(mid, k, now), all, now)
    decreases |db.monitors| - k
  {
    if k == |db.monitors| {
      all := ids;
    } else {
      var more := RemindOneMore(db, mid, ids, k, now);
      all := RemindInColumns(db, RemindOne(mid, k, now), more, k + 1, now);
    }
  }

  // ResolveDowntime: zero when no down event is stored at or before the recovery.
  function ResolveDowntime(events: seq<Event>, i: nat, recoveredAt: Time): Time {
    var opening := LatestDown(events, i, Some(recoveredAt));
    if opening.None? then 0
    else if recoveredAt - opening.value.at < 0 then 0 else recoveredAt - opening.value.at
  }
}
