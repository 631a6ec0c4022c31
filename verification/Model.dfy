/** The rows of the monitoring database and the whole database as one value.
  *
  * Monitors are never deleted in this model, so a monitor's id (and its slug)
  * is its position in `Db.monitors`. Event, alert and log rows carry explicit
  * ids because retention deletes them.
  */
module Model {
  // Wall-clock time in whole seconds.
  type Time = int

  // Certificate times, in nanoseconds.
  type Instant = int

  const SECOND: Instant := 1_000_000_000

  datatype Option<+T> = None | Some(value: T)

  datatype Result<+T, +E> = Ok(value: T) | Err(error: E)

  datatype Kind = Heartbeat | Http

  datatype State = New | Up | Late | Down

  datatype ScheduleKind = Period | Cron

  datatype Monitor = Monitor(
    kind: Kind,
    scheduleKind: Option<ScheduleKind>,
    periodS: Option<int>,
    cronExpr: string,
    tz: string,
    graceS: Option<int>,
    autoResume: bool,
    reminderEveryS: int,
    state: State,
    failStreak: int,
    lastCheckinAt: Option<Time>,
    nextDeadline: Option<Time>,
    nextProbeAt: Option<Time>,
    alertsMuted: bool,
    pausedAt: Option<Time>,
    tlsWarnedExpiresAt: Option<Instant>)

  datatype EventType =
    | DownEvent | UpEvent | LateEvent | PauseEvent | ResumeEvent
    | MuteEvent | UnmuteEvent | TlsExpiryEvent | AlertFailedEvent

  datatype Message =
    | IsLate | MissedDeadline | ReportedFailure | Recovered | ProbeFailed(error: string)
    | CertificateExpires | Paused | Resumed | AlertsMuted | AlertsUnmuted
    | DeliveryFailed(reason: FailReason)

  datatype FailReason = NotConfigured | NotBuilt | Rejected

  datatype Event = Event(id: nat, monitor: nat, typ: EventType, message: Message, meta: Option<Instant>, at: Time)

  datatype AlertStatus = Pending | Sent | Failed

  datatype Alert = Alert(
    id: nat,
    monitor: nat,
    eventId: nat,
    status: AlertStatus,
    attempts: int,
    nextAttemptAt: Time,
    sentAt: Option<Time>,
    createdAt: Time,
    isReminder: bool)

  datatype CheckinKind = Success | Start | Fail

  datatype Checkin = Checkin(monitor: nat, kind: CheckinKind, at: Time)

  datatype ProbeResult = ProbeResult(monitor: nat, ok: bool, latencyMs: Option<int>, at: Time)

  datatype Db = Db(
    monitors: seq<Monitor>,
    checkins: seq<Checkin>,
    probeResults: seq<ProbeResult>,
    events: seq<Event>,
    alerts: seq<Alert>,
    nextEvent: nat,
    nextAlert: nat)

  // One timeline event that a transaction writes, and whether it goes through
  // recordTransition (event and pending alert) or recordEvent (event only).
  datatype Emit = Emit(typ: EventType, message: Message, meta: Option<Instant>, alert: bool)

  // What one transaction does to one monitor: its new row and the events written.
  datatype Change = Change(row: Monitor, emits: seq<Emit>)

  // recordEvent / recordTransition: the event row and, for a transition, its outbox row.
  function LogEvent(db: Db, i: nat, e: Emit, at: Time): Db {
    var event := Event(db.nextEvent, i, e.typ, e.message, e.meta, at);
    var alert := Alert(db.nextAlert, i, event.id, Pending, 0, at, None, at, false);
    db.(events := db.events + [event],
        nextEvent := db.nextEvent + 1,
        alerts := if e.alert then db.alerts + [alert] else db.alerts,
        nextAlert := if e.alert then db.nextAlert + 1 else db.nextAlert)
  }

  // The event rows that one transaction inserts.
  function Stamp(first: nat, i: nat, emits: seq<Emit>, at: Time): seq<Event>
    decreases |emits|
  {
    if |emits| == 0 then []
    else [Event(first, i, emits[0].typ, emits[0].message, emits[0].meta, at)] + Stamp(first + 1, i, emits[1..], at)
  }

  function LogEvents(db: Db, i: nat, emits: seq<Emit>, at: Time): (r: Db)
    ensures r.monitors == db.monitors && r.checkins == db.checkins && r.probeResults == db.probeResults
    ensures r.events == db.events + Stamp(db.nextEvent, i, emits, at)
    ensures r.nextEvent == db.nextEvent + |emits|
    decreases |emits|
  {
    if |emits| == 0 then db else LogEvents(LogEvent(db, i, emits[0], at), i, emits[1..], at)
  }

  lemma LogOne(db: Db, i: nat, e: Emit, at: Time)
    ensures LogEvents(db, i, [e], at) == LogEvent(db, i, e, at)
  {
    var emits := [e];
    assert LogEvents(db, i, emits, at) == LogEvents(LogEvent(db, i, emits[0], at), i, emits[1..], at);
    assert |emits[1..]| == 0;
  }

  // A committed single-monitor transaction.
  function Apply(db: Db, i: nat, c: Change, at: Time): (r: Db)
    requires i < |db.monitors|
    ensures r.monitors == db.monitors[i := c.row]
  {
    LogEvents(db.(monitors := db.monitors[i := c.row]), i, c.emits, at)
  }
}
