/** What each transaction does to the monitor row it works on. */
module Rows {
  import opened Model
  import opened Schedule

  // ---------------------------------------------------------------- check-ins

  function ScheduleConfig(m: Monitor): Config
    requires m.scheduleKind.Some?
  {
    Config(m.scheduleKind.value,
           if m.periodS.Some? then m.periodS.value else 0,
           m.cronExpr, m.tz,
           if m.graceS.Some? then m.graceS.value else 0)
  }

  predicate Scheduled(m: Monitor) {
    m.kind.Heartbeat? && m.scheduleKind.Some?
  }

  function NextDeadlineFor(cal: Calendar, m: Monitor, now: Time): Result<Option<Time>, InvalidField> {
    if !Scheduled(m) then Ok(None)
    else match NextOccurrence(cal, ScheduleConfig(m), Some(now), now)
      case Err(field) => Err(field)
      case Ok(t) => Ok(Some(t))
  }

  // UpdateMonitorOnCheckin: a check-in clears the pause only with auto_resume.
  function UpdateOnCheckin(m: Monitor, state: State, now: Time, deadline: Option<Time>, streak: int): Monitor {
    m.(state := state, lastCheckinAt := Some(now), nextDeadline := deadline, failStreak := streak,
       pausedAt := if m.autoResume then None else m.pausedAt)
  }

  // An error rolls the whole check-in back.
  function CheckinChange(cal: Calendar, m: Monitor, kind: CheckinKind, now: Time): Result<Change, InvalidField> {
    match kind
    case Start => Ok(Change(m, []))
    case Success =>
      (match NextDeadlineFor(cal, m, now)
       case Err(field) => Err(field)
       case Ok(deadline) =>
         Ok(Change(UpdateOnCheckin(m, Up, now, deadline, 0),
                   if m.state.Down? then [Emit(UpEvent, Recovered, None, true)] else [])))
    case Fail =>
      Ok(Change(UpdateOnCheckin(m, Down, now, None, m.failStreak + 1),
                if m.state.Down? then [] else [Emit(DownEvent, ReportedFailure, None, true)]))
  }

  // ---------------------------------------------------------------- scheduler

  // The claim's WHERE clause.
  predicate Claimable(m: Monitor) {
    m.nextDeadline.Some? && (m.state.Up? || m.state.Late?) && m.pausedAt.None?
  }

  predicate Due(m: Monitor, now: Time) {
    Claimable(m) && m.nextDeadline.value < now
  }

  function Grace(m: Monitor): int {
    if m.graceS.Some? then m.graceS.value else 0
  }

  // evaluateOne decides on the claimed snapshot and updates the stored row.
  function EvaluateChange(claimed: Monitor, row: Monitor): Change {
    if claimed.nextDeadline.None? then Change(row, [])
    else match claimed.state
      case Up => Change(row.(state := Late, nextDeadline := Some(claimed.nextDeadline.value + Grace(claimed))),
                        [Emit(LateEvent, IsLate, None, false)])
      case Late => Change(row.(state := Down, nextDeadline := None, failStreak := row.failStreak + 1),
                          [Emit(DownEvent, MissedDeadline, None, true)])
      case _ => Change(row, [])
  }

  // ------------------------------------------------------------ monitor flags

  function PauseChange(m: Monitor, now: Time): Change {
    Change(m.(pausedAt := Some(now)), [Emit(PauseEvent, Paused, None, false)])
  }

  function MuteChange(m: Monitor, muted: bool): Change {
    Change(m.(alertsMuted := muted),
           [if muted then Emit(MuteEvent, AlertsMuted, None, false) else Emit(UnmuteEvent, AlertsUnmuted, None, false)])
  }

  // ResumeMonitor never writes an "up" event.
  function ResumeChange(cal: Calendar, m: Monitor, now: Time): Result<Change, InvalidField> {
    match NextDeadlineFor(cal, m, now)
    case Err(field) => Err(field)
    case Ok(deadline) =>
      Ok(Change(m.(pausedAt := None, state := Up, nextDeadline := deadline),
                [Emit(ResumeEvent, Resumed, None, false)]))
  }

  // ------------------------------------------------------------------- prober

  const TLS_WARNING_WINDOW: Instant := 14 * 24 * 3600 * SECOND
  const DEFAULT_FAIL_THRESHOLD := 2

  datatype ProbeOutcome = ProbeOutcome(
    ok: bool,
    latencyMs: Option<int>,
    error: string,
    tlsExpiresAt: Option<Instant>,
    failThreshold: int,
    priorState: Option<State>,
    priorFailStreak: int,
    priorTlsWarned: Option<Instant>,
    nextProbeAt: Time,
    now: Instant)

  function Threshold(o: ProbeOutcome): (k: int)
    ensures k >= 1
  {
    if o.failThreshold <= 0 then DEFAULT_FAIL_THRESHOLD else o.failThreshold
  }

  function NextProbeState(o: ProbeOutcome): (State, int) {
    if o.ok then (Up, 0)
    else
      var streak := o.priorFailStreak + 1;
      if streak >= Threshold(o) then (Down, streak)
      else (if o.priorState.None? then Up else o.priorState.value, streak)
  }

  // time.Time.Truncate(time.Second), and the microsecond precision of a stored timestamp.
  function WholeSecond(t: Instant): int { t / SECOND }

  function Stored(t: Instant): Instant { t - t % 1000 }

  predicate InWindow(o: ProbeOutcome) {
    o.tlsExpiresAt.Some? && o.tlsExpiresAt.value - o.now <= TLS_WARNING_WINDOW
  }

  predicate WarnsTls(o: ProbeOutcome) {
    InWindow(o) &&
    !(o.priorTlsWarned.Some? && WholeSecond(o.priorTlsWarned.value) == WholeSecond(o.tlsExpiresAt.value))
  }

  function TransitionEmits(o: ProbeOutcome): seq<Emit> {
    var state := NextProbeState(o).0;
    if state.Down? && o.priorState != Some(Down) then [Emit(DownEvent, ProbeFailed(o.error), None, true)]
    else if state.Up? && o.priorState == Some(Down) then [Emit(UpEvent, Recovered, None, true)]
    else []
  }

  function TlsEmits(o: ProbeOutcome): seq<Emit> {
    if WarnsTls(o) then [Emit(TlsExpiryEvent, CertificateExpires, o.tlsExpiresAt, true)] else []
  }

  function ProbeChange(row: Monitor, o: ProbeOutcome): Change {
    var (state, streak) := NextProbeState(o);
    var probed := row.(state := state, failStreak := streak, nextProbeAt := Some(o.nextProbeAt));
    Change(if WarnsTls(o) then probed.(tlsWarnedExpiresAt := Some(Stored(o.tlsExpiresAt.value))) else probed,
           TransitionEmits(o) + TlsEmits(o))
  }

  // The prober's snapshot and the row agree on whether the monitor is down.
  predicate AgreesOnDown(row: Monitor, o: ProbeOutcome) {
    o.priorState == Some(Down) <==> row.state.Down?
  }

  // The outcome was computed from a snapshot that still matches the row.
  predicate Fresh(row: Monitor, o: ProbeOutcome) {
    o.priorState == Some(row.state) && o.priorFailStreak == row.failStreak && o.priorTlsWarned == row.tlsWarnedExpiresAt
  }
}
