/** The monitoring engine as one transition system.
  *
  * A step is one committed transaction, or the release of locks without effect.
  * Scheduler replicas claim rows (and lock them) in one step and commit or abort
  * in a later one; the alerter claims jobs in one step and dispatches them one
  * by one later, without holding locks. `past`, `log`, `pruned`, `prunedAlerts` and
  * `tries` record history for the theorems and influence nothing.
  */
module Engine {
  import opened Model
  import opened Schedule
  import opened Rows
  import opened Outbox

  datatype Source = Reported(kind: CheckinKind) | Evaluated | Flagged | Resumption | Probed | DeliveryFailure

  // One transaction on one monitor: its time, the state it left, the event types it wrote.
  datatype Entry = Entry(at: Time, source: Source, state: State, emits: seq<EventType>)

  // A monitor's history. `serial` holds while every recorded probe was computed from a
  // snapshot that agreed with the row on whether the monitor is down.
  datatype Past = Past(entries: seq<Entry>, serial: bool)

  datatype Claimed = Claimed(id: nat, row: Monitor)

  datatype Claim = Claim(rows: seq<Claimed>, at: Time)

  datatype Try = Try(claimedAt: Time, recordedAt: Time, verdict: Verdict)

  datatype World = World(
    db: Db,
    past: seq<Past>,
    claims: map<nat, Claim>,
    jobs: seq<AlertJob>,
    claimedAt: Time,
    tries: map<nat, seq<Try>>,
    log: seq<Event>,           // every event ever written
    pruned: set<nat>,          // ids of the events deleted since
    prunedAlerts: seq<Alert>)  // alerts deleted with them

  datatype Step =
    | Create(m: Monitor)
    | CheckIn(i: nat, kind: CheckinKind, at: Time)
    | ClaimDue(replica: nat, ids: seq<nat>, at: Time)
    | Commit(replica: nat)
    | Abort(replica: nat)
    | Pause(i: nat, at: Time)
    | Mute(i: nat, muted: bool, at: Time)
    | Resume(i: nat, at: Time)
    | Probe(i: nat, outcome: ProbeOutcome, at: Time)
    | Remind(at: Time)
    | ClaimAlerts(rows: seq<nat>, at: Time)
    | DispatchNext(send: SendResult, at: Time, recorded: bool)
    | StopAlerter
    | Prune(doomed: set<nat>, cutoff: Time)

  function Types(emits: seq<Emit>): (r: seq<EventType>)
    ensures |r| == |emits|
  {
    if |emits| == 0 then [] else [emits[0].typ] + Types(emits[1..])
  }

  ghost predicate Sized(w: World) {
    |w.past| == |w.db.monitors|
  }

  // A committed transaction on monitor i, recorded in its history.
  function Touch(w: World, i: nat, c: Change, source: Source, at: Time): World
    requires i < |w.db.monitors| == |w.past|
  {
    w.(db := Apply(w.db, i, c, at),
       log := w.log + Stamp(w.db.nextEvent, i, c.emits, at),
       past := w.past[i := w.past[i].(entries := w.past[i].entries + [Entry(at, source, c.row.state, Types(c.emits))])])
  }

  predicate Locked(w: World, i: nat) {
    exists r :: r in w.claims && HasRow(w.claims[r], i)
  }

  predicate HasRow(c: Claim, i: nat) {
    exists k :: 0 <= k < |c.rows| && c.rows[k].id == i
  }

  predicate Distinct<T(==)>(s: seq<T>) {
    forall j, k :: 0 <= j < k < |s| ==> s[j] != s[k]
  }

  function Snapshot(ms: seq<Monitor>, ids: seq<nat>): (r: seq<Claimed>)
    requires forall k :: 0 <= k < |ids| ==> ids[k] < |ms|
    ensures |r| == |ids| && forall k :: 0 <= k < |r| ==> r[k] == Claimed(ids[k], ms[ids[k]])
  {
    seq(|ids|, k requires 0 <= k < |ids| => Claimed(ids[k], ms[ids[k]]))
  }

  // evaluateOne over the claimed rows, in order.
  function EvaluateRows(w: World, rows: seq<Claimed>, at: Time): (r: World)
    requires Sized(w) && forall k :: 0 <= k < |rows| ==> rows[k].id < |w.db.monitors|
    ensures Sized(r) && |r.db.monitors| == |w.db.monitors|
    ensures r.claims == w.claims && r.jobs == w.jobs && r.tries == w.tries
    decreases |rows|
  {
    if |rows| == 0 then w
    else
      var Claimed(i, claimed) := rows[0];
      EvaluateRows(Touch(w, i, EvaluateChange(claimed, w.db.monitors[i]), Evaluated, at), rows[1..], at)
  }

  // Giving up on an alert writes an alert_failed event.
  function LogVerdict(log: seq<Event>, first: nat, i: nat, verdict: Verdict, at: Time): seq<Event> {
    if verdict.GiveUp? then log + Stamp(first, i, [FailureEvent(verdict.reason)], at) else log
  }

  function DispatchStep(w: World, send: SendResult, at: Time, recorded: bool): World
    requires |w.jobs| > 0 && w.jobs[0].monitor < |w.db.monitors| == |w.past|
  {
    var job, rest := w.jobs[0], w.(jobs := w.jobs[1..]);
    if !recorded then rest
    else
      var verdict := Judge(job, send);
      var p := w.past[job.monitor];
      rest.(db := Dispatch(w.db, job, send, at),
            tries := w.tries[job.id := TriesOf(w, job.id) + [Try(w.claimedAt, at, verdict)]],
            log := LogVerdict(w.log, w.db.nextEvent, job.monitor, verdict, at),
            past := if verdict.GiveUp? then
                      w.past[job.monitor := p.(entries := p.entries + [
                        Entry(at, DeliveryFailure, w.db.monitors[job.monitor].state, [AlertFailedEvent])])]
                    else w.past)
  }

  function TriesOf(w: World, id: nat): seq<Try> {
    if id in w.tries then w.tries[id] else []
  }

  function KeepEvents(events: seq<Event>, doomed: set<nat>): (r: seq<Event>)
    ensures forall e :: e in r <==> e in events && e.id !in doomed
  {
    if |events| == 0 then []
    else
      var rest, e := KeepEvents(events[..|events| - 1], doomed), events[|events| - 1];
      if e.id !in doomed then rest + [e] else rest
  }

  function KeepAlerts(alerts: seq<Alert>, doomed: set<nat>, kept: bool): (r: seq<Alert>)
    ensures forall a :: a in r <==> a in alerts && (a.eventId !in doomed <==> kept)
  {
    if |alerts| == 0 then []
    else
      var rest, a := KeepAlerts(alerts[..|alerts| - 1], doomed, kept), alerts[|alerts| - 1];
      if (a.eventId !in doomed) == kept then rest + [a] else rest
  }

  // The event delete and its cascade into the alerts table.
  function PruneDb(db: Db, doomed: set<nat>): Db {
    db.(events := KeepEvents(db.events, doomed), alerts := KeepAlerts(db.alerts, doomed, true))
  }

  predicate Prunable(db: Db, e: Event, cutoff: Time) {
    e.at < cutoff && !exists a :: a in db.alerts && a.eventId == e.id && a.status.Pending?
  }

  // A row as CreateMonitor inserts it: runtime columns at their defaults.
  predicate Newborn(m: Monitor) {
    m.state.New? && m.failStreak == 0 && m.lastCheckinAt.None? && m.nextDeadline.None? &&
    !m.alertsMuted && m.pausedAt.None? && m.tlsWarnedExpiresAt.None?
  }

  ghost predicate Enabled(w: World, s: Step) {
    Sized(w) &&
    match s
    case Create(m) => Newborn(m)
    case CheckIn(i, _, _) => i < |w.db.monitors| && !Locked(w, i)
    case ClaimDue(r, ids, at) =>
      r !in w.claims && Distinct(ids) &&
      (forall k :: 0 <= k < |ids| ==> ids[k] < |w.db.monitors| && !Locked(w, ids[k]) && Due(w.db.monitors[ids[k]], at))
    case Commit(r) => r in w.claims && forall k :: 0 <= k < |w.claims[r].rows| ==> w.claims[r].rows[k].id < |w.db.monitors|
    case Abort(r) => r in w.claims
    case Pause(i, _) => i < |w.db.monitors| && !Locked(w, i)
    case Mute(i, _, _) => i < |w.db.monitors| && !Locked(w, i)
    case Resume(i, _) => i < |w.db.monitors| && !Locked(w, i)
    case Probe(i, _, _) => i < |w.db.monitors| && w.db.monitors[i].kind.Http? && !Locked(w, i)
    case Remind(_) => true
    case ClaimAlerts(rows, at) =>
      w.jobs == [] && Distinct(rows) &&
      (forall k :: 0 <= k < |rows| ==> rows[k] < |w.db.alerts| && AlertDue(w.db.alerts[rows[k]], at) &&
                                       w.db.alerts[rows[k]].monitor < |w.db.monitors|)
    case DispatchNext(_, at, _) => |w.jobs| > 0 && w.jobs[0].monitor < |w.db.monitors| && at >= w.claimedAt
    case StopAlerter => true
    case Prune(doomed, cutoff) =>
      (forall id :: id in doomed ==> id < w.db.nextEvent) &&
      (forall e :: e in w.db.events && e.id in doomed ==> Prunable(w.db, e, cutoff))
  }

  function Jobs(db: Db, rows: seq<nat>): (r: seq<AlertJob>)
    requires forall k :: 0 <= k < |rows| ==> rows[k] < |db.alerts| && db.alerts[rows[k]].monitor < |db.monitors|
    ensures |r| == |rows| && forall k :: 0 <= k < |r| ==> r[k] == JobFor(db, db.alerts[rows[k]])
  {
    seq(|rows|, k requires 0 <= k < |rows| => JobFor(db, db.alerts[rows[k]]))
  }

  // A schedule that no longer validates rolls the transaction back.
  function TouchIfOk(w: World, i: nat, r: Result<Change, InvalidField>, source: Source, at: Time): World
    requires i < |w.db.monitors| == |w.past|
  {
    match r
    case Err(_) => w
    case Ok(c) => Touch(w, i, c, source, at)
  }

  function AddCheckin(w: World, i: nat, kind: CheckinKind, at: Time): World {
    w.(db := w.db.(checkins := w.db.checkins + [Checkin(i, kind, at)]))
  }

  function CheckInStep(cal: Calendar, w: World, i: nat, kind: CheckinKind, at: Time): World
    requires i < |w.db.monitors| == |w.past|
  {
    match CheckinChange(cal, w.db.monitors[i], kind, at)
    case Err(_) => w
    case Ok(c) => Touch(AddCheckin(w, i, kind, at), i, c, Reported(kind), at)
  }

  // The probe_results row, and whether the prober's snapshot was still current enough.
  function Probing(w: World, i: nat, o: ProbeOutcome, at: Time): World
    requires i < |w.db.monitors| == |w.past|
  {
    w.(db := w.db.(probeResults := w.db.probeResults + [ProbeResult(i, o.ok, o.latencyMs, at)]),
       past := w.past[i := w.past[i].(serial := w.past[i].serial && AgreesOnDown(w.db.monitors[i], o))])
  }

  ghost function Do(cal: Calendar, w: World, s: Step): (r: World)
    requires Enabled(w, s)
    ensures Sized(r)
  {
    match s
    case Create(m) => w.(db := w.db.(monitors := w.db.monitors + [m]), past := w.past + [Past([], true)])
    case CheckIn(i, kind, at) => CheckInStep(cal, w, i, kind, at)
    case ClaimDue(r, ids, at) => w.(claims := w.claims[r := Claim(Snapshot(w.db.monitors, ids), at)])
    case Commit(r) => EvaluateRows(w.(claims := w.claims - {r}), w.claims[r].rows, w.claims[r].at)
    case Abort(r) => w.(claims := w.claims - {r})
    case Pause(i, at) => Touch(w, i, PauseChange(w.db.monitors[i], at), Flagged, at)
    case Mute(i, muted, at) => Touch(w, i, MuteChange(w.db.monitors[i], muted), Flagged, at)
    case Resume(i, at) => TouchIfOk(w, i, ResumeChange(cal, w.db.monitors[i], at), Resumption, at)
    case Probe(i, o, at) => Touch(Probing(w, i, o, at), i, ProbeChange(w.db.monitors[i], o), Probed, at)
    case Remind(at) => w.(db := RemindFrom(w.db, 0, at))
    case ClaimAlerts(rows, at) => w.(jobs := Jobs(w.db, rows), claimedAt := at)
    case DispatchNext(send, at, recorded) => DispatchStep(w, send, at, recorded)
    case StopAlerter => w.(jobs := [])
    case Prune(doomed, _) =>
      w.(db := PruneDb(w.db, doomed),
         pruned := w.pruned + doomed,
         prunedAlerts := w.prunedAlerts + KeepAlerts(w.db.alerts, doomed, false))
  }

  const EMPTY := World(Db([], [], [], [], [], 0, 0), [], map[], [], 0, map[], [], {}, [])

  ghost predicate StepsTo(cal: Calendar, v: World, s: Step, w: World) {
    Enabled(v, s) && w == Do(cal, v, s)
  }

  // A run from the empty database: the worlds passed through and the steps between them.
  ghost predicate Run(cal: Calendar, ws: seq<World>, steps: seq<Step>) {
    |ws| == |steps| + 1 && ws[0] == EMPTY &&
    forall k :: 0 <= k < |steps| ==> StepsTo(cal, ws[k], steps[k], ws[k + 1])
  }

  // A run goes on with any enabled step.
  lemma Extend(cal: Calendar, ws: seq<World>, steps: seq<Step>, s: Step) returns (vs: seq<World>, more: seq<Step>)
    requires Run(cal, ws, steps) && Enabled(ws[|ws| - 1], s)
    ensures Run(cal, vs, more) && vs == ws + [Do(cal, ws[|ws| - 1], s)] && more == steps + [s]
  {
    vs, more := ws + [Do(cal, ws[|ws| - 1], s)], steps + [s];
    forall k | 0 <= k < |more|
      ensures StepsTo(cal, vs[k], more[k], vs[k + 1])
    {
      if k < |steps| { assert StepsTo(cal, ws[k], steps[k], ws[k + 1]); }
    }
  }
}
