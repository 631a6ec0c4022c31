/** Every alert row against the outcomes recorded for it, with one alerter: bounded
  * attempts, absorbing terminal rows, spacing of the tries, and one alert_failed event
  * per failed alert.
  */
module Delivery {
  import opened Model
  import opened Schedule
  import opened Rows
  import opened Outbox
  import opened Engine
  import opened Alerts

  predicate RetriedThen(tries: seq<Try>, k: nat)
    requires k + 1 < |tries|
  {
    tries[k].verdict.Retry? && tries[k + 1].claimedAt > tries[k].recordedAt + Backoff(k)
  }

  // All tries but the last were retries, none started before its predecessor's backoff
  // had passed, and none was recorded before it was claimed.
  predicate Spaced(tries: seq<Try>) {
    (forall k :: 0 <= k < |tries| ==> tries[k].claimedAt <= tries[k].recordedAt) &&
    (forall k :: 0 <= k < |tries| - 1 ==> RetriedThen(tries, k))
  }

  // What an alert row must look like after the recorded tries.
  predicate Fits(a: Alert, tries: seq<Try>) {
    var n := |tries|;
    Spaced(tries) && n <= MAX_ATTEMPTS &&
    match a.status
    case Pending => n < MAX_ATTEMPTS && a.attempts == n &&
                    (n > 0 ==> tries[n - 1].verdict.Retry? && a.nextAttemptAt == tries[n - 1].recordedAt + Backoff(n - 1))
    case Sent => n > 0 && (tries[n - 1].verdict == MarkSent || tries[n - 1].verdict == Suppress) &&
                 a.attempts == (if tries[n - 1].verdict == Suppress then n - 1 else n)
    case Failed => n > 0 && tries[n - 1].verdict.GiveUp? && a.attempts == n
  }

  // The claimed snapshot still matches its row, although the claim holds no lock.
  ghost predicate JobOk(alerts: seq<Alert>, claimedAt: Time, job: AlertJob) {
    exists a :: a in alerts && a.id == job.id && a.status.Pending? && a.attempts == job.attempts && a.nextAttemptAt < claimedAt
  }

  ghost predicate JobsOk(w: World) {
    (forall k :: 0 <= k < |w.jobs| ==> JobOk(w.db.alerts, w.claimedAt, w.jobs[k])) &&
    (forall j, k :: 0 <= j < k < |w.jobs| ==> w.jobs[j].id != w.jobs[k].id)
  }

  predicate RowFits(tries: map<nat, seq<Try>>, a: Alert) {
    Fits(a, if a.id in tries then tries[a.id] else [])
  }

  ghost predicate RowsFit(w: World) {
    (forall a :: a in w.db.alerts ==> a.id < w.db.nextAlert && RowFits(w.tries, a)) &&
    (forall a :: a in w.prunedAlerts ==> a.id < w.db.nextAlert && RowFits(w.tries, a)) &&
    (forall id :: id in w.tries ==> id < w.db.nextAlert) &&
    (forall a, p :: a in w.db.alerts && p in w.prunedAlerts ==> a.id != p.id)
  }

  ghost predicate DeliveryOk(w: World) {
    JobsOk(w) && RowsFit(w) && IdsOk(w.db.alerts, w.db.nextAlert)
  }

  // ------------------------------------------------------- rows added by other steps

  // Alert rows were only added, fresh and pending.
  ghost predicate Grew(db: Db, r: Db) {
    db.alerts <= r.alerts && db.nextAlert <= r.nextAlert &&
    forall k :: |db.alerts| <= k < |r.alerts| ==>
                  r.alerts[k].status.Pending? && r.alerts[k].attempts == 0 && db.nextAlert <= r.alerts[k].id < r.nextAlert
  }

  lemma {:induction false} LogEventsGrow(db: Db, i: nat, emits: seq<Emit>, at: Time)
    ensures Grew(db, LogEvents(db, i, emits, at))
    decreases |emits|
  {
    if |emits| > 0 { LogEventsGrow(LogEvent(db, i, emits[0], at), i, emits[1..], at); }
  }

  lemma {:induction false} RemindGrows(db: Db, k: nat, now: Time)
    requires k <= |db.monitors|
    ensures Grew(db, RemindFrom(db, k, now))
    decreases |db.monitors| - k
  {
    if k < |db.monitors| {
      assert Grew(db, RemindOne(db, k, now));
      RemindGrows(RemindOne(db, k, now), k + 1, now);
    }
  }

  lemma {:induction false} EvaluateRowsGrow(w: World, rows: seq<Claimed>, at: Time)
    requires Sized(w) && forall k :: 0 <= k < |rows| ==> rows[k].id < |w.db.monitors|
    ensures Grew(w.db, EvaluateRows(w, rows, at).db)
    ensures EvaluateRows(w, rows, at).prunedAlerts == w.prunedAlerts
    ensures EvaluateRows(w, rows, at).claimedAt == w.claimedAt
    decreases |rows|
  {
    if |rows| > 0 {
      var i := rows[0].id;
      var c := EvaluateChange(rows[0].row, w.db.monitors[i]);
      LogEventsGrow(w.db.(monitors := w.db.monitors[i := c.row]), i, c.emits, at);
      EvaluateRowsGrow(Touch(w, i, c, Evaluated, at), rows[1..], at);
    }
  }

  lemma GrowthKeepsDelivery(w: World, v: World)
    requires DeliveryOk(w) && Grew(w.db, v.db) && IdsOk(v.db.alerts, v.db.nextAlert)
    requires v.jobs == w.jobs && v.claimedAt == w.claimedAt && v.tries == w.tries && v.prunedAlerts == w.prunedAlerts
    ensures DeliveryOk(v)
  {
    forall k | 0 <= k < |v.jobs|
      ensures JobOk(v.db.alerts, v.claimedAt, v.jobs[k])
    {
      assert JobOk(w.db.alerts, w.claimedAt, w.jobs[k]);
    }
    forall a | a in v.db.alerts
      ensures a.id < v.db.nextAlert && RowFits(v.tries, a)
      ensures forall p :: p in v.prunedAlerts ==> a.id != p.id
    {
      var k :| 0 <= k < |v.db.alerts| && v.db.alerts[k] == a;
      if k < |w.db.alerts| { assert a == w.db.alerts[k]; }
    }
  }

  // --------------------------------------------------------------------- dispatch

  lemma SettledFits(a: Alert, tries: seq<Try>, job: AlertJob, send: SendResult, claimedAt: Time, now: Time)
    requires Fits(a, tries) && a.status.Pending? && a.attempts == job.attempts && a.nextAttemptAt < claimedAt <= now
    ensures Fits(Settle(a, Judge(job, send), now + Backoff(job.attempts), now),
                 tries + [Try(claimedAt, now, Judge(job, send))])
  {
    var after := tries + [Try(claimedAt, now, Judge(job, send))];
    forall k | 0 <= k < |after| - 1
      ensures RetriedThen(after, k)
    {
      if k + 1 < |tries| { assert RetriedThen(tries, k); }
    }
  }

  lemma RecordAlerts(db: Db, job: AlertJob, verdict: Verdict, next: Time, now: Time)
    ensures Record(db, job, verdict, next, now).alerts == SettleById(db.alerts, job.id, verdict, next, now)
    ensures Record(db, job, verdict, next, now).nextAlert == db.nextAlert
  {
    if verdict.GiveUp? {
      LogOne(db.(alerts := SettleById(db.alerts, job.id, verdict, next, now)), job.monitor, FailureEvent(verdict.reason), now);
    }
  }

  lemma SettleKeepsOtherJob(alerts: seq<Alert>, id: nat, verdict: Verdict, next: Time, now: Time, claimedAt: Time, other: AlertJob)
    requires JobOk(alerts, claimedAt, other) && other.id != id
    ensures JobOk(SettleById(alerts, id, verdict, next, now), claimedAt, other)
  {
    var a :| a in alerts && a.id == other.id && a.status.Pending? && a.attempts == other.attempts && a.nextAttemptAt < claimedAt;
    var n :| 0 <= n < |alerts| && alerts[n] == a;
    assert SettleById(alerts, id, verdict, next, now)[n] == a;
  }

  lemma SettleKeepsFit(alerts: seq<Alert>, job: AlertJob, send: SendResult, claimedAt: Time, now: Time,
                         tries: seq<Try>, k: nat, next: nat)
    requires IdsOk(alerts, next) && k < |alerts| && JobOk(alerts, claimedAt, job) && claimedAt <= now
    requires alerts[k].id == job.id && Fits(alerts[k], tries)
    ensures Fits(SettleById(alerts, job.id, Judge(job, send), now + Backoff(job.attempts), now)[k],
                 tries + [Try(claimedAt, now, Judge(job, send))])
  {
    var claimed :| claimed in alerts && claimed.id == job.id && claimed.status.Pending? &&
                   claimed.attempts == job.attempts && claimed.nextAttemptAt < claimedAt;
    var n :| 0 <= n < |alerts| && alerts[n] == claimed;
    assert n == k;
    SettledFits(claimed, tries, job, send, claimedAt, now);
  }

  // What recording the first job's outcome does to the outbox.
  ghost predicate Recorded(w: World, v: World, send: SendResult, at: Time)
    requires |w.jobs| > 0
  {
    var job := w.jobs[0];
    v.db.alerts == SettleById(w.db.alerts, job.id, Judge(job, send), at + Backoff(job.attempts), at) &&
    v.db.nextAlert == w.db.nextAlert && v.jobs == w.jobs[1..] && v.claimedAt == w.claimedAt &&
    v.prunedAlerts == w.prunedAlerts &&
    v.tries == w.tries[job.id := TriesOf(w, job.id) + [Try(w.claimedAt, at, Judge(job, send))]]
  }

  lemma DispatchRecords(w: World, send: SendResult, at: Time)
    requires Sized(w) && |w.jobs| > 0 && w.jobs[0].monitor < |w.db.monitors|
    ensures Recorded(w, DispatchStep(w, send, at, true), send, at)
  {
    var job := w.jobs[0];
    RecordAlerts(w.db, job, Judge(job, send), at + Backoff(job.attempts), at);
  }

  lemma RecordKeepsRow(w: World, v: World, send: SendResult, at: Time, k: nat)
    requires |w.jobs| > 0 && at >= w.claimedAt && Recorded(w, v, send, at) && k < |w.db.alerts|
    requires IdsOk(w.db.alerts, w.db.nextAlert) && RowFits(w.tries, w.db.alerts[k])
    requires JobOk(w.db.alerts, w.claimedAt, w.jobs[0])
    ensures RowFits(v.tries, v.db.alerts[k])
  {
    var job, a := w.jobs[0], w.db.alerts[k];
    if a.id == job.id {
      SettleKeepsFit(w.db.alerts, job, send, w.claimedAt, at, TriesOf(w, job.id), k, w.db.nextAlert);
    }
  }

  lemma SameIdsOk(alerts: seq<Alert>, settled: seq<Alert>, next: nat)
    requires IdsOk(alerts, next) && |settled| == |alerts|
    requires forall k :: 0 <= k < |alerts| ==> settled[k].id == alerts[k].id
    ensures IdsOk(settled, next)
  {
  }

  lemma RecordKeepsRows(w: World, v: World, send: SendResult, at: Time)
    requires DeliveryOk(w) && |w.jobs| > 0 && at >= w.claimedAt && Recorded(w, v, send, at)
    ensures forall a :: a in v.db.alerts ==> a.id < v.db.nextAlert && RowFits(v.tries, a)
    ensures forall a, p :: a in v.db.alerts && p in v.prunedAlerts ==> a.id != p.id
  {
    assert JobOk(w.db.alerts, w.claimedAt, w.jobs[0]);
    forall a | a in v.db.alerts
      ensures RowFits(v.tries, a) && a.id < v.db.nextAlert && forall p :: p in v.prunedAlerts ==> a.id != p.id
    {
      var k :| 0 <= k < |v.db.alerts| && v.db.alerts[k] == a;
      assert w.db.alerts[k] in w.db.alerts;
      RecordKeepsRow(w, v, send, at, k);
    }
  }

  lemma RecordKeepsPruned(w: World, v: World, send: SendResult, at: Time)
    requires |w.jobs| > 0 && RowsFit(w) && JobOk(w.db.alerts, w.claimedAt, w.jobs[0])
    requires Recorded(w, v, send, at)
    ensures forall a :: a in v.prunedAlerts ==> a.id < v.db.nextAlert && RowFits(v.tries, a)
    ensures forall id :: id in v.tries ==> id < v.db.nextAlert
  {
    forall p | p in v.prunedAlerts
      ensures p.id < v.db.nextAlert && RowFits(v.tries, p)
    {
      assert RowFits(w.tries, p) && p.id != w.jobs[0].id;
    }
  }

  lemma RecordKeepsJobs(w: World, v: World, send: SendResult, at: Time)
    requires JobsOk(w) && |w.jobs| > 0 && Recorded(w, v, send, at)
    ensures JobsOk(v)
  {
    var job := w.jobs[0];
    forall k | 0 <= k < |v.jobs|
      ensures JobOk(v.db.alerts, v.claimedAt, v.jobs[k])
    {
      assert v.jobs[k] == w.jobs[k + 1];
      SettleKeepsOtherJob(w.db.alerts, job.id, Judge(job, send), at + Backoff(job.attempts), at, w.claimedAt, w.jobs[k + 1]);
    }
  }

  lemma DispatchKeepsDelivery(w: World, send: SendResult, at: Time, recorded: bool)
    requires DeliveryOk(w) && Sized(w) && |w.jobs| > 0 && w.jobs[0].monitor < |w.db.monitors| && at >= w.claimedAt
    ensures DeliveryOk(DispatchStep(w, send, at, recorded))
  {
    if recorded {
      var v := DispatchStep(w, send, at, true);
      DispatchRecords(w, send, at);
      RecordKeepsRows(w, v, send, at);
      assert JobOk(w.db.alerts, w.claimedAt, w.jobs[0]);
      RecordKeepsPruned(w, v, send, at);
      RecordKeepsJobs(w, v, send, at);
      SameIdsOk(w.db.alerts, v.db.alerts, w.db.nextAlert);
    } else {
      forall k | 0 <= k < |w.jobs| - 1
        ensures JobOk(w.db.alerts, w.claimedAt, w.jobs[1..][k])
      {
        assert w.jobs[1..][k] == w.jobs[k + 1];
      }
    }
  }

  // ------------------------------------------------------------ claims and pruning

  lemma ClaimKeepsDelivery(cal: Calendar, w: World, rows: seq<nat>, at: Time)
    requires DeliveryOk(w) && Enabled(w, ClaimAlerts(rows, at))
    ensures DeliveryOk(Do(cal, w, ClaimAlerts(rows, at)))
  {
    var v := Do(cal, w, ClaimAlerts(rows, at));
    forall k | 0 <= k < |v.jobs|
      ensures JobOk(v.db.alerts, at, v.jobs[k])
    {
      assert w.db.alerts[rows[k]] in v.db.alerts;
    }
    forall j, k | 0 <= j < k < |v.jobs|
      ensures v.jobs[j].id != v.jobs[k].id
    {
      assert rows[j] != rows[k];
    }
  }

  // Pruning spares the events of pending alerts, so a claimed row stays.
  lemma PruneKeepsJob(db: Db, doomed: set<nat>, cutoff: Time, claimedAt: Time, job: AlertJob)
    requires RefersOk(db.events, db.alerts) && JobOk(db.alerts, claimedAt, job)
    requires forall e :: e in db.events && e.id in doomed ==> Prunable(db, e, cutoff)
    ensures JobOk(PruneDb(db, doomed).alerts, claimedAt, job)
  {
    var a :| a in db.alerts && a.id == job.id && a.status.Pending? && a.attempts == job.attempts && a.nextAttemptAt < claimedAt;
    assert Refers(db.events, a);
    assert a in PruneDb(db, doomed).alerts;
  }

  lemma SplitIds(alerts: seq<Alert>, doomed: set<nat>, next: nat, a: Alert, p: Alert)
    requires IdsOk(alerts, next) && a in KeepAlerts(alerts, doomed, true) && p in KeepAlerts(alerts, doomed, false)
    ensures a.id != p.id
  {
    var j :| 0 <= j < |alerts| && alerts[j] == a;
    var k :| 0 <= k < |alerts| && alerts[k] == p;
  }

  lemma PruneKeepsDelivery(cal: Calendar, w: World, doomed: set<nat>, cutoff: Time)
    requires DeliveryOk(w) && AlertsOk(w.db) && Enabled(w, Prune(doomed, cutoff))
    ensures DeliveryOk(Do(cal, w, Prune(doomed, cutoff)))
  {
    var v := Do(cal, w, Prune(doomed, cutoff));
    PruneKeepsIds(w.db.alerts, doomed, true, w.db.nextAlert);
    forall k | 0 <= k < |v.jobs|
      ensures JobOk(v.db.alerts, v.claimedAt, v.jobs[k])
    {
      PruneKeepsJob(w.db, doomed, cutoff, w.claimedAt, w.jobs[k]);
    }
    forall a, p | a in v.db.alerts && p in v.prunedAlerts
      ensures a.id != p.id
    {
      if p in KeepAlerts(w.db.alerts, doomed, false) { SplitIds(w.db.alerts, doomed, w.db.nextAlert, a, p); }
    }
  }

  // ------------------------------------------------------------------------- runs

  predicate IsTransaction(s: Step) {
    s.CheckIn? || s.Probe? || s.Pause? || s.Mute? || s.Resume?
  }

  // The change that a single-monitor transaction makes, if it commits.
  function ChangeOf(cal: Calendar, w: World, s: Step): Result<Change, InvalidField>
    requires IsTransaction(s) && s.i < |w.db.monitors|
  {
    match s
    case CheckIn(i, kind, at) => CheckinChange(cal, w.db.monitors[i], kind, at)
    case Probe(i, o, _) => Ok(ProbeChange(w.db.monitors[i], o))
    case Pause(i, at) => Ok(PauseChange(w.db.monitors[i], at))
    case Mute(i, muted, _) => Ok(MuteChange(w.db.monitors[i], muted))
    case Resume(i, at) => ResumeChange(cal, w.db.monitors[i], at)
  }

  lemma TransactionGrows(cal: Calendar, w: World, s: Step)
    requires Enabled(w, s) && IsTransaction(s)
    ensures Grew(w.db, Do(cal, w, s).db)
    ensures var v := Do(cal, w, s); v.jobs == w.jobs && v.claimedAt == w.claimedAt && v.tries == w.tries &&
                                    v.prunedAlerts == w.prunedAlerts
  {
    var v, r := Do(cal, w, s), ChangeOf(cal, w, s);
    if r.Ok? {
      var before := v.db.(events := w.db.events, alerts := w.db.alerts, nextEvent := w.db.nextEvent, nextAlert := w.db.nextAlert);
      LogEventsGrow(before, s.i, r.value.emits, s.at);
    }
  }

  lemma TransactionKeepsDelivery(cal: Calendar, w: World, s: Step)
    requires DeliveryOk(w) && AlertsOk(w.db) && Enabled(w, s) && IsTransaction(s)
    ensures DeliveryOk(Do(cal, w, s))
  {
    StepKeepsAlerts(cal, w, s);
    TransactionGrows(cal, w, s);
    GrowthKeepsDelivery(w, Do(cal, w, s));
  }

  lemma CommitKeepsDelivery(cal: Calendar, w: World, r: nat)
    requires DeliveryOk(w) && AlertsOk(w.db) && Enabled(w, Commit(r))
    ensures DeliveryOk(Do(cal, w, Commit(r)))
  {
    StepKeepsAlerts(cal, w, Commit(r));
    EvaluateRowsGrow(w.(claims := w.claims - {r}), w.claims[r].rows, w.claims[r].at);
    GrowthKeepsDelivery(w, Do(cal, w, Commit(r)));
  }

  lemma RemindKeepsDelivery(cal: Calendar, w: World, at: Time)
    requires DeliveryOk(w) && AlertsOk(w.db) && Enabled(w, Remind(at))
    ensures DeliveryOk(Do(cal, w, Remind(at)))
  {
    StepKeepsAlerts(cal, w, Remind(at));
    RemindGrows(w.db, 0, at);
    GrowthKeepsDelivery(w, Do(cal, w, Remind(at)));
  }

  // Steps that touch neither alerts nor, except by dropping them, jobs.
  lemma QuietKeepsDelivery(cal: Calendar, w: World, s: Step)
    requires DeliveryOk(w) && Enabled(w, s) && (s.Create? || s.ClaimDue? || s.Abort? || s.StopAlerter?)
    ensures DeliveryOk(Do(cal, w, s))
  {
  }

  lemma StepKeepsDelivery(cal: Calendar, w: World, s: Step)
    requires DeliveryOk(w) && AlertsOk(w.db) && Enabled(w, s)
    ensures DeliveryOk(Do(cal, w, s))
  {
    match s
    case Commit(r) => CommitKeepsDelivery(cal, w, r);
    case Remind(at) => RemindKeepsDelivery(cal, w, at);
    case ClaimAlerts(rows, at) => ClaimKeepsDelivery(cal, w, rows, at);
    case DispatchNext(send, at, recorded) => DispatchKeepsDelivery(w, send, at, recorded);
    case Prune(doomed, cutoff) => PruneKeepsDelivery(cal, w, doomed, cutoff);
    case Create(_) => QuietKeepsDelivery(cal, w, s);
    case ClaimDue(_, _, _) => QuietKeepsDelivery(cal, w, s);
    case Abort(_) => QuietKeepsDelivery(cal, w, s);
    case StopAlerter => QuietKeepsDelivery(cal, w, s);
    case _ => TransactionKeepsDelivery(cal, w, s);
  }

  lemma {:induction false} RunKeepsDelivery(cal: Calendar, ws: seq<World>, steps: seq<Step>, k: nat)
    requires Run(cal, ws, steps) && k < |ws|
    ensures DeliveryOk(ws[k])
  {
    if k > 0 {
      RunKeepsDelivery(cal, ws, steps, k - 1);
      RunKeepsAlerts(cal, ws, steps, k - 1);
      assert StepsTo(cal, ws[k - 1], steps[k - 1], ws[k - 1 + 1]);
      StepKeepsDelivery(cal, ws[k - 1], steps[k - 1]);
    }
  }

  // Single alerter, any send results: every alert ever written has at most three recorded
  // outcomes; while pending it has at most two, all retries, counted by `attempts`; and a
  // third try starts more than 360 seconds after the first was recorded.
  lemma OutcomesAreBounded(cal: Calendar, ws: seq<World>, steps: seq<Step>, k: nat, a: Alert)
    requires Run(cal, ws, steps) && k < |ws| && (a in ws[k].db.alerts || a in ws[k].prunedAlerts)
    ensures var tries := TriesOf(ws[k], a.id);
            |tries| <= 3 &&
            (a.status.Pending? ==>
               |tries| <= 2 && a.attempts == |tries| && forall n :: 0 <= n < |tries| ==> tries[n].verdict.Retry?) &&
            (a.status.Failed? <==> |tries| > 0 && tries[|tries| - 1].verdict.GiveUp?) &&
            (|tries| == 3 ==> tries[2].claimedAt > tries[0].recordedAt + 360)
  {
    RunKeepsDelivery(cal, ws, steps, k);
    var tries := TriesOf(ws[k], a.id);
    assert RowFits(ws[k].tries, a);
    if |tries| > 1 { assert RetriedThen(tries, 0); }
    if |tries| > 2 {
      assert RetriedThen(tries, 1);
      assert Pow5(1) == 5;
    }
  }

  lemma GrowthKeepsRow(db: Db, r: Db, a: Alert)
    requires Grew(db, r) && a in db.alerts
    ensures a in r.alerts
  {
    var k :| 0 <= k < |db.alerts| && db.alerts[k] == a;
    assert r.alerts[k] == a;
  }

  lemma SettleKeepsTerminal(alerts: seq<Alert>, next: nat, job: AlertJob, claimedAt: Time, a: Alert,
                            verdict: Verdict, retryAt: Time, now: Time)
    requires IdsOk(alerts, next) && JobOk(alerts, claimedAt, job) && a in alerts && !a.status.Pending?
    ensures a.id != job.id && a in SettleById(alerts, job.id, verdict, retryAt, now)
  {
    var k :| 0 <= k < |alerts| && alerts[k] == a;
    assert a.id != job.id;
    assert SettleById(alerts, job.id, verdict, retryAt, now)[k] == a;
  }

  lemma DispatchKeepsTerminal(w: World, send: SendResult, at: Time, recorded: bool, a: Alert)
    requires DeliveryOk(w) && Sized(w) && |w.jobs| > 0 && w.jobs[0].monitor < |w.db.monitors|
    requires a in w.db.alerts && !a.status.Pending?
    ensures a in DispatchStep(w, send, at, recorded).db.alerts
    ensures TriesOf(DispatchStep(w, send, at, recorded), a.id) == TriesOf(w, a.id)
  {
    if recorded {
      var job := w.jobs[0];
      DispatchRecords(w, send, at);
      SettleKeepsTerminal(w.db.alerts, w.db.nextAlert, job, w.claimedAt, a, Judge(job, send), at + Backoff(job.attempts), at);
    }
  }

  lemma StepKeepsTerminal(cal: Calendar, w: World, s: Step, a: Alert)
    requires DeliveryOk(w) && Enabled(w, s) && a in w.db.alerts && !a.status.Pending?
    ensures a in Do(cal, w, s).db.alerts || a in Do(cal, w, s).prunedAlerts
    ensures TriesOf(Do(cal, w, s), a.id) == TriesOf(w, a.id)
  {
    if IsTransaction(s) {
      TransactionGrows(cal, w, s);
      GrowthKeepsRow(w.db, Do(cal, w, s).db, a);
    } else if s.Commit? {
      EvaluateRowsGrow(w.(claims := w.claims - {s.replica}), w.claims[s.replica].rows, w.claims[s.replica].at);
      GrowthKeepsRow(w.db, Do(cal, w, s).db, a);
    } else if s.Remind? {
      RemindGrows(w.db, 0, s.at);
      GrowthKeepsRow(w.db, Do(cal, w, s).db, a);
    } else if s.DispatchNext? {
      DispatchKeepsTerminal(w, s.send, s.at, s.recorded, a);
    }
  }

  lemma StepKeepsArchived(cal: Calendar, w: World, s: Step, a: Alert)
    requires DeliveryOk(w) && Enabled(w, s) && a in w.prunedAlerts
    ensures a in Do(cal, w, s).prunedAlerts && TriesOf(Do(cal, w, s), a.id) == TriesOf(w, a.id)
  {
    if IsTransaction(s) {
      TransactionGrows(cal, w, s);
    } else if s.Commit? {
      EvaluateRowsGrow(w.(claims := w.claims - {s.replica}), w.claims[s.replica].rows, w.claims[s.replica].at);
    } else if s.DispatchNext? {
      assert JobOk(w.db.alerts, w.claimedAt, w.jobs[0]);
    }
  }

  // A terminal row, stored or archived, with the outcomes recorded for it.
  ghost predicate Holds(w: World, a: Alert, tries: seq<Try>) {
    (a in w.db.alerts || a in w.prunedAlerts) && TriesOf(w, a.id) == tries
  }

  lemma StepKeepsHeld(cal: Calendar, v: World, s: Step, w: World, a: Alert, tries: seq<Try>)
    requires DeliveryOk(v) && StepsTo(cal, v, s, w) && Holds(v, a, tries) && !a.status.Pending?
    ensures Holds(w, a, tries)
  {
    if a in v.db.alerts { StepKeepsTerminal(cal, v, s, a); } else { StepKeepsArchived(cal, v, s, a); }
  }

  lemma RunKeepsHeld(cal: Calendar, ws: seq<World>, steps: seq<Step>, l: nat, a: Alert, tries: seq<Try>)
    requires Run(cal, ws, steps) && l < |steps| && Holds(ws[l], a, tries) && !a.status.Pending?
    ensures Holds(ws[l + 1], a, tries)
  {
    RunKeepsDelivery(cal, ws, steps, l);
    StepKeepsHeld(cal, ws[l], steps[l], ws[l + 1], a, tries);
  }

  // A sent or failed row never changes again and gets no further outcome, until
  // retention deletes it together with its event.
  lemma {:induction false} TerminalRowsNeverChange(cal: Calendar, ws: seq<World>, steps: seq<Step>, k: nat, l: nat, a: Alert)
    requires Run(cal, ws, steps) && k <= l < |ws| && a in ws[k].db.alerts && !a.status.Pending?
    ensures Holds(ws[l], a, TriesOf(ws[k], a.id))
    decreases l
  {
    if k < l {
      TerminalRowsNeverChange(cal, ws, steps, k, l - 1, a);
      RunKeepsHeld(cal, ws, steps, l - 1, a, TriesOf(ws[k], a.id));
    }
  }
}
