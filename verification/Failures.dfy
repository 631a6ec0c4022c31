/** Conservation: as many alert_failed events as failed alerts, in every run. */
module Failures {
  import opened Model
  import opened Schedule
  import opened Rows
  import opened Outbox
  import opened Engine
  import opened Alerts
  import opened Delivery

  function FailedIn(alerts: seq<Alert>): nat {
    if |alerts| == 0 then 0
    else FailedIn(alerts[..|alerts| - 1]) + if alerts[|alerts| - 1].status.Failed? then 1 else 0
  }

  function FailuresIn(log: seq<Event>): nat {
    if |log| == 0 then 0
    else FailuresIn(log[..|log| - 1]) + if log[|log| - 1].typ.AlertFailedEvent? then 1 else 0
  }

  ghost predicate Balanced(w: World) {
    FailedIn(w.db.alerts) + FailedIn(w.prunedAlerts) == FailuresIn(w.log)
  }

  lemma {:induction false} FailuresAppend(log: seq<Event>, more: seq<Event>)
    ensures FailuresIn(log + more) == FailuresIn(log) + FailuresIn(more)
  {
    if |more| == 0 {
      assert log + more == log;
    } else {
      assert (log + more)[..|log + more| - 1] == log + more[..|more| - 1];
      FailuresAppend(log, more[..|more| - 1]);
    }
  }

  lemma {:induction false} FailedAppend(alerts: seq<Alert>, more: seq<Alert>)
    ensures FailedIn(alerts + more) == FailedIn(alerts) + FailedIn(more)
  {
    if |more| == 0 {
      assert alerts + more == alerts;
    } else {
      assert (alerts + more)[..|alerts + more| - 1] == alerts + more[..|more| - 1];
      FailedAppend(alerts, more[..|more| - 1]);
    }
  }

  lemma {:induction false} NoneFailed(alerts: seq<Alert>)
    requires forall k :: 0 <= k < |alerts| ==> alerts[k].status.Pending?
    ensures FailedIn(alerts) == 0
  {
    if |alerts| > 0 { NoneFailed(alerts[..|alerts| - 1]); }
  }

  lemma GrowthKeepsFailed(db: Db, r: Db)
    requires Grew(db, r)
    ensures FailedIn(r.alerts) == FailedIn(db.alerts)
  {
    var more := r.alerts[|db.alerts|..];
    assert r.alerts == db.alerts + more;
    FailedAppend(db.alerts, more);
    NoneFailed(more);
  }

  // Transactions on monitors write no alert_failed event.
  predicate Quiet(emits: seq<Emit>) {
    forall k :: 0 <= k < |emits| ==> !emits[k].typ.AlertFailedEvent?
  }

  lemma {:induction false} QuietStamp(log: seq<Event>, first: nat, i: nat, emits: seq<Emit>, at: Time)
    requires Quiet(emits)
    ensures FailuresIn(log + Stamp(first, i, emits, at)) == FailuresIn(log)
    decreases |emits|
  {
    if |emits| == 0 {
      assert log + Stamp(first, i, emits, at) == log;
    } else {
      var e := Event(first, i, emits[0].typ, emits[0].message, emits[0].meta, at);
      assert log + Stamp(first, i, emits, at) == (log + [e]) + Stamp(first + 1, i, emits[1..], at);
      assert (log + [e])[..|log|] == log;
      QuietStamp(log + [e], first + 1, i, emits[1..], at);
    }
  }

  lemma {:induction false} EvaluateRowsQuiet(w: World, rows: seq<Claimed>, at: Time)
    requires Sized(w) && forall k :: 0 <= k < |rows| ==> rows[k].id < |w.db.monitors|
    ensures FailuresIn(EvaluateRows(w, rows, at).log) == FailuresIn(w.log)
    decreases |rows|
  {
    if |rows| > 0 {
      var c := EvaluateChange(rows[0].row, w.db.monitors[rows[0].id]);
      QuietStamp(w.log, w.db.nextEvent, rows[0].id, c.emits, at);
      EvaluateRowsQuiet(Touch(w, rows[0].id, c, Evaluated, at), rows[1..], at);
    }
  }

  lemma {:induction false} SettleCountsFailure(alerts: seq<Alert>, settled: seq<Alert>, k: nat)
    requires |settled| == |alerts| && k < |alerts| && !alerts[k].status.Failed?
    requires forall n :: 0 <= n < |alerts| && n != k ==> settled[n] == alerts[n]
    ensures FailedIn(settled) == FailedIn(alerts) + if settled[k].status.Failed? then 1 else 0
  {
    var n := |alerts| - 1;
    if k < n {
      SettleCountsFailure(alerts[..n], settled[..n], k);
    } else {
      assert settled[..n] == alerts[..n];
    }
  }

  lemma JudgeCountsFailure(alerts: seq<Alert>, job: AlertJob, verdict: Verdict, next: Time, now: Time, claimedAt: Time, bound: nat)
    requires IdsOk(alerts, bound) && JobOk(alerts, claimedAt, job)
    ensures FailedIn(SettleById(alerts, job.id, verdict, next, now)) == FailedIn(alerts) + if verdict.GiveUp? then 1 else 0
  {
    var a :| a in alerts && a.id == job.id && a.status.Pending?;
    var k :| 0 <= k < |alerts| && alerts[k] == a;
    SettleCountsFailure(alerts, SettleById(alerts, job.id, verdict, next, now), k);
  }

  lemma StampCountsFailure(log: seq<Event>, first: nat, i: nat, reason: FailReason, at: Time)
    ensures FailuresIn(log + Stamp(first, i, [FailureEvent(reason)], at)) == FailuresIn(log) + 1
  {
    var emits := [FailureEvent(reason)];
    assert |emits[1..]| == 0;
    var stamp := Stamp(first, i, emits, at);
    assert |stamp| == 1 && stamp[0].typ.AlertFailedEvent? && FailuresIn(stamp[..0]) == 0;
    FailuresAppend(log, stamp);
  }

  lemma VerdictCounts(w: World, v: World, send: SendResult, at: Time)
    requires |w.jobs| > 0 && Recorded(w, v, send, at)
    requires IdsOk(w.db.alerts, w.db.nextAlert) && JobOk(w.db.alerts, w.claimedAt, w.jobs[0])
    ensures FailedIn(v.db.alerts) == FailedIn(w.db.alerts) + if Judge(w.jobs[0], send).GiveUp? then 1 else 0
  {
    var job := w.jobs[0];
    JudgeCountsFailure(w.db.alerts, job, Judge(job, send), at + Backoff(job.attempts), at, w.claimedAt, w.db.nextAlert);
  }

  lemma VerdictLogged(log: seq<Event>, first: nat, i: nat, verdict: Verdict, at: Time)
    ensures FailuresIn(LogVerdict(log, first, i, verdict, at)) == FailuresIn(log) + if verdict.GiveUp? then 1 else 0
  {
    if verdict.GiveUp? { StampCountsFailure(log, first, i, verdict.reason, at); }
  }

  lemma {:induction false} PruneSplitsFailed(alerts: seq<Alert>, doomed: set<nat>)
    ensures FailedIn(alerts) == FailedIn(KeepAlerts(alerts, doomed, true)) + FailedIn(KeepAlerts(alerts, doomed, false))
  {
    if |alerts| > 0 {
      var front, a := alerts[..|alerts| - 1], alerts[|alerts| - 1];
      PruneSplitsFailed(front, doomed);
      FailedAppend(KeepAlerts(front, doomed, true), [a]);
      FailedAppend(KeepAlerts(front, doomed, false), [a]);
      assert FailedIn([a][..0]) == 0;
    }
  }

  lemma TransactionLog(cal: Calendar, w: World, s: Step)
    requires Enabled(w, s) && IsTransaction(s)
    ensures Do(cal, w, s).log ==
            if ChangeOf(cal, w, s).Ok? then w.log + Stamp(w.db.nextEvent, s.i, ChangeOf(cal, w, s).value.emits, s.at)
            else w.log
  {
  }

  lemma ChangeIsQuiet(cal: Calendar, w: World, s: Step)
    requires Enabled(w, s) && IsTransaction(s) && ChangeOf(cal, w, s).Ok?
    ensures Quiet(ChangeOf(cal, w, s).value.emits)
  {
  }

  lemma TransactionKeepsBalance(cal: Calendar, w: World, s: Step)
    requires Balanced(w) && Enabled(w, s) && IsTransaction(s)
    ensures Balanced(Do(cal, w, s))
  {
    TransactionGrows(cal, w, s);
    GrowthKeepsFailed(w.db, Do(cal, w, s).db);
    TransactionLog(cal, w, s);
    var r := ChangeOf(cal, w, s);
    if r.Ok? {
      ChangeIsQuiet(cal, w, s);
      QuietStamp(w.log, w.db.nextEvent, s.i, r.value.emits, s.at);
    }
  }

  lemma StepKeepsBalance(cal: Calendar, w: World, s: Step)
    requires Balanced(w) && DeliveryOk(w) && Enabled(w, s)
    ensures Balanced(Do(cal, w, s))
  {
    if IsTransaction(s) {
      TransactionKeepsBalance(cal, w, s);
    } else if s.Commit? {
      var v, claim := w.(claims := w.claims - {s.replica}), w.claims[s.replica];
      EvaluateRowsGrow(v, claim.rows, claim.at);
      EvaluateRowsQuiet(v, claim.rows, claim.at);
      GrowthKeepsFailed(w.db, Do(cal, w, s).db);
    } else if s.Remind? {
      RemindGrows(w.db, 0, s.at);
      GrowthKeepsFailed(w.db, Do(cal, w, s).db);
    } else if s.DispatchNext? {
      if s.recorded {
        assert JobOk(w.db.alerts, w.claimedAt, w.jobs[0]);
        DispatchRecords(w, s.send, s.at);
        VerdictCounts(w, Do(cal, w, s), s.send, s.at);
        VerdictLogged(w.log, w.db.nextEvent, w.jobs[0].monitor, Judge(w.jobs[0], s.send), s.at);
      }
    } else if s.Prune? {
      PruneSplitsFailed(w.db.alerts, s.doomed);
      FailedAppend(w.prunedAlerts, KeepAlerts(w.db.alerts, s.doomed, false));
    }
  }

  lemma RunStepKeepsBalance(cal: Calendar, ws: seq<World>, steps: seq<Step>, l: nat)
    requires Run(cal, ws, steps) && l < |steps| && Balanced(ws[l])
    ensures Balanced(ws[l + 1])
  {
    RunKeepsDelivery(cal, ws, steps, l);
    assert StepsTo(cal, ws[l], steps[l], ws[l + 1]);
    StepKeepsBalance(cal, ws[l], steps[l]);
  }

  // In every run the alerts ever failed, stored or pruned, are as many as the
  // alert_failed events ever written.
  lemma {:induction false} EveryFailureIsLogged(cal: Calendar, ws: seq<World>, steps: seq<Step>, k: nat)
    requires Run(cal, ws, steps) && k < |ws|
    ensures FailedIn(ws[k].db.alerts) + FailedIn(ws[k].prunedAlerts) == FailuresIn(ws[k].log)
  {
    if k > 0 {
      EveryFailureIsLogged(cal, ws, steps, k - 1);
      RunStepKeepsBalance(cal, ws, steps, k - 1);
    }
  }
}
