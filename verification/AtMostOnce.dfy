/** When an alert can be delivered twice: exactly when the outcome of the first delivery
  * was not recorded.
  */
module AtMostOnce {
  import opened Model
  import opened Schedule
  import opened Rows
  import opened Outbox
  import opened Engine
  import opened Locks
  import opened Log
  import opened Alerts
  import opened Delivery

  // The step sends the alert successfully.
  predicate Delivers(w: World, s: Step, id: nat) {
    s.DispatchNext? && s.send.Delivered? && |w.jobs| > 0 && w.jobs[0].id == id && !w.jobs[0].alertsMuted
  }

  // Any verdict but a retry makes the claimed row terminal.
  lemma SettledIsTerminal(alerts: seq<Alert>, claimedAt: Time, job: AlertJob, verdict: Verdict, next: Time, now: Time) returns (a: Alert)
    requires JobOk(alerts, claimedAt, job) && !verdict.Retry?
    ensures a in SettleById(alerts, job.id, verdict, next, now) && a.id == job.id && !a.status.Pending?
  {
    var b :| b in alerts && b.id == job.id;
    var k :| 0 <= k < |alerts| && alerts[k] == b;
    a := SettleById(alerts, job.id, verdict, next, now)[k];
  }

  lemma RecordedRowIsTerminal(w: World, send: SendResult, at: Time) returns (a: Alert)
    requires DeliveryOk(w) && Sized(w) && |w.jobs| > 0 && w.jobs[0].monitor < |w.db.monitors| && !Judge(w.jobs[0], send).Retry?
    ensures a in DispatchStep(w, send, at, true).db.alerts && a.id == w.jobs[0].id && !a.status.Pending?
  {
    var job := w.jobs[0];
    assert JobOk(w.db.alerts, w.claimedAt, job);
    DispatchRecords(w, send, at);
    a := SettledIsTerminal(w.db.alerts, w.claimedAt, job, Judge(job, send), at + Backoff(job.attempts), at);
  }

  // A dispatched job belongs to a pending row, so to no terminal one, stored or pruned.
  lemma TerminalIsNotDispatched(w: World, a: Alert, tries: seq<Try>)
    requires DeliveryOk(w) && |w.jobs| > 0 && Holds(w, a, tries) && !a.status.Pending?
    ensures w.jobs[0].id != a.id
  {
    assert JobOk(w.db.alerts, w.claimedAt, w.jobs[0]);
    var b :| b in w.db.alerts && b.id == w.jobs[0].id && b.status.Pending?;
    var k :| 0 <= k < |w.db.alerts| && w.db.alerts[k] == b;
    if a in w.db.alerts {
      var l :| 0 <= l < |w.db.alerts| && w.db.alerts[l] == a;
    }
  }

  lemma DispatchWasEnabled(cal: Calendar, ws: seq<World>, steps: seq<Step>, j: nat)
    requires Run(cal, ws, steps) && j < |steps| && steps[j].DispatchNext?
    ensures Sized(ws[j]) && |ws[j].jobs| > 0 && ws[j].jobs[0].monitor < |ws[j].db.monitors|
    ensures ws[j + 1] == DispatchStep(ws[j], steps[j].send, steps[j].at, steps[j].recorded)
  {
    assert StepsTo(cal, ws[j], steps[j], ws[j + 1]);
  }

  // Once any outcome but a retry is recorded, the alert is never dispatched again.
  lemma RecordedIsFinal(cal: Calendar, ws: seq<World>, steps: seq<Step>, j: nat, l: nat)
    requires Run(cal, ws, steps) && j < l < |steps| && steps[j].DispatchNext? && steps[l].DispatchNext?
    requires |ws[j].jobs| > 0 && steps[j].recorded && !Judge(ws[j].jobs[0], steps[j].send).Retry?
    ensures |ws[l].jobs| > 0 && ws[l].jobs[0].id != ws[j].jobs[0].id
  {
    DispatchWasEnabled(cal, ws, steps, j);
    DispatchWasEnabled(cal, ws, steps, l);
    RunKeepsDelivery(cal, ws, steps, j);
    RunKeepsDelivery(cal, ws, steps, l);
    var a := RecordedRowIsTerminal(ws[j], steps[j].send, steps[j].at);
    TerminalRowsNeverChange(cal, ws, steps, j + 1, l, a);
    TerminalIsNotDispatched(ws[l], a, TriesOf(ws[j + 1], a.id));
  }

  // Two dispatches of one alert after a delivery: the delivery went unrecorded.
  lemma DeliveredTwiceOnlyIfUnrecorded(cal: Calendar, ws: seq<World>, steps: seq<Step>, j: nat, l: nat)
    requires Run(cal, ws, steps) && j < l < |steps| && steps[l].DispatchNext?
    requires |ws[j].jobs| > 0 && Delivers(ws[j], steps[j], ws[j].jobs[0].id)
    requires |ws[l].jobs| > 0 && ws[l].jobs[0].id == ws[j].jobs[0].id
    ensures !steps[j].recorded
  {
    if steps[j].recorded { RecordedIsFinal(cal, ws, steps, j, l); }
  }

  // ------------------------------------------------------------------- the other half

  predicate NotBefore(s: Step, from: Time) {
    match s
    case Mute(_, _, at) => at >= from
    case ClaimAlerts(_, at) => at >= from
    case DispatchNext(_, at, _) => at >= from
    case _ => true
  }

  // A run and a continuation of it whose alerter and mute steps are not before `from`.
  ghost predicate GoesOn(cal: Calendar, ws: seq<World>, steps: seq<Step>, vs: seq<World>, more: seq<Step>, from: Time) {
    Run(cal, vs, more) && ws <= vs && steps <= more && |ws| == |steps| + 1 &&
    forall k :: |steps| <= k < |more| ==> NotBefore(more[k], from)
  }

  // Some continuation of the run delivers the alert again.
  ghost predicate Redeliverable(cal: Calendar, ws: seq<World>, steps: seq<Step>, id: nat, from: Time) {
    exists vs, more ::
      GoesOn(cal, ws, steps, vs, more, from) && |more| > |steps| && Delivers(vs[|more| - 1], more[|more| - 1], id)
  }

  // A pending row of the alert, due from some time on, whose monitor exists.
  predicate Waiting(w: World, k: nat, id: nat) {
    k < |w.db.alerts| && w.db.alerts[k].id == id && w.db.alerts[k].status.Pending? && w.db.alerts[k].monitor < |w.db.monitors|
  }

  lemma UnrecordedStillWaits(cal: Calendar, ws: seq<World>, steps: seq<Step>) returns (k: nat)
    requires Run(cal, ws, steps) && |steps| > 0
    requires var j := |steps| - 1; steps[j].DispatchNext? && !steps[j].recorded && |ws[j].jobs| > 0
    ensures Waiting(ws[|steps|], k, ws[|steps| - 1].jobs[0].id)
  {
    var j := |steps| - 1;
    var w := ws[j];
    DispatchWasEnabled(cal, ws, steps, j);
    RunKeepsDelivery(cal, ws, steps, j);
    RunKeepsAlerts(cal, ws, steps, j);
    RunKeepsLog(cal, ws, steps, j);
    assert JobOk(w.db.alerts, w.claimedAt, w.jobs[0]);
    var a :| a in w.db.alerts && a.id == w.jobs[0].id && a.status.Pending?;
    k :| 0 <= k < |w.db.alerts| && w.db.alerts[k] == a;
    assert Refers(w.db.events, a);
  }

  // No claim holds the monitor after the one that did is aborted.
  lemma Unlock(cal: Calendar, ws: seq<World>, steps: seq<Step>, i: nat, k: nat, id: nat, from: Time)
    returns (vs: seq<World>, more: seq<Step>)
    requires Run(cal, ws, steps) && Waiting(ws[|steps|], k, id) && ws[|steps|].jobs == []
    ensures GoesOn(cal, ws, steps, vs, more, from) && Waiting(vs[|more|], k, id) && vs[|more|].jobs == [] && !Locked(vs[|more|], i)
    ensures vs[|more|].db == ws[|steps|].db
  {
    var w := ws[|steps|];
    vs, more := ws, steps;
    if Locked(w, i) {
      RunIsSound(cal, ws, steps, |steps|);
      var r :| r in w.claims && HasRow(w.claims[r], i);
      vs, more := Extend(cal, ws, steps, Abort(r));
    }
  }

  lemma Unmute(cal: Calendar, ws: seq<World>, steps: seq<Step>, i: nat, k: nat, id: nat, from: Time)
    returns (vs: seq<World>, more: seq<Step>)
    requires Run(cal, ws, steps) && Waiting(ws[|steps|], k, id) && ws[|steps|].jobs == []
    requires i == ws[|steps|].db.alerts[k].monitor && !Locked(ws[|steps|], i)
    ensures GoesOn(cal, ws, steps, vs, more, from) && Waiting(vs[|more|], k, id) && vs[|more|].jobs == []
    ensures !vs[|more|].db.monitors[vs[|more|].db.alerts[k].monitor].alertsMuted
  {
    RunIsSound(cal, ws, steps, |steps|);
    var db, c := ws[|steps|].db, MuteChange(ws[|steps|].db.monitors[i], false);
    LogOne(db.(monitors := db.monitors[i := c.row]), i, c.emits[0], from);
    vs, more := Extend(cal, ws, steps, Mute(i, false, from));
    assert c.emits == [c.emits[0]];
  }

  lemma ClaimAgain(cal: Calendar, ws: seq<World>, steps: seq<Step>, k: nat, id: nat, at: Time) returns (vs: seq<World>, more: seq<Step>)
    requires Run(cal, ws, steps) && Waiting(ws[|steps|], k, id) && ws[|steps|].jobs == []
    requires !ws[|steps|].db.monitors[ws[|steps|].db.alerts[k].monitor].alertsMuted
    requires ws[|steps|].db.alerts[k].nextAttemptAt < at
    ensures Run(cal, vs, more) && ws <= vs && |vs| == |ws| + 1 && more == steps + [ClaimAlerts([k], at)]
    ensures var v := vs[|more|];
            |v.jobs| == 1 && v.jobs[0].id == id && !v.jobs[0].alertsMuted && v.jobs[0].monitor < |v.db.monitors| && v.claimedAt == at
  {
    RunIsSound(cal, ws, steps, |steps|);
    vs, more := Extend(cal, ws, steps, ClaimAlerts([k], at));
  }

  lemma DeliverFirst(cal: Calendar, ws: seq<World>, steps: seq<Step>, id: nat, at: Time) returns (vs: seq<World>, more: seq<Step>)
    requires Run(cal, ws, steps) && ws[|steps|].claimedAt == at
    requires var w := ws[|steps|]; |w.jobs| > 0 && w.jobs[0].id == id && !w.jobs[0].alertsMuted && w.jobs[0].monitor < |w.db.monitors|
    ensures Run(cal, vs, more) && ws <= vs && more == steps + [DispatchNext(Delivered, at, true)]
    ensures Delivers(vs[|more| - 1], more[|more| - 1], id)
  {
    RunIsSound(cal, ws, steps, |steps|);
    vs, more := Extend(cal, ws, steps, DispatchNext(Delivered, at, true));
    assert vs[|more| - 1] == ws[|steps|];
  }

  lemma ClaimAndDeliver(cal: Calendar, ws: seq<World>, steps: seq<Step>, k: nat, id: nat, from: Time)
    returns (vs: seq<World>, more: seq<Step>)
    requires Run(cal, ws, steps) && Waiting(ws[|steps|], k, id) && ws[|steps|].jobs == []
    requires !ws[|steps|].db.monitors[ws[|steps|].db.alerts[k].monitor].alertsMuted
    ensures GoesOn(cal, ws, steps, vs, more, from) && |more| > |steps| && Delivers(vs[|more| - 1], more[|more| - 1], id)
  {
    var due := ws[|steps|].db.alerts[k].nextAttemptAt + 1;
    var at := if due > from then due else from;
    vs, more := ClaimAgain(cal, ws, steps, k, id, at);
    vs, more := DeliverFirst(cal, vs, more, id, at);
  }

  lemma UnrecordedIsRedeliverable(cal: Calendar, ws: seq<World>, steps: seq<Step>, from: Time)
    requires Run(cal, ws, steps) && |steps| > 0
    requires var j := |steps| - 1; steps[j].DispatchNext? && !steps[j].recorded && |ws[j].jobs| > 0
    ensures Redeliverable(cal, ws, steps, ws[|steps| - 1].jobs[0].id, from)
  {
    var id := ws[|steps| - 1].jobs[0].id;
    var k := UnrecordedStillWaits(cal, ws, steps);
    RunIsSound(cal, ws, steps, |steps|);
    var vs, more := Extend(cal, ws, steps, StopAlerter);
    var i := vs[|more|].db.alerts[k].monitor;
    vs, more := Unlock(cal, vs, more, i, k, id, from);
    vs, more := Unmute(cal, vs, more, i, k, id, from);
    vs, more := ClaimAndDeliver(cal, vs, more, k, id, from);
    assert GoesOn(cal, ws, steps, vs, more, from);
  }

  // At most once, exactly when recorded: after a step that delivers an alert, some
  // continuation of the run, however late, delivers it again if and only if that step's
  // outcome was not recorded.
  lemma RedeliverableIffUnrecorded(cal: Calendar, ws: seq<World>, steps: seq<Step>, id: nat, from: Time)
    requires Run(cal, ws, steps) && |steps| > 0 && Delivers(ws[|steps| - 1], steps[|steps| - 1], id)
    ensures Redeliverable(cal, ws, steps, id, from) <==> !steps[|steps| - 1].recorded
  {
    var j := |steps| - 1;
    if !steps[j].recorded {
      UnrecordedIsRedeliverable(cal, ws, steps, from);
    } else if Redeliverable(cal, ws, steps, id, from) {
      var vs, more :| GoesOn(cal, ws, steps, vs, more, from) && |more| > |steps| && Delivers(vs[|more| - 1], more[|more| - 1], id);
      assert vs[j] == ws[j] && more[j] == steps[j];
      RecordedIsFinal(cal, vs, more, j, |more| - 1);
    }
  }
}
