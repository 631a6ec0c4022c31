/** The alerter's loop over claimed jobs (backend/worker/alerter). */
module Dispatching {
  import opened Model
  import opened Outbox
  import opened Engine
  import opened Storage

  const CLAIM_LIMIT: nat := 100

  // What a whole tick does: the outcome and the clock of each send are given.
  function DispatchAll(db: Db, jobs: seq<AlertJob>, sends: seq<SendResult>, clock: seq<Time>): Db
    requires |sends| == |jobs| == |clock|
  {
    if |jobs| == 0 then db
    else
      var n := |jobs| - 1;
      Dispatch(DispatchAll(db, jobs[..n], sends[..n], clock[..n]), jobs[n], sends[n], clock[n])
  }

  // Giving up reads no retry time.
  lemma GiveUpIgnoresNext(alerts: seq<Alert>, id: nat, reason: FailReason, next: Time, nextToo: Time, now: Time)
    ensures SettleById(alerts, id, GiveUp(reason), next, now) == SettleById(alerts, id, GiveUp(reason), nextToo, now)
  {
    assert |SettleById(alerts, id, GiveUp(reason), next, now)| == |SettleById(alerts, id, GiveUp(reason), nextToo, now)|;
  }

  class Alerter {
    const st: Store

    constructor (st: Store)
      ensures this.st == st
    {
      this.st := st;
    }

    // The delay before the next attempt: 60 * 5^attempts seconds.
    method BackoffDelay(attempts: int) returns (d: Time)
      ensures d == Backoff(attempts)
      ensures (attempts <= 0 ==> d == 60) && (attempts == 1 ==> d == 300) && (attempts == 2 ==> d == 1500)
    {
      d := BASE_BACKOFF;
      var k := 0;
      while k < attempts
        invariant 0 <= k && (k <= attempts || k == 0) && d == BASE_BACKOFF * Pow5(k)
      {
        d := d * BACKOFF_MULT;
        k := k + 1;
      }
      assert Pow5(1) == 5 && Pow5(2) == 25;
    }

    // Delivers one claimed alert and records its outcome, in the row of that id and no other.
    // Muted: sent, with no attempt, whatever the send would give. Delivered: sent now. A
    // transient refusal with fewer than two attempts before: pending, due after one minute,
    // or five after the second try. Everything else fails, with one event that says why.
    method DispatchJob(job: AlertJob, send: SendResult, now: Time)
      modifies st
      ensures st.dailyStats == old(st.dailyStats) && st.monitors == old(st.monitors)
      ensures st.checkins == old(st.checkins) && st.probeResults == old(st.probeResults)
      ensures |st.alerts| == |old(st.alerts)| && st.nextAlert == old(st.nextAlert)
      ensures forall k :: 0 <= k < |st.alerts| && old(st.alerts)[k].id != job.id ==> st.alerts[k] == old(st.alerts)[k]
      ensures forall k :: 0 <= k < |st.alerts| && old(st.alerts)[k].id == job.id ==>
                var a := old(st.alerts)[k];
                st.alerts[k] ==
                if job.alertsMuted then a.(status := Sent)
                else if send.Delivered? then a.(status := Sent, sentAt := Some(now), attempts := a.attempts + 1)
                else if send == Refused(true) && job.attempts < 2 then
                  a.(attempts := a.attempts + 1, nextAttemptAt := now + if job.attempts <= 0 then 60 else 300)
                else a.(status := Failed, attempts := a.attempts + 1)
      ensures job.alertsMuted || send.Delivered? || (send == Refused(true) && job.attempts < 2) ==>
                st.events == old(st.events) && st.nextEvent == old(st.nextEvent)
      ensures !job.alertsMuted && !send.Delivered? && !(send == Refused(true) && job.attempts < 2) ==>
                st.nextEvent == old(st.nextEvent) + 1 &&
                st.events == old(st.events) + [Event(old(st.nextEvent), job.monitor, AlertFailedEvent,
                                                     DeliveryFailed(if send.NoChannel? then NotConfigured
                                                                    else if send.RenderFailed? then NotBuilt else Rejected),
                                                     None, now)]
      ensures st.Snapshot() == Dispatch(old(st.Snapshot()), job, send, now)
    {
      ghost var next := now + Backoff(job.attempts);
      if job.alertsMuted {
        st.SuppressAlert(job.id);
        assert st.alerts == SettleById(old(st.alerts), job.id, Suppress, next, now);
        return;
      }
      match send {
        case NoChannel => Fail(job, NotConfigured, now);
        case RenderFailed => Fail(job, NotBuilt, now);
        case Delivered =>
          st.MarkAlertSent(job.id, now);
          assert st.alerts == SettleById(old(st.alerts), job.id, MarkSent, next, now);
        case Refused(retryable) =>
          if retryable && job.attempts + 1 < MAX_ATTEMPTS {
            var delay := BackoffDelay(job.attempts);
            st.RescheduleAlert(job.id, now + delay);
            assert st.alerts == SettleById(old(st.alerts), job.id, Retry, next, now);
          } else {
            Fail(job, Rejected, now);
          }
      }
    }

    method Fail(job: AlertJob, reason: FailReason, now: Time)
      modifies st
      ensures st.dailyStats == old(st.dailyStats) && st.monitors == old(st.monitors)
      ensures st.checkins == old(st.checkins) && st.probeResults == old(st.probeResults)
      ensures |st.alerts| == |old(st.alerts)| && st.nextAlert == old(st.nextAlert)
      ensures forall k :: 0 <= k < |st.alerts| && old(st.alerts)[k].id != job.id ==> st.alerts[k] == old(st.alerts)[k]
      ensures forall k :: 0 <= k < |st.alerts| && old(st.alerts)[k].id == job.id ==>
                st.alerts[k] == old(st.alerts)[k].(status := Failed, attempts := old(st.alerts)[k].attempts + 1)
      ensures st.nextEvent == old(st.nextEvent) + 1
      ensures st.events == old(st.events) + [Event(old(st.nextEvent), job.monitor, AlertFailedEvent, DeliveryFailed(reason), None, now)]
      ensures st.Snapshot() == Record(old(st.Snapshot()), job, GiveUp(reason), now + Backoff(job.attempts), now)
    {
      GiveUpIgnoresNext(st.alerts, job.id, reason, 0, now + Backoff(job.attempts), now);
      st.FailAlert(job.id, job.monitor, reason, now);
    }

    // Dispatches the claimed jobs in order, as far as send outcomes are given.
    method DispatchJobs(jobs: seq<AlertJob>, sends: seq<SendResult>, clock: seq<Time>) returns (dispatched: nat)
      requires |sends| == |clock|
      modifies st
      ensures dispatched == if |sends| < |jobs| then |sends| else |jobs|
      ensures st.Snapshot() == DispatchAll(old(st.Snapshot()), jobs[..dispatched], sends[..dispatched], clock[..dispatched])
    {
      dispatched := 0;
      while dispatched < |jobs| && dispatched < |sends|
        invariant dispatched <= |jobs| && dispatched <= |sends|
        invariant st.Snapshot() == DispatchAll(old(st.Snapshot()), jobs[..dispatched], sends[..dispatched], clock[..dispatched])
      {
        var k := dispatched;
        assert jobs[..k + 1][..k] == jobs[..k] && sends[..k + 1][..k] == sends[..k] && clock[..k + 1][..k] == clock[..k];
        DispatchJob(jobs[k], sends[k], clock[k]);
        dispatched := k + 1;
      }
    }

    // One pass: enqueue reminders, claim what is due, dispatch each job. A job that no send
    // outcome is given for is not reached.
    method Tick(now: Time, sends: seq<SendResult>, clock: seq<Time>) returns (dispatched: nat)
      requires |sends| == |clock|
      modifies st
      ensures var reminded := RemindFrom(old(st.Snapshot()), 0, now);
              var jobs := Jobs(reminded, DueAlerts(reminded, now, 100));
              dispatched == (if |sends| < |jobs| then |sends| else |jobs|) &&
              st.Snapshot() == DispatchAll(reminded, jobs[..dispatched], sends[..dispatched], clock[..dispatched])
    {
      var _, _ := st.EnqueueDownReminders(now);
      var jobs, _ := st.ClaimDueAlerts(now, CLAIM_LIMIT);
      dispatched := DispatchJobs(jobs, sends, clock);
    }
  }
}
