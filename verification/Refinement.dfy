/** The store's methods are the engine's steps: what one call does to the tables is what
  * the corresponding steps do to the database of any world.
  */
module Refinement {
  import opened Model
  import opened Schedule
  import opened Outbox
  import opened Engine
  import opened Ticks
  import opened Storage
  import opened Retention
  import opened Dispatching
  import opened Draining
  import opened Fairness

  // The world after a sequence of steps, if each was enabled.
  ghost function After(cal: Calendar, w: World, steps: seq<Step>): (r: Option<World>)
    requires Sized(w)
    ensures r.Some? ==> Sized(r.value)
  {
    if |steps| == 0 then Some(w)
    else
      var v, s := After(cal, w, steps[..|steps| - 1]), steps[|steps| - 1];
      if v.Some? && Enabled(v.value, s) then Some(Do(cal, v.value, s)) else None
  }

  lemma AfterOne(cal: Calendar, w: World, s: Step)
    requires Sized(w) && Enabled(w, s)
    ensures After(cal, w, [s]) == Some(Do(cal, w, s))
  {
    assert [s][..0] == [];
  }

  lemma AfterAppend(cal: Calendar, w: World, steps: seq<Step>, s: Step)
    requires Sized(w) && After(cal, w, steps).Some? && Enabled(After(cal, w, steps).value, s)
    ensures After(cal, w, steps + [s]) == Some(Do(cal, After(cal, w, steps).value, s))
  {
    assert (steps + [s])[..|steps|] == steps;
  }

  // Store.EvaluateDueMonitors is a claim and its commit, and the claim is one that the
  // no-starvation theorem admits.
  lemma SchedulerTickIsEngine(cal: Calendar, w: World, replica: nat, now: Time, limit: nat, bound: Time)
    requires Sized(w) && w.claims == map[] && bound < now
    ensures var ids := DueIds(w.db.monitors, now, limit);
            var steps := [ClaimDue(replica, ids, now), Commit(replica)];
            Enabled(w, steps[0]) && Orderly(w, steps[0], bound, limit) && After(cal, w, steps).Some? &&
            After(cal, w, steps).value.db == EvaluateDb(w.db, Engine.Snapshot(w.db.monitors, ids), now)
  {
    var ids := DueIds(w.db.monitors, now, limit);
    var claim := ClaimDue(replica, ids, now);
    ClaimIsEarliest(w.db.monitors, now, limit);
    assert Held(w) == {};
    AfterOne(cal, w, claim);
    var v := Do(cal, w, claim);
    AfterAppend(cal, w, [claim], Commit(replica));
    assert [claim] + [Commit(replica)] == [claim, Commit(replica)];
    EvaluateDbIsEngine(v.(claims := v.claims - {replica}), v.claims[replica].rows, now);
  }

  function Dispatches(sends: seq<SendResult>, clock: seq<Time>): (steps: seq<Step>)
    requires |sends| == |clock|
    ensures |steps| == |sends| && forall k :: 0 <= k < |steps| ==> steps[k] == DispatchNext(sends[k], clock[k], true)
  {
    seq(|sends|, k requires 0 <= k < |sends| => DispatchNext(sends[k], clock[k], true))
  }

  lemma DispatchIsEngine(cal: Calendar, v: World, send: SendResult, at: Time)
    requires Sized(v) && |v.jobs| > 0 && v.jobs[0].monitor < |v.db.monitors| && at >= v.claimedAt
    ensures var u := Do(cal, v, DispatchNext(send, at, true));
            Enabled(v, DispatchNext(send, at, true)) && u.db == Dispatch(v.db, v.jobs[0], send, at) &&
            u.jobs == v.jobs[1..] && u.claimedAt == v.claimedAt && |u.db.monitors| == |v.db.monitors|
  {
  }

  // What n dispatches have done to the world they started from.
  ghost predicate Dispatched(w: World, v: World, sends: seq<SendResult>, clock: seq<Time>)
    requires |sends| == |clock| <= |w.jobs|
  {
    v.db == DispatchAll(w.db, w.jobs[..|sends|], sends, clock) && v.jobs == w.jobs[|sends|..] &&
    v.claimedAt == w.claimedAt && |v.db.monitors| == |w.db.monitors|
  }

  lemma OneMoreDispatched(w: World, v: World, u: World, sends: seq<SendResult>, clock: seq<Time>, send: SendResult, at: Time)
    requires |sends| == |clock| < |w.jobs| && Dispatched(w, v, sends, clock)
    requires u.db == Dispatch(v.db, v.jobs[0], send, at) && u.jobs == v.jobs[1..]
    requires u.claimedAt == v.claimedAt && |u.db.monitors| == |v.db.monitors|
    ensures Dispatched(w, u, sends + [send], clock + [at])
  {
    var n := |sends|;
    assert w.jobs[..n + 1][..n] == w.jobs[..n];
    assert (sends + [send])[..n] == sends && (clock + [at])[..n] == clock;
  }

  lemma DispatchOneMore(cal: Calendar, w: World, v: World, sends: seq<SendResult>, clock: seq<Time>, send: SendResult, at: Time)
    returns (u: World)
    requires Sized(w) && Sized(v) && |sends| == |clock| < |w.jobs| && at >= w.claimedAt
    requires w.jobs[|sends|].monitor < |w.db.monitors|
    requires After(cal, w, Dispatches(sends, clock)) == Some(v) && Dispatched(w, v, sends, clock)
    ensures After(cal, w, Dispatches(sends + [send], clock + [at])) == Some(u)
    ensures Dispatched(w, u, sends + [send], clock + [at])
  {
    DispatchIsEngine(cal, v, send, at);
    u := Do(cal, v, DispatchNext(send, at, true));
    OneMoreDispatched(w, v, u, sends, clock, send, at);
    AfterAppend(cal, w, Dispatches(sends, clock), DispatchNext(send, at, true));
    assert Dispatches(sends + [send], clock + [at]) == Dispatches(sends, clock) + [DispatchNext(send, at, true)];
  }

  lemma {:induction false} DispatchesAreEngine(cal: Calendar, w: World, sends: seq<SendResult>, clock: seq<Time>)
    returns (v: World)
    requires Sized(w) && |sends| == |clock| <= |w.jobs|
    requires forall k :: 0 <= k < |w.jobs| ==> w.jobs[k].monitor < |w.db.monitors|
    requires forall k :: 0 <= k < |clock| ==> clock[k] >= w.claimedAt
    ensures After(cal, w, Dispatches(sends, clock)) == Some(v) && Dispatched(w, v, sends, clock)
    decreases |sends|
  {
    var n := |sends|;
    if n == 0 {
      v := w;
    } else {
      var front, times := sends[..n - 1], clock[..n - 1];
      assert front + [sends[n - 1]] == sends && times + [clock[n - 1]] == clock;
      var u := DispatchesAreEngine(cal, w, front, times);
      v := DispatchOneMore(cal, w, u, front, times, sends[n - 1], clock[n - 1]);
    }
  }

  // Alerter.Tick is reminding, claiming and dispatching each job.
  lemma AlerterTickIsEngine(cal: Calendar, w: World, now: Time, sends: seq<SendResult>, clock: seq<Time>)
    returns (v: World)
    requires Sized(w) && w.jobs == [] && |sends| == |clock| && forall k :: 0 <= k < |clock| ==> clock[k] >= now
    requires |sends| <= |DueAlerts(RemindFrom(w.db, 0, now), now, CLAIM_LIMIT)|
    ensures var reminded := RemindFrom(w.db, 0, now);
            var due := DueAlerts(reminded, now, CLAIM_LIMIT);
            After(cal, w, [Remind(now), ClaimAlerts(due, now)]) == Some(v) &&
            var u := After(cal, v, Dispatches(sends, clock));
            u.Some? && u.value.db == DispatchAll(reminded, Jobs(reminded, due)[..|sends|], sends, clock)
  {
    AfterOne(cal, w, Remind(now));
    var u := Do(cal, w, Remind(now));
    var due := DueAlerts(u.db, now, CLAIM_LIMIT);
    AfterAppend(cal, w, [Remind(now)], ClaimAlerts(due, now));
    assert [Remind(now)] + [ClaimAlerts(due, now)] == [Remind(now), ClaimAlerts(due, now)];
    v := Do(cal, u, ClaimAlerts(due, now));
    var _ := DispatchesAreEngine(cal, v, sends, clock);
  }

  // Each batch of Store.DeleteOldEventsBatch is a prune step.
  lemma BatchIsEngine(cal: Calendar, w: World, doomed: set<nat>, cutoff: Time)
    requires Sized(w) && doomed <= PrunableIds(w.db, cutoff) && Retention.UniqueIds(w.db.events)
    requires forall e :: e in w.db.events ==> e.id < w.db.nextEvent
    ensures Enabled(w, Prune(doomed, cutoff)) && Do(cal, w, Prune(doomed, cutoff)).db == PruneDb(w.db, doomed)
  {
    forall e | e in w.db.events && e.id in doomed
      ensures Prunable(w.db, e, cutoff)
    {
      var d :| d in w.db.events && Prunable(w.db, d, cutoff) && d.id == e.id;
      assert d == e;
    }
  }
}
