/** The nightly rollup: one row per active monitor and day. */
module DailyStats {
  import opened Model
  import opened Downtime
  import opened Timeline
  import opened Schedule
  import opened Engine
  import opened Log
  import opened Rollup

  const DAY: Time := 24 * 3600

  // Latency percentiles are not part of this model.
  datatype DailyStat = DailyStat(checkins: nat, failures: nat, downtimeS: int)

  // The UTC day that a time lies in.
  function DayOf(t: Time): (day: int)
    ensures day * 86_400 <= t < (day + 1) * 86_400
  {
    t / DAY
  }

  predicate Within(t: Time, day: int) {
    day * DAY <= t < day * DAY + DAY
  }

  // rollupCheckinCounts: check-ins of one monitor and day, and those that failed.
  function CheckinCounts(checkins: seq<Checkin>, i: nat, day: int): (r: (nat, nat))
    ensures r.1 <= r.0
  {
    if |checkins| == 0 then (0, 0)
    else
      var (n, failed) := CheckinCounts(checkins[..|checkins| - 1], i, day);
      var c := checkins[|checkins| - 1];
      if c.monitor == i && Within(c.at, day) then (n + 1, failed + if c.kind.Fail? then 1 else 0) else (n, failed)
  }

  // rollupProbeStats, without percentiles.
  function ProbeCounts(results: seq<ProbeResult>, i: nat, day: int): (r: (nat, nat))
    ensures r.1 <= r.0
  {
    if |results| == 0 then (0, 0)
    else
      var (n, failed) := ProbeCounts(results[..|results| - 1], i, day);
      var p := results[|results| - 1];
      if p.monitor == i && Within(p.at, day) then (n + 1, failed + if p.ok then 0 else 1) else (n, failed)
  }

  predicate OnDay(monitor: nat, at: Time, i: nat, day: int) {
    monitor == i && day * 86_400 <= at < (day + 1) * 86_400
  }

  // The positions of the monitor's check-ins and probes of the day, and of the failed ones.
  function CheckinsOn(checkins: seq<Checkin>, i: nat, day: int): set<nat> {
    set k: nat | k < |checkins| && OnDay(checkins[k].monitor, checkins[k].at, i, day)
  }

  function FailedCheckinsOn(checkins: seq<Checkin>, i: nat, day: int): set<nat> {
    set k: nat | k < |checkins| && OnDay(checkins[k].monitor, checkins[k].at, i, day) && checkins[k].kind.Fail?
  }

  function ProbesOn(results: seq<ProbeResult>, i: nat, day: int): set<nat> {
    set k: nat | k < |results| && OnDay(results[k].monitor, results[k].at, i, day)
  }

  function FailedProbesOn(results: seq<ProbeResult>, i: nat, day: int): set<nat> {
    set k: nat | k < |results| && OnDay(results[k].monitor, results[k].at, i, day) && !results[k].ok
  }

  lemma OneMoreCheckin(front: seq<Checkin>, c: Checkin, i: nat, day: int)
    ensures |CheckinsOn(front + [c], i, day)| == |CheckinsOn(front, i, day)| + if OnDay(c.monitor, c.at, i, day) then 1 else 0
  {
    var all, before := CheckinsOn(front + [c], i, day), CheckinsOn(front, i, day);
    forall k: nat
      ensures k in all <==> k in before || (k == |front| && OnDay(c.monitor, c.at, i, day))
    {
      if k < |front| { assert (front + [c])[k] == front[k]; }
    }
    assert all == before + if OnDay(c.monitor, c.at, i, day) then {|front|} else {};
  }

  lemma OneMoreFailedCheckin(front: seq<Checkin>, c: Checkin, i: nat, day: int)
    ensures |FailedCheckinsOn(front + [c], i, day)| == |FailedCheckinsOn(front, i, day)| + if OnDay(c.monitor, c.at, i, day) && c.kind.Fail? then 1 else 0
  {
    var all, before := FailedCheckinsOn(front + [c], i, day), FailedCheckinsOn(front, i, day);
    forall k: nat
      ensures k in all <==> k in before || (k == |front| && OnDay(c.monitor, c.at, i, day) && c.kind.Fail?)
    {
      if k < |front| { assert (front + [c])[k] == front[k]; }
    }
    assert all == before + if OnDay(c.monitor, c.at, i, day) && c.kind.Fail? then {|front|} else {};
  }

  lemma OneMoreProbe(front: seq<ProbeResult>, p: ProbeResult, i: nat, day: int)
    ensures |ProbesOn(front + [p], i, day)| == |ProbesOn(front, i, day)| + if OnDay(p.monitor, p.at, i, day) then 1 else 0
  {
    var all, before := ProbesOn(front + [p], i, day), ProbesOn(front, i, day);
    forall k: nat
      ensures k in all <==> k in before || (k == |front| && OnDay(p.monitor, p.at, i, day))
    {
      if k < |front| { assert (front + [p])[k] == front[k]; }
    }
    assert all == before + if OnDay(p.monitor, p.at, i, day) then {|front|} else {};
  }

  lemma OneMoreFailedProbe(front: seq<ProbeResult>, p: ProbeResult, i: nat, day: int)
    ensures |FailedProbesOn(front + [p], i, day)| == |FailedProbesOn(front, i, day)| + if OnDay(p.monitor, p.at, i, day) && !p.ok then 1 else 0
  {
    var all, before := FailedProbesOn(front + [p], i, day), FailedProbesOn(front, i, day);
    forall k: nat
      ensures k in all <==> k in before || (k == |front| && OnDay(p.monitor, p.at, i, day) && !p.ok)
    {
      if k < |front| { assert (front + [p])[k] == front[k]; }
    }
    assert all == before + if OnDay(p.monitor, p.at, i, day) && !p.ok then {|front|} else {};
  }

  // The two counts are the sizes of those sets.
  lemma {:induction false} CheckinCountsAreSizes(checkins: seq<Checkin>, i: nat, day: int)
    ensures CheckinCounts(checkins, i, day) == (|CheckinsOn(checkins, i, day)|, |FailedCheckinsOn(checkins, i, day)|)
  {
    if |checkins| > 0 {
      var front, c := checkins[..|checkins| - 1], checkins[|checkins| - 1];
      CheckinCountsAreSizes(front, i, day);
      OneMoreCheckin(front, c, i, day);
      OneMoreFailedCheckin(front, c, i, day);
      assert front + [c] == checkins;
    }
  }

  lemma {:induction false} ProbeCountsAreSizes(results: seq<ProbeResult>, i: nat, day: int)
    ensures ProbeCounts(results, i, day) == (|ProbesOn(results, i, day)|, |FailedProbesOn(results, i, day)|)
  {
    if |results| > 0 {
      var front, p := results[..|results| - 1], results[|results| - 1];
      ProbeCountsAreSizes(front, i, day);
      OneMoreProbe(front, p, i, day);
      OneMoreFailedProbe(front, p, i, day);
      assert front + [p] == results;
    }
  }

  // rollupDowntimeSeconds returns a row for the monitor.
  predicate HasOutage(events: seq<Event>, i: nat, start: Time, end: Time) {
    var t := TransitionsOf(events, i, end);
    exists k :: 0 <= k < |t| && Overlaps(t, k, start, end)
  }

  predicate Overlaps(t: seq<Mark>, k: nat, start: Time, end: Time)
    requires k < |t|
  {
    t[k].typ.DownEvent? && ResolvedAt(t, k, end) > start && t[k].at < end
  }

  // The merged row for one monitor and day, if any of the three queries returned one.
  function StatFor(db: Db, i: nat, day: int): Option<DailyStat> {
    var (checkins, failed), (probes, failures) := CheckinCounts(db.checkins, i, day), ProbeCounts(db.probeResults, i, day);
    var start := day * DAY;
    if checkins == 0 && probes == 0 && !HasOutage(db.events, i, start, start + DAY) then None
    else
      Some(DailyStat(if probes > 0 then probes else checkins, if probes > 0 then failures else failed,
                     RollupDowntime(db.events, i, start, start + DAY)))
  }

  // upsertDailyStat for the first n monitors.
  function Upserted(stats: map<(nat, int), DailyStat>, db: Db, day: int, n: nat): map<(nat, int), DailyStat> {
    if n == 0 then stats
    else
      var rest, stat := Upserted(stats, db, day, n - 1), StatFor(db, n - 1, day);
      if stat.None? then rest else rest[(n - 1, day) := stat.value]
  }

  // The upsert sets exactly the rows of the day that have statistics, and no other.
  lemma {:induction false} UpsertedRow(stats: map<(nat, int), DailyStat>, db: Db, day: int, n: nat, key: (nat, int))
    ensures var upserted := key.1 == day && key.0 < n && StatFor(db, key.0, day).Some?;
            (key in Upserted(stats, db, day, n) <==> key in stats || upserted) &&
            (key in Upserted(stats, db, day, n) ==>
               Upserted(stats, db, day, n)[key] == if upserted then StatFor(db, key.0, day).value else stats[key])
  {
    if n > 0 { UpsertedRow(stats, db, day, n - 1, key); }
  }

  // Running the rollup again over the same data replaces each row by itself.
  lemma RollupIsIdempotent(stats: map<(nat, int), DailyStat>, db: Db, day: int, n: nat)
    ensures Upserted(Upserted(stats, db, day, n), db, day, n) == Upserted(stats, db, day, n)
  {
    var once := Upserted(stats, db, day, n);
    forall key: (nat, int)
      ensures key in Upserted(once, db, day, n) <==> key in once
      ensures key in once ==> Upserted(once, db, day, n)[key] == once[key]
    {
      UpsertedRow(stats, db, day, n, key);
      UpsertedRow(once, db, day, n, key);
    }
  }

  lemma {:induction false} NothingOverlaps(t: seq<Mark>, n: nat, start: Time, end: Time)
    requires n <= |t| && forall k :: 0 <= k < |t| ==> !Overlaps(t, k, start, end)
    ensures SumOutages(t, n, start, end) == 0
  {
    if n > 0 {
      NothingOverlaps(t, n - 1, start, end);
      assert !Overlaps(t, n - 1, start, end);
    }
  }

  lemma {:induction false} OverlapAdds(t: seq<Mark>, n: nat, k: nat, start: Time, end: Time)
    requires Increasing(t) && k < n <= |t| && Overlaps(t, k, start, end) && start < end
    ensures SumOutages(t, n, start, end) > 0
  {
    SumIsNatural(t, n - 1, start, end);
    if k < n - 1 { OverlapAdds(t, n - 1, k, start, end); }
  }

  lemma {:induction false} SumIsNatural(t: seq<Mark>, n: nat, start: Time, end: Time)
    requires n <= |t|
    ensures SumOutages(t, n, start, end) >= 0
  {
    if n > 0 { SumIsNatural(t, n - 1, start, end); }
  }

  // With events at distinct times the query returns a row exactly for the monitors whose
  // downtime it finds to be positive.
  lemma OutageIffDowntime(db: Db, i: nat, day: int)
    requires Increasing(TransitionsOf(db.events, i, day * DAY + DAY))
    ensures HasOutage(db.events, i, day * DAY, day * DAY + DAY) <==> RollupDowntime(db.events, i, day * DAY, day * DAY + DAY) > 0
  {
    var t := TransitionsOf(db.events, i, day * DAY + DAY);
    if HasOutage(db.events, i, day * DAY, day * DAY + DAY) {
      var k :| 0 <= k < |t| && Overlaps(t, k, day * DAY, day * DAY + DAY);
      OverlapAdds(t, |t|, k, day * DAY, day * DAY + DAY);
    } else {
      NoOutageNoDowntime(db, i, day);
    }
  }

  // A day's row in numbers of stored rows: with a probe that day its probes and failed
  // probes, else its check-ins and failed check-ins, and the downtime; no row without a
  // probe, a check-in and an outage.
  lemma StatInSizes(db: Db, i: nat, day: int)
    ensures var checkins, probes := |CheckinsOn(db.checkins, i, day)|, |ProbesOn(db.probeResults, i, day)|;
            StatFor(db, i, day) ==
            if checkins == 0 && probes == 0 && !HasOutage(db.events, i, day * 86_400, (day + 1) * 86_400) then None
            else
              Some(DailyStat(if probes > 0 then probes else checkins,
                             if probes > 0 then |FailedProbesOn(db.probeResults, i, day)| else |FailedCheckinsOn(db.checkins, i, day)|,
                             RollupDowntime(db.events, i, day * 86_400, (day + 1) * 86_400)))
  {
    CheckinCountsAreSizes(db.checkins, i, day);
    ProbeCountsAreSizes(db.probeResults, i, day);
  }

  // The query's sum is zero for a monitor that it returns no row for.
  lemma NoOutageNoDowntime(db: Db, i: nat, day: int)
    requires !HasOutage(db.events, i, day * DAY, day * DAY + DAY)
    ensures RollupDowntime(db.events, i, day * DAY, day * DAY + DAY) == 0
  {
    var t := TransitionsOf(db.events, i, day * DAY + DAY);
    NothingOverlaps(t, |t|, day * DAY, day * DAY + DAY);
  }

  // A monitor that the query leaves out was down on that day only in seconds whose down
  // event is gone; with its log stored from mark n on, only before that mark.
  lemma LeftOutWasDownOnlyBeforeKept(cal: Calendar, ws: seq<World>, steps: seq<Step>, k: nat, i: nat, n: nat, day: int)
    requires Run(cal, ws, steps) && k < |ws| && Trackable(ws[k], i) && !HasOutage(ws[k].db.events, i, day * DAY, day * DAY + DAY)
    ensures DownSeconds(ws[k].past[i].entries, day * DAY, day * DAY + DAY) == Missed(ws[k], i, day * DAY, day * DAY + DAY)
    ensures StoredFrom(ws[k], i, n, day * DAY + DAY) ==>
              DownSeconds(ws[k].past[i].entries, day * DAY, day * DAY + DAY) ==
              SecondsBeforeKept(ws[k], i, n, day * DAY, day * DAY + DAY)
  {
    NoOutageNoDowntime(ws[k].db, i, day);
    RollupIsDownSecondsLessMissedPlusOvercounted(cal, ws, steps, k, i, day * DAY, day * DAY + DAY);
    if StoredFrom(ws[k], i, n, day * DAY + DAY) { MissedOfSuffix(cal, ws, steps, k, i, n, day * DAY, day * DAY + DAY); }
  }

  // End to end, whatever was pruned: a day's stored downtime is the number of seconds of
  // the day that the state column was `down` exactly when the seconds missed for lack of
  // their down event are as many as those counted beyond the end of an outage.
  lemma StoredDowntimeExactIff(cal: Calendar, ws: seq<World>, steps: seq<Step>, k: nat, i: nat, day: int,
                               stats: map<(nat, int), DailyStat>)
    requires Run(cal, ws, steps) && k < |ws| && i < |ws[k].db.monitors| && StatFor(ws[k].db, i, day).Some? && Trackable(ws[k], i)
    ensures var stored := Upserted(stats, ws[k].db, day, |ws[k].db.monitors|);
            (i, day) in stored &&
            (stored[(i, day)].downtimeS == DownSeconds(ws[k].past[i].entries, day * DAY, day * DAY + DAY) <==>
             Missed(ws[k], i, day * DAY, day * DAY + DAY) == Overcounted(ws[k], i, day * DAY, day * DAY + DAY))
  {
    UpsertedRow(stats, ws[k].db, day, |ws[k].db.monitors|, (i, day));
    RollupIsDownSecondsLessMissedPlusOvercounted(cal, ws, steps, k, i, day * DAY, day * DAY + DAY);
  }

  // Where retention has left the monitor's downs and ups from mark n on: without a resumed
  // outage among them the row is exact exactly when the monitor was not down on that day
  // before the first of them, and without such a second exactly when no outage was resumed.
  lemma StoredDowntimeExactAfterPrune(cal: Calendar, ws: seq<World>, steps: seq<Step>, k: nat, i: nat, n: nat, day: int,
                                      stats: map<(nat, int), DailyStat>)
    requires Run(cal, ws, steps) && k < |ws| && i < |ws[k].db.monitors| && StatFor(ws[k].db, i, day).Some?
    requires Trackable(ws[k], i) && StoredFrom(ws[k], i, n, day * DAY + DAY)
    ensures var stored := Upserted(stats, ws[k].db, day, |ws[k].db.monitors|);
            (i, day) in stored &&
            var exact := stored[(i, day)].downtimeS == DownSeconds(ws[k].past[i].entries, day * DAY, day * DAY + DAY);
            var resumed := ResumedOutage(MarksOf(ws[k].log, i)[n..], day * DAY + DAY);
            var missed := DownBeforeKept(ws[k], i, n, day * DAY, day * DAY + DAY);
            (!resumed ==> (exact <==> !missed)) && (!missed ==> (exact <==> !resumed))
  {
    UpsertedRow(stats, ws[k].db, day, |ws[k].db.monitors|, (i, day));
    RollupExactIff(cal, ws, steps, k, i, n, day * DAY, day * DAY + DAY);
  }
}
