/** Concrete runs in which a plausible property of the engine fails. */
module Examples {
  import opened Model
  import opened Schedule
  import opened Rows
  import opened Outbox
  import opened Engine
  import opened Timeline
  import opened Locks
  import opened Log
  import opened Downtime
  import opened Rollup
  import opened Audit
  import opened DailyStats
  import opened Guarantees

  function NewMonitor(kind: Kind): (m: Monitor)
    ensures Newborn(m)
  {
    Monitor(kind, None, None, "", "", None, false, 3600, New, 0, None, None, None, false, None, None)
  }

  // A heartbeat without a schedule fails at 10, is resumed at 20 and fails again at 30.
  const FAILED := Event(0, 0, DownEvent, ReportedFailure, None, 10)
  const RESUMED := Event(1, 0, ResumeEvent, Resumed, None, 20)
  const FAILED_AGAIN := Event(2, 0, DownEvent, ReportedFailure, None, 30)

  lemma FailThenResume(cal: Calendar) returns (ws: seq<World>, steps: seq<Step>)
    ensures Run(cal, ws, steps) && |ws| == 4 && |ws[3].past| == 1 == |ws[3].db.monitors| && ws[3].db.nextEvent == 2
    ensures ws[3].log == [FAILED, RESUMED] == ws[3].db.events && ws[3].claims == map[] && !ws[3].db.monitors[0].state.Down?
    ensures ws[3].past[0].serial && |ws[3].past[0].entries| == 2 && ws[3].pruned == {}
    ensures ws[3].past[0].entries[0].at == 10 && ws[3].past[0].entries[1].at == 20
  {
    ws, steps := [EMPTY], [];
    ws, steps := Extend(cal, ws, steps, Create(NewMonitor(Heartbeat)));
    ws, steps := Extend(cal, ws, steps, CheckIn(0, Fail, 10));
    assert ws[2].log == [FAILED];
    ws, steps := Extend(cal, ws, steps, Resume(0, 20));
  }

  lemma FailResumeFail(cal: Calendar) returns (ws: seq<World>, steps: seq<Step>)
    ensures Run(cal, ws, steps) && |ws| == 5 && |ws[4].past| == 1
    ensures ws[4].log == [FAILED, RESUMED, FAILED_AGAIN] == ws[4].db.events
    ensures ws[4].past[0].serial && |ws[4].past[0].entries| == 3 && ws[4].pruned == {}
    ensures forall j :: 0 <= j < 3 ==> ws[4].past[0].entries[j].at == 10 * (j + 1)
  {
    ws, steps := FailThenResume(cal);
    ws, steps := Extend(cal, ws, steps, CheckIn(0, Fail, 30));
    assert ws[4].log == [FAILED, RESUMED, FAILED_AGAIN];
  }

  const MARKS := [Mark(10, DownEvent), Mark(20, ResumeEvent), Mark(30, DownEvent)]

  lemma MarksOfExample()
    ensures MarksOf([FAILED, RESUMED, FAILED_AGAIN], 0) == MARKS
  {
    var log := [FAILED, RESUMED, FAILED_AGAIN];
    assert log[..2] == [FAILED, RESUMED] && log[..2][..1] == [FAILED];
    assert MarksOf([FAILED], 0) == [MARKS[0]];
    assert MarksOf(log[..2], 0) == [MARKS[0], MARKS[1]];
  }

  lemma TransitionsOfExample()
    ensures TransitionsOf([FAILED, RESUMED, FAILED_AGAIN], 0, 100) == [Mark(10, DownEvent), Mark(30, DownEvent)]
  {
    var log := [FAILED, RESUMED, FAILED_AGAIN];
    assert log[..2] == [FAILED, RESUMED] && log[..2][..1] == [FAILED];
    assert TransitionsOf([FAILED], 0, 100) == [MARKS[0]];
    assert TransitionsOf(log[..2], 0, 100) == [MARKS[0]];
  }

  lemma SumOfExample()
    ensures SumOutages([Mark(10, DownEvent), Mark(30, DownEvent)], 2, 0, 100) == 160
    ensures Duplicate([Mark(10, DownEvent), Mark(30, DownEvent)])
  {
    var t := [Mark(10, DownEvent), Mark(30, DownEvent)];
    assert t[1].typ == t[0].typ;
    assert SumOutages(t, 1, 0, 100) == 90;
  }

  lemma OvercountOfExample()
    ensures Overcount(MARKS, 0, 100) == 80
  {
    assert MARKS[..2] == [MARKS[0], MARKS[1]] && MARKS[..2][..1] == [MARKS[0]] && MARKS[..1][..0] == [];
    assert Overcount([MARKS[0]], 0, 100) == 0;
    assert DownNow(MARKS[..1]);
    assert Overcount(MARKS[..2], 0, 100) == 80;
  }

  // FailResumeFail ends in a world that the rollup results are about.
  lemma ExampleIsTracked(cal: Calendar) returns (ws: seq<World>, steps: seq<Step>)
    ensures Run(cal, ws, steps) && |ws| == 5 && Trackable(ws[4], 0) && StoredFrom(ws[4], 0, 0, 100)
    ensures ws[4].log == [FAILED, RESUMED, FAILED_AGAIN] == ws[4].db.events && SecondsBeforeKept(ws[4], 0, 0, 0, 100) == 0
  {
    ws, steps := FailResumeFail(cal);
    RunKeepsLog(cal, ws, steps, 4);
    NothingPruned(ws[4], 0, 100);
    MarksOfExample();
    NothingMissed(cal, ws, steps, 4, 0, 0, 100);
  }

  // In that run the rollup reports 160 seconds of downtime in a window of 100 seconds,
  // and the audit sees a down directly after a down, although the engine ran as intended.
  lemma RollupCanExceedItsWindow(cal: Calendar) returns (ws: seq<World>, steps: seq<Step>)
    ensures Run(cal, ws, steps) && |ws| == 5 && Trackable(ws[4], 0) && StoredFrom(ws[4], 0, 0, 100)
    ensures RollupDowntime(ws[4].db.events, 0, 0, 100) == 160
    ensures DownSeconds(ws[4].past[0].entries, 0, 100) == 80
    ensures Duplicate(TransitionsOf(ws[4].db.events, 0, 100))
  {
    ws, steps := ExampleIsTracked(cal);
    MarksOfExample();
    TransitionsOfExample();
    SumOfExample();
    OvercountOfExample();
    assert MARKS[0..] == MARKS;
    RollupIsDownSecondsPlusOvercount(cal, ws, steps, 4, 0, 0, 0, 100);
  }

  // A down at 10 whose alert is sent at 20 and whose event is pruned at cutoff 50, while
  // the monitor stays down.
  lemma FailAndSend(cal: Calendar) returns (ws: seq<World>, steps: seq<Step>)
    ensures Run(cal, ws, steps) && |ws| == 5 && |ws[4].past| == 1 == |ws[4].db.monitors| && ws[4].db.nextEvent == 1
    ensures ws[4].log == [FAILED] == ws[4].db.events && ws[4].pruned == {}
    ensures ws[4].past[0] == Past([Entry(10, Reported(Fail), Down, [DownEvent])], true)
    ensures ws[4].db.alerts == [Settle(UNSENT, MarkSent, 80, 20)]
  {
    ws, steps := FailOnce(cal);
    ws, steps := Extend(cal, ws, steps, ClaimAlerts([0], 20));
    ws, steps := Extend(cal, ws, steps, DispatchNext(Delivered, 20, true));
  }

  lemma FailThenPrune(cal: Calendar) returns (ws: seq<World>, steps: seq<Step>)
    ensures Run(cal, ws, steps) && |ws| == 6 && |ws[5].past| == 1 && steps[4] == Prune({0}, 50)
    ensures ws[5].log == [FAILED] && ws[5].pruned == {0} && ws[5].db.events == []
    ensures ws[5].past[0] == Past([Entry(10, Reported(Fail), Down, [DownEvent])], true)
  {
    ws, steps := FailAndSend(cal);
    ws, steps := Extend(cal, ws, steps, Prune({0}, 50));
    assert [FAILED][..0] == [];
    assert KeepEvents([FAILED], {0}) == [];
  }

  lemma {:induction false} DownEverAfter(entries: seq<Entry>, start: Time, end: Time)
    requires entries == [Entry(10, Reported(Fail), Down, [DownEvent])] && 10 <= start <= end
    ensures DownSeconds(entries, start, end) == end - start
    decreases end - start
  {
    if start < end { DownEverAfter(entries, start + 1, end); }
  }

  lemma PrunedMarks()
    ensures MarksOf([FAILED], 0) == [Mark(10, DownEvent)] && KeptOf([FAILED], {0}, 0) == [false]
    ensures KeptFrom([Mark(10, DownEvent)], [false], 1, 200) && !ResumedOutage([Mark(10, DownEvent)], 200)
  {
    assert [FAILED][..0] == [];
    assert MarksOf([FAILED], 0) == MarksOf([], 0) + [Mark(10, DownEvent)];
    assert KeptOf([FAILED], {0}, 0) == KeptOf([], {0}, 0) + [false];
    assert KeptAt([Mark(10, DownEvent)], [false], 0, 1, 200);
  }

  lemma NoEventsNoDowntime()
    ensures RollupDowntime([], 0, 100, 200) == 0 && !HasOutage([], 0, 100, 200)
  {
  }

  lemma OneEntryInOrder(e: Entry)
    requires e.emits == [DownEvent]
    ensures InOrder([e])
  {
    assert [e][..0] == [];
    MarksOfOne(DownEvent, e.at);
    assert Marks([e]) == [] + MarksIn(e.emits, e.at);
  }

  // In that run the rollup reports no downtime, and returns no row, for a window in which
  // the monitor was down throughout and never resumed.
  lemma PrunedOutageIsMissed(cal: Calendar) returns (ws: seq<World>, steps: seq<Step>)
    ensures Run(cal, ws, steps) && |ws| == 6 && Trackable(ws[5], 0) && StoredFrom(ws[5], 0, 1, 200)
    ensures !ResumedOutage(MarksOf(ws[5].log, 0), 200) && !HasOutage(ws[5].db.events, 0, 100, 200)
    ensures RollupDowntime(ws[5].db.events, 0, 100, 200) == 0
    ensures DownSeconds(ws[5].past[0].entries, 100, 200) == 100
  {
    ws, steps := FailThenPrune(cal);
    PrunedMarks();
    NoEventsNoDowntime();
    OneEntryInOrder(ws[5].past[0].entries[0]);
    DownEverAfter(ws[5].past[0].entries, 100, 200);
  }

  // Two probers that worked from the same snapshot of a new monitor take it down twice.
  const STALE := ProbeOutcome(false, None, "", None, 1, Some(New), 0, None, 60, 0)
  const PROBED := Event(0, 0, DownEvent, ProbeFailed(""), None, 10)
  const PROBED_AGAIN := Event(1, 0, DownEvent, ProbeFailed(""), None, 20)

  lemma StaleChange(m: Monitor)
    ensures ProbeChange(m, STALE).emits == [Emit(DownEvent, ProbeFailed(""), None, true)]
  {
  }

  lemma ProbeOnce(cal: Calendar) returns (ws: seq<World>, steps: seq<Step>)
    ensures Run(cal, ws, steps) && |ws| == 3 && |ws[2].past| == 1 == |ws[2].db.monitors| && ws[2].log == [PROBED]
    ensures ws[2].db.monitors[0].kind.Http? && ws[2].claims == map[] && ws[2].db.nextEvent == 1
  {
    ws, steps := [EMPTY], [];
    ws, steps := Extend(cal, ws, steps, Create(NewMonitor(Http)));
    StaleChange(ws[1].db.monitors[0]);
    ws, steps := Extend(cal, ws, steps, Probe(0, STALE, 10));
    assert ws[2].log == [PROBED];
  }

  lemma ProbeTwice(cal: Calendar) returns (ws: seq<World>, steps: seq<Step>)
    ensures Run(cal, ws, steps) && |ws| == 4 && |ws[3].past| == 1 && ws[3].log == [PROBED, PROBED_AGAIN]
  {
    ws, steps := ProbeOnce(cal);
    StaleChange(ws[2].db.monitors[0]);
    ws, steps := Extend(cal, ws, steps, Probe(0, STALE, 20));
  }

  lemma StaleProbeRepeatsDown(cal: Calendar) returns (ws: seq<World>, steps: seq<Step>)
    ensures Run(cal, ws, steps) && |ws| == 4 && |ws[3].past| == 1 && !TimelineHolds(ws[3], 0)
    ensures MarksOf(ws[3].log, 0) == [Mark(10, DownEvent), Mark(20, DownEvent)]
  {
    ws, steps := ProbeTwice(cal);
    assert [PROBED, PROBED_AGAIN][..1] == [PROBED];
    assert MarksOf([PROBED], 0) == [Mark(10, DownEvent)];
    assert !Follows(MarksOf(ws[3].log, 0), 1);
  }

  const UNSENT := Alert(0, 0, 0, Pending, 0, 10, None, 10, false)

  lemma FailOnce(cal: Calendar) returns (ws: seq<World>, steps: seq<Step>)
    ensures Run(cal, ws, steps) && |steps| == 2
    ensures ws[2].db.alerts == [UNSENT] && ws[2].jobs == [] && |ws[2].db.monitors| == 1 == |ws[2].past|
    ensures ws[2].log == [FAILED] == ws[2].db.events && ws[2].pruned == {} && !ws[2].db.monitors[0].alertsMuted
    ensures ws[2].db.nextEvent == 1 && ws[2].past[0] == Past([Entry(10, Reported(Fail), Down, [DownEvent])], true)
  {
    ws, steps := [EMPTY], [];
    ws, steps := Extend(cal, ws, steps, Create(NewMonitor(Heartbeat)));
    var m, db := ws[1].db.monitors[0], ws[1].db;
    var c := CheckinChange(cal, m, Fail, 10).value;
    LogOne(db.(checkins := db.checkins + [Checkin(0, Fail, 10)], monitors := [c.row]), 0,
           Emit(DownEvent, ReportedFailure, None, true), 10);
    ws, steps := Extend(cal, ws, steps, CheckIn(0, Fail, 10));
    assert db.monitors[0 := c.row] == [c.row];
    assert Types(c.emits) == [DownEvent] && c.row.state == Down;
    assert ws[2].past[0].entries == [] + [Entry(10, Reported(Fail), Down, Types(c.emits))];
    assert ws[2].db == Apply(db.(checkins := db.checkins + [Checkin(0, Fail, 10)]), 0, c, 10);
  }

  lemma ClaimAndLose(cal: Calendar, ws: seq<World>, steps: seq<Step>, at: Time) returns (vs: seq<World>, more: seq<Step>)
    requires Run(cal, ws, steps) && at > 10
    requires var w := ws[|ws| - 1]; w.db.alerts == [UNSENT] && w.jobs == [] && |w.db.monitors| == 1
    ensures Run(cal, vs, more) && more == steps + [ClaimAlerts([0], at), DispatchNext(Delivered, at, false)]
    ensures ws <= vs && |vs| == |ws| + 2 && |vs[|ws|].jobs| == 1 && vs[|ws|].jobs[0].id == UNSENT.id
    ensures var w := vs[|vs| - 1]; w.db.alerts == [UNSENT] && w.jobs == [] && |w.db.monitors| == 1
  {
    RunIsSound(cal, ws, steps, |ws| - 1);
    vs, more := Extend(cal, ws, steps, ClaimAlerts([0], at));
    vs, more := Extend(cal, vs, more, DispatchNext(Delivered, at, false));
  }

  // An alert that was delivered but whose outcome was not recorded is claimed, and so
  // delivered, again: delivery is not at most once.
  lemma UnrecordedSendIsRepeated(cal: Calendar) returns (ws: seq<World>, steps: seq<Step>)
    ensures Run(cal, ws, steps) && |steps| == 6
    ensures steps[3] == DispatchNext(Delivered, 20, false) && steps[5] == DispatchNext(Delivered, 30, false)
    ensures |ws[3].jobs| == 1 == |ws[5].jobs| && ws[3].jobs[0].id == ws[5].jobs[0].id
  {
    ws, steps := FailOnce(cal);
    ws, steps := ClaimAndLose(cal, ws, steps, 20);
    ws, steps := ClaimAndLose(cal, ws, steps, 30);
  }
}
