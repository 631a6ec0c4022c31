/** The downtime rollup over the stored events, against the seconds a monitor's state
  * column was `down`, whatever retention has removed.
  */
module Rollup {
  import opened Model
  import opened Schedule
  import opened Engine
  import opened Timeline
  import opened Locks
  import opened Log
  import opened Downtime

  // -------------------------------------------------------- marks and stored events

  // For each mark of monitor i, whether its event is still stored.
  function KeptOf(log: seq<Event>, pruned: set<nat>, i: nat): (kept: seq<bool>)
    ensures |kept| == |MarksOf(log, i)|
  {
    if |log| == 0 then []
    else
      var e := log[|log| - 1];
      KeptOf(log[..|log| - 1], pruned, i) + if e.monitor == i && IsMark(e.typ) then [e.id !in pruned] else []
  }

  // The query's transitions: the stored downs and ups before the window's end.
  function KeptTransitions(marks: seq<Mark>, kept: seq<bool>, end: Time): seq<Mark>
    requires |kept| == |marks|
  {
    if |marks| == 0 then []
    else
      var n := |marks| - 1;
      KeptTransitions(marks[..n], kept[..n], end) + if kept[n] && IsTransition(marks[n].typ) && marks[n].at < end then [marks[n]] else []
  }

  lemma KeptAppend(marks: seq<Mark>, kept: seq<bool>, m: Mark, b: bool, end: Time)
    requires |kept| == |marks|
    ensures KeptTransitions(marks + [m], kept + [b], end) ==
            KeptTransitions(marks, kept, end) + if b && IsTransition(m.typ) && m.at < end then [m] else []
  {
    assert (marks + [m])[..|marks|] == marks && (kept + [b])[..|kept|] == kept;
  }

  lemma TransitionsAppend(events: seq<Event>, e: Event, i: nat, end: Time)
    ensures TransitionsOf(events + [e], i, end) ==
            TransitionsOf(events, i, end) + if e.monitor == i && IsTransition(e.typ) && e.at < end then [Mark(e.at, e.typ)] else []
  {
    assert (events + [e])[..|events|] == events;
  }

  lemma {:induction false} StoredTransitions(log: seq<Event>, pruned: set<nat>, i: nat, end: Time)
    ensures TransitionsOf(KeepEvents(log, pruned), i, end) == KeptTransitions(MarksOf(log, i), KeptOf(log, pruned, i), end)
  {
    if |log| > 0 {
      var front, e := log[..|log| - 1], log[|log| - 1];
      StoredTransitions(front, pruned, i, end);
      TransitionsAppend(KeepEvents(front, pruned), e, i, end);
      if e.monitor == i && IsMark(e.typ) {
        KeptAppend(MarksOf(front, i), KeptOf(front, pruned, i), Mark(e.at, e.typ), e.id !in pruned, end);
      } else {
        assert MarksOf(log, i) == MarksOf(front, i) && KeptOf(log, pruned, i) == KeptOf(front, pruned, i);
      }
    }
  }

  // ------------------------------------------------- seconds missed, seconds overcounted

  // The marks with every stored down masked: only downs no longer stored are left as downs.
  function Masked(marks: seq<Mark>, kept: seq<bool>): (r: seq<Mark>)
    requires |kept| == |marks|
    ensures |r| == |marks|
    ensures forall k :: 0 <= k < |r| ==>
              r[k] == if kept[k] && marks[k].typ.DownEvent? then Mark(marks[k].at, ResumeEvent) else marks[k]
  {
    seq(|marks|, k requires 0 <= k < |marks| =>
      if kept[k] && marks[k].typ.DownEvent? then Mark(marks[k].at, ResumeEvent) else marks[k])
  }

  // Seconds of the window spent down because of a down event that is no longer stored.
  function MissedSeconds(marks: seq<Mark>, kept: seq<bool>, start: Time, end: Time): nat
    requires |kept| == |marks|
  {
    MarkedSeconds(Masked(marks, kept), start, end)
  }

  // What the query counts too much: for every stored down the time from the end of its
  // outage, by whatever event, to the stored `up` that directly follows it among the
  // stored transitions, or else to the end of the window.
  function Stale(marks: seq<Mark>, kept: seq<bool>, start: Time, end: Time): int
    requires |kept| == |marks|
  {
    if |marks| == 0 then 0
    else
      var n := |marks| - 1;
      var q, p := marks[..n], marks[n];
      Stale(q, kept[..n], start, end) +
      if p.at >= end then 0
      else (if !p.typ.DownEvent? && DownNow(q) && kept[n - 1] then Tail(p.at, start, end) else 0) -
           if p.typ.UpEvent? && kept[n] && DownNow(KeptTransitions(q, kept[..n], end)) then Tail(p.at, start, end) else 0
  }

  lemma {:induction false} KeptNoLater(marks: seq<Mark>, kept: seq<bool>, end: Time)
    requires |kept| == |marks|
    ensures forall p :: p in KeptTransitions(marks, kept, end) ==> p in marks
  {
    if |marks| > 0 { KeptNoLater(marks[..|marks| - 1], kept[..|marks| - 1], end); }
  }

  // What one more mark does to the missed seconds, and to the down seconds.
  lemma MissedAppend(q: seq<Mark>, kept: seq<bool>, p: Mark, b: bool, start: Time, end: Time)
    requires |kept| == |q| && start <= end && forall k :: 0 <= k < |q| ==> q[k].at < p.at
    ensures var tail := if p.at < end then Tail(p.at, start, end) else 0;
            MissedSeconds(q + [p], kept + [b], start, end) - MissedSeconds(q, kept, start, end) ==
            (if p.typ.DownEvent? && !b then tail else 0) - if DownNow(q) && !kept[|q| - 1] then tail else 0
  {
    var m := if b && p.typ.DownEvent? then Mark(p.at, ResumeEvent) else p;
    assert Masked(q + [p], kept + [b]) == Masked(q, kept) + [m];
    SecondsAppend(Masked(q, kept), m, start, end);
  }

  lemma SecondsAppend(q: seq<Mark>, p: Mark, start: Time, end: Time)
    requires start <= end && forall k :: 0 <= k < |q| ==> q[k].at < p.at
    ensures var tail := if p.at < end then Tail(p.at, start, end) else 0;
            MarkedSeconds(q + [p], start, end) - MarkedSeconds(q, start, end) ==
            (if p.typ.DownEvent? then tail else 0) - if DownNow(q) then tail else 0
  {
    AppendMarkSeconds(q, p, start, end);
  }

  // What one more mark does to the query.
  lemma QueryAppend(q: seq<Mark>, kept: seq<bool>, p: Mark, b: bool, start: Time, end: Time)
    requires |kept| == |q| && start <= end && forall k :: 0 <= k < |q| ==> q[k].at < p.at
    ensures var t := KeptTransitions(q, kept, end);
            var u := KeptTransitions(q + [p], kept + [b], end);
            SumOutages(u, |u|, start, end) - SumOutages(t, |t|, start, end) ==
            if !b || p.at >= end then 0
            else if p.typ.DownEvent? then Tail(p.at, start, end)
            else if p.typ.UpEvent? && DownNow(t) then -Tail(p.at, start, end) else 0
  {
    var t := KeptTransitions(q, kept, end);
    KeptAppend(q, kept, p, b, end);
    if b && IsTransition(p.typ) && p.at < end {
      KeptNoLater(q, kept, end);
      assert |t| > 0 ==> t[|t| - 1] in q;
      AppendTransition(t, p, start, end);
    } else {
      assert t + [] == t;
    }
  }

  // What one more mark does to the stale seconds.
  lemma StaleAppend(q: seq<Mark>, kept: seq<bool>, p: Mark, b: bool, start: Time, end: Time)
    requires |kept| == |q|
    ensures Stale(q + [p], kept + [b], start, end) - Stale(q, kept, start, end) ==
            if p.at >= end then 0
            else (if !p.typ.DownEvent? && DownNow(q) && kept[|q| - 1] then Tail(p.at, start, end) else 0) -
                 if p.typ.UpEvent? && b && DownNow(KeptTransitions(q, kept, end)) then Tail(p.at, start, end) else 0
  {
    assert (q + [p])[..|q|] == q && (kept + [b])[..|kept|] == kept;
  }

  predicate QueryAccounts(marks: seq<Mark>, kept: seq<bool>, start: Time, end: Time)
    requires |kept| == |marks|
  {
    SumOutages(KeptTransitions(marks, kept, end), |KeptTransitions(marks, kept, end)|, start, end) ==
    MarkedSeconds(marks, start, end) - MissedSeconds(marks, kept, start, end) + Stale(marks, kept, start, end)
  }

  lemma AccountsAppend(q: seq<Mark>, kept: seq<bool>, p: Mark, b: bool, start: Time, end: Time)
    requires |kept| == |q| && start <= end && QueryAccounts(q, kept, start, end)
    requires IsMark(p.typ) && (p.typ.UpEvent? ==> DownNow(q)) && (p.typ.DownEvent? ==> !DownNow(q))
    requires forall k :: 0 <= k < |q| ==> q[k].at < p.at
    ensures QueryAccounts(q + [p], kept + [b], start, end)
  {
    SecondsAppend(q, p, start, end);
    MissedAppend(q, kept, p, b, start, end);
    QueryAppend(q, kept, p, b, start, end);
    StaleAppend(q, kept, p, b, start, end);
  }

  // On any alternating log and any stored part of it, the query reports the down seconds
  // without the missed ones, and the stale ones on top.
  lemma {:induction false} QueryIsSecondsLessMissedPlusStale(marks: seq<Mark>, kept: seq<bool>, start: Time, end: Time)
    requires |kept| == |marks| && Alternating(marks) && Increasing(marks) && start <= end
    ensures SumOutages(KeptTransitions(marks, kept, end), |KeptTransitions(marks, kept, end)|, start, end) ==
            MarkedSeconds(marks, start, end) - MissedSeconds(marks, kept, start, end) + Stale(marks, kept, start, end)
  {
    if |marks| == 0 {
      ConstantSeconds(marks, false, start, end);
      ConstantSeconds(Masked(marks, kept), false, start, end);
    } else {
      var n := |marks| - 1;
      AlternatingPrefix(marks, n);
      assert Follows(marks, n);
      QueryIsSecondsLessMissedPlusStale(marks[..n], kept[..n], start, end);
      AccountsAppend(marks[..n], kept[..n], marks[n], kept[n], start, end);
      assert marks == marks[..n] + [marks[n]] && kept == kept[..n] + [kept[n]];
    }
  }

  // Nothing is counted too little on account of stored events; and while the query still
  // holds an ended outage open, it has counted at least the time since.
  lemma {:induction false} StaleAtLeast(marks: seq<Mark>, kept: seq<bool>, start: Time, end: Time, x: Time)
    requires |kept| == |marks| && Alternating(marks) && Increasing(marks) && start <= end
    requires |marks| > 0 ==> marks[|marks| - 1].at <= x
    ensures Stale(marks, kept, start, end) >= 0
    ensures DownNow(KeptTransitions(marks, kept, end)) && !(DownNow(marks) && kept[|marks| - 1]) ==>
              Stale(marks, kept, start, end) >= Tail(x, start, end)
  {
    if |marks| > 0 {
      var n := |marks| - 1;
      AlternatingPrefix(marks, n);
      assert Follows(marks, n);
      StaleAtLeast(marks[..n], kept[..n], start, end, marks[n].at);
      assert KeptTransitions(marks[..n], kept[..n], end) + [] == KeptTransitions(marks[..n], kept[..n], end);
      LastKept(marks[..n], kept[..n], end);
    }
  }

  lemma LastKept(marks: seq<Mark>, kept: seq<bool>, end: Time)
    requires |kept| == |marks|
    ensures DownNow(marks) && kept[|marks| - 1] && marks[|marks| - 1].at < end ==> DownNow(KeptTransitions(marks, kept, end))
  {
  }

  // ------------------------------------------------------------------- kept suffixes

  // Among the downs and ups before `end`, exactly those from mark n on are stored.
  predicate KeptFrom(marks: seq<Mark>, kept: seq<bool>, n: nat, end: Time)
    requires |kept| == |marks|
  {
    n <= |marks| && forall k :: 0 <= k < |marks| ==> KeptAt(marks, kept, k, n, end)
  }

  predicate KeptAt(marks: seq<Mark>, kept: seq<bool>, k: nat, n: nat, end: Time)
    requires k < |kept| == |marks|
  {
    IsTransition(marks[k].typ) && marks[k].at < end ==> (kept[k] <==> k >= n)
  }

  // When the first kept mark of the window's past was made, or the window's end.
  function FirstKept(marks: seq<Mark>, n: nat, end: Time): (x: Time)
    requires n <= |marks|
    ensures x <= end
  {
    if n < |marks| && marks[n].at < end then marks[n].at else end
  }

  lemma FrontKeptFrom(marks: seq<Mark>, kept: seq<bool>, n: nat, end: Time)
    requires |kept| == |marks| > 0 && KeptFrom(marks, kept, n, end)
    ensures KeptFrom(marks[..|marks| - 1], kept[..|marks| - 1], if n < |marks| then n else |marks| - 1, end)
  {
    var l := |marks| - 1;
    var m := if n < |marks| then n else l;
    forall k | 0 <= k < l
      ensures KeptAt(marks[..l], kept[..l], k, m, end)
    {
      assert KeptAt(marks, kept, k, n, end);
    }
  }

  // A second is missed exactly when it is down and lies before the first kept mark.
  lemma {:induction false} MissedBeforeFirstKept(marks: seq<Mark>, kept: seq<bool>, n: nat, end: Time, x: Time)
    requires |kept| == |marks| && Increasing(marks) && KeptFrom(marks, kept, n, end) && x < end
    ensures MarkedDownAt(Masked(marks, kept), x) <==> MarkedDownAt(marks, x) && x < FirstKept(marks, n, end)
  {
    if |marks| > 0 {
      var l := |marks| - 1;
      assert KeptAt(marks, kept, l, n, end);
      if marks[l].at > x {
        FrontKeptFrom(marks, kept, n, end);
        MissedBeforeFirstKept(marks[..l], kept[..l], if n < |marks| then n else l, end, x);
        assert Masked(marks, kept)[..l] == Masked(marks[..l], kept[..l]);
      }
    }
  }

  // The last mark adds to the stale seconds what it adds to the overcount: nothing before
  // mark n, and from there on the time since a resume of a down monitor.
  lemma StaleOfLast(marks: seq<Mark>, kept: seq<bool>, n: nat, start: Time, end: Time)
    requires |kept| == |marks| > 0 && Alternating(marks) && Increasing(marks) && KeptFrom(marks, kept, n, end)
    ensures var l := |marks| - 1;
            Stale(marks, kept, start, end) - Stale(marks[..l], kept[..l], start, end) ==
            if n < l && marks[l].typ.ResumeEvent? && DownNow(marks[..l]) && marks[l].at < end then Tail(marks[l].at, start, end) else 0
  {
    var l := |marks| - 1;
    assert Follows(marks, l) && KeptAt(marks, kept, l, n, end);
    if l > 0 { assert KeptAt(marks, kept, l - 1, n, end); }
    LastKept(marks[..l], kept[..l], end);
    FrontKeptFrom(marks, kept, n, end);
    if n >= l { NoneKept(marks[..l], kept[..l], end); }
  }

  lemma OvercountOfLast(marks: seq<Mark>, n: nat, start: Time, end: Time)
    requires n < |marks|
    ensures var l := |marks| - 1;
            Overcount(marks[n..], start, end) - Overcount(marks[..l][n..], start, end) ==
            if n < l && marks[l].typ.ResumeEvent? && DownNow(marks[..l]) && marks[l].at < end then Tail(marks[l].at, start, end) else 0
  {
    var l := |marks| - 1;
    assert marks[n..][..l - n] == marks[..l][n..];
  }

  // What the query counts too much over a kept suffix is the overcount of the resumed
  // outages whose down is kept.
  lemma {:induction false} StaleOfSuffix(marks: seq<Mark>, kept: seq<bool>, n: nat, start: Time, end: Time)
    requires |kept| == |marks| && Alternating(marks) && Increasing(marks) && KeptFrom(marks, kept, n, end)
    ensures Stale(marks, kept, start, end) == Overcount(marks[n..], start, end)
  {
    if |marks| > 0 {
      var l := |marks| - 1;
      AlternatingPrefix(marks, l);
      FrontKeptFrom(marks, kept, n, end);
      StaleOfSuffix(marks[..l], kept[..l], if n <= l then n else l, start, end);
      StaleOfLast(marks, kept, n, start, end);
      if n <= l { OvercountOfLast(marks, n, start, end); }
    }
  }

  lemma {:induction false} NoneKept(marks: seq<Mark>, kept: seq<bool>, end: Time)
    requires |kept| == |marks| && KeptFrom(marks, kept, |marks|, end)
    ensures KeptTransitions(marks, kept, end) == []
  {
    if |marks| > 0 {
      assert KeptAt(marks, kept, |marks| - 1, |marks|, end);
      FrontKeptFrom(marks, kept, |marks|, end);
      NoneKept(marks[..|marks| - 1], kept[..|marks| - 1], end);
    }
  }

  // The query's transitions over a kept suffix.
  lemma {:induction false} TransitionsOfSuffix(marks: seq<Mark>, kept: seq<bool>, n: nat, end: Time)
    requires |kept| == |marks| && KeptFrom(marks, kept, n, end)
    ensures KeptTransitions(marks, kept, end) == Transitions(marks[n..], end)
    decreases |marks|
  {
    if n == |marks| {
      NoneKept(marks, kept, end);
    } else {
      var l := |marks| - 1;
      FrontKeptFrom(marks, kept, n, end);
      TransitionsOfSuffix(marks[..l], kept[..l], n, end);
      assert KeptAt(marks, kept, l, n, end);
      assert marks[n..][..l - n] == marks[..l][n..];
    }
  }

  // --------------------------------------------------------------------- end to end

  function Kept(w: World, i: nat): (kept: seq<bool>)
    ensures |kept| == |MarksOf(w.log, i)|
  {
    KeptOf(w.log, w.pruned, i)
  }

  // Seconds of the window that monitor i was down because of a down event that is no
  // longer stored.
  function Missed(w: World, i: nat, start: Time, end: Time): nat {
    MissedSeconds(MarksOf(w.log, i), Kept(w, i), start, end)
  }

  function Overcounted(w: World, i: nat, start: Time, end: Time): int {
    Stale(MarksOf(w.log, i), Kept(w, i), start, end)
  }

  // In every run, whatever was pruned: the query's downtime for a window is the number of
  // seconds the state column was `down`, less those of downs no longer stored, plus the
  // time that stored downs count beyond the end of their outage.
  lemma RollupIsDownSecondsLessMissedPlusOvercounted(cal: Calendar, ws: seq<World>, steps: seq<Step>, k: nat, i: nat, start: Time, end: Time)
    requires Run(cal, ws, steps) && k < |ws| && Trackable(ws[k], i) && start <= end
    ensures RollupDowntime(ws[k].db.events, i, start, end) ==
            DownSeconds(ws[k].past[i].entries, start, end) - Missed(ws[k], i, start, end) + Overcounted(ws[k], i, start, end)
    ensures Missed(ws[k], i, start, end) <= DownSeconds(ws[k].past[i].entries, start, end)
    ensures Overcounted(ws[k], i, start, end) >= 0
  {
    var w := ws[k];
    RunIsSound(cal, ws, steps, k);
    RunKeepsLog(cal, ws, steps, k);
    var entries, marks, kept := w.past[i].entries, MarksOf(w.log, i), Kept(w, i);
    assert Consistent(cal, w.db.monitors[i], w.past[i]) && marks == Marks(entries);
    StoredTransitions(w.log, w.pruned, i, end);
    QueryIsSecondsLessMissedPlusStale(marks, kept, start, end);
    SecondsFollowMarks(entries, start, end);
    MissedAreDown(marks, kept, start, end);
    StaleAtLeast(marks, kept, start, end, if |marks| > 0 then marks[|marks| - 1].at else 0);
  }

  lemma {:induction false} MissedIsDown(marks: seq<Mark>, kept: seq<bool>, x: Time)
    requires |kept| == |marks| && MarkedDownAt(Masked(marks, kept), x)
    ensures MarkedDownAt(marks, x)
  {
    var l := |marks| - 1;
    if marks[l].at > x {
      assert Masked(marks, kept)[..l] == Masked(marks[..l], kept[..l]);
      MissedIsDown(marks[..l], kept[..l], x);
    }
  }

  lemma {:induction false} MissedAreDown(marks: seq<Mark>, kept: seq<bool>, start: Time, end: Time)
    requires |kept| == |marks|
    ensures MissedSeconds(marks, kept, start, end) <= MarkedSeconds(marks, start, end)
    decreases end - start
  {
    if start < end {
      if MarkedDownAt(Masked(marks, kept), start) { MissedIsDown(marks, kept, start); }
      MissedAreDown(marks, kept, start + 1, end);
    }
  }

  // The monitor's stored downs and ups before `end` are those of its log from mark n on.
  predicate StoredFrom(w: World, i: nat, n: nat, end: Time) {
    KeptFrom(MarksOf(w.log, i), Kept(w, i), n, end)
  }

  ghost predicate DownWithin(entries: seq<Entry>, start: Time, stop: Time) {
    exists x :: start <= x < stop && DownAt(entries, x)
  }

  // Some second of the window was down before the first kept mark: the event that opened
  // its outage is gone.
  ghost predicate DownBeforeKept(w: World, i: nat, n: nat, start: Time, end: Time)
    requires i < |w.past| && n <= |MarksOf(w.log, i)|
  {
    DownWithin(w.past[i].entries, start, FirstKept(MarksOf(w.log, i), n, end))
  }

  lemma {:induction false} PositiveSeconds(entries: seq<Entry>, start: Time, stop: Time)
    ensures DownSeconds(entries, start, stop) > 0 <==> DownWithin(entries, start, stop)
    decreases stop - start
  {
    if start < stop {
      PositiveSeconds(entries, start + 1, stop);
      if DownWithin(entries, start, stop) {
        var x :| start <= x < stop && DownAt(entries, x);
        if x > start { assert DownWithin(entries, start + 1, stop); }
      }
      if DownWithin(entries, start + 1, stop) {
        var x :| start + 1 <= x < stop && DownAt(entries, x);
        assert start <= x;
      }
    }
  }

  // With a suffix kept, what is missed is what was down before the first kept mark.
  lemma {:induction false} MissedAreDownBefore(entries: seq<Entry>, marks: seq<Mark>, kept: seq<bool>, n: nat, start: Time, end: Time)
    requires Agrees(entries) && InOrder(entries) && marks == Marks(entries)
    requires |kept| == |marks| && KeptFrom(marks, kept, n, end)
    ensures MissedSeconds(marks, kept, start, end) == DownSeconds(entries, start, FirstKept(marks, n, end))
    decreases end - start
  {
    if start < end {
      MissedAreDownBefore(entries, marks, kept, n, start + 1, end);
      MissedBeforeFirstKept(marks, kept, n, end, start);
      StateFollowsMarks(entries, start);
    }
  }

  // The seconds before the first kept mark that were down.
  function SecondsBeforeKept(w: World, i: nat, n: nat, start: Time, end: Time): nat
    requires i < |w.past| && n <= |MarksOf(w.log, i)|
  {
    DownSeconds(w.past[i].entries, start, FirstKept(MarksOf(w.log, i), n, end))
  }

  lemma MissedOfSuffix(cal: Calendar, ws: seq<World>, steps: seq<Step>, k: nat, i: nat, n: nat, start: Time, end: Time)
    requires Run(cal, ws, steps) && k < |ws| && Trackable(ws[k], i) && StoredFrom(ws[k], i, n, end)
    ensures Missed(ws[k], i, start, end) == SecondsBeforeKept(ws[k], i, n, start, end)
    ensures Missed(ws[k], i, start, end) > 0 <==> DownBeforeKept(ws[k], i, n, start, end)
    ensures Overcounted(ws[k], i, start, end) == Overcount(MarksOf(ws[k].log, i)[n..], start, end)
  {
    var w := ws[k];
    RunIsSound(cal, ws, steps, k);
    RunKeepsLog(cal, ws, steps, k);
    assert Consistent(cal, w.db.monitors[i], w.past[i]);
    MissedAreDownBefore(w.past[i].entries, MarksOf(w.log, i), Kept(w, i), n, start, end);
    PositiveSeconds(w.past[i].entries, start, FirstKept(MarksOf(w.log, i), n, end));
    StaleOfSuffix(MarksOf(w.log, i), Kept(w, i), n, start, end);
  }

  // Where retention has left a suffix: the query is the down seconds of the window, less
  // those before the first kept mark, plus the time from each kept resume of a down monitor.
  lemma RollupIsDownSecondsPlusOvercount(cal: Calendar, ws: seq<World>, steps: seq<Step>, k: nat, i: nat, n: nat, start: Time, end: Time)
    requires Run(cal, ws, steps) && k < |ws| && Trackable(ws[k], i) && StoredFrom(ws[k], i, n, end) && start <= end
    ensures RollupDowntime(ws[k].db.events, i, start, end) ==
            DownSeconds(ws[k].past[i].entries, start, end) - SecondsBeforeKept(ws[k], i, n, start, end) +
            Overcount(MarksOf(ws[k].log, i)[n..], start, end)
  {
    RollupIsDownSecondsLessMissedPlusOvercounted(cal, ws, steps, k, i, start, end);
    MissedOfSuffix(cal, ws, steps, k, i, n, start, end);
  }

  // Exactness after pruning: without a resumed outage among the kept marks the query is
  // exact exactly when no second of the window before the first kept mark was down; and
  // when none was, it is exact exactly when no kept outage was resumed before the end.
  lemma RollupExactIff(cal: Calendar, ws: seq<World>, steps: seq<Step>, k: nat, i: nat, n: nat, start: Time, end: Time)
    requires Run(cal, ws, steps) && k < |ws| && Trackable(ws[k], i) && StoredFrom(ws[k], i, n, end) && start < end
    ensures var exact := RollupDowntime(ws[k].db.events, i, start, end) == DownSeconds(ws[k].past[i].entries, start, end);
            var resumed := ResumedOutage(MarksOf(ws[k].log, i)[n..], end);
            (!resumed ==> (exact <==> !DownBeforeKept(ws[k], i, n, start, end))) &&
            (!DownBeforeKept(ws[k], i, n, start, end) ==> (exact <==> !resumed))
  {
    RollupIsDownSecondsPlusOvercount(cal, ws, steps, k, i, n, start, end);
    MissedOfSuffix(cal, ws, steps, k, i, n, start, end);
    OvercountIsResumedOutages(MarksOf(ws[k].log, i)[n..], start, end);
  }

  lemma {:induction false} NothingBeforeFirst(marks: seq<Mark>, x: Time)
    requires Increasing(marks) && |marks| > 0 && x < marks[0].at
    ensures !MarkedDownAt(marks, x)
  {
    var l := |marks| - 1;
    if l > 0 { NothingBeforeFirst(marks[..l], x); }
  }

  lemma NothingDownBefore(entries: seq<Entry>, x: Time)
    requires Agrees(entries) && InOrder(entries) && (|Marks(entries)| > 0 ==> x < Marks(entries)[0].at)
    ensures !DownAt(entries, x)
  {
    StateFollowsMarks(entries, x);
    if |Marks(entries)| > 0 { NothingBeforeFirst(Marks(entries), x); }
  }

  // With the whole log stored no second is missed.
  lemma NothingMissed(cal: Calendar, ws: seq<World>, steps: seq<Step>, k: nat, i: nat, start: Time, end: Time)
    requires Run(cal, ws, steps) && k < |ws| && Trackable(ws[k], i) && StoredFrom(ws[k], i, 0, end)
    ensures Missed(ws[k], i, start, end) == 0 == SecondsBeforeKept(ws[k], i, 0, start, end) && !DownBeforeKept(ws[k], i, 0, start, end)
  {
    var w, marks := ws[k], MarksOf(ws[k].log, i);
    MissedOfSuffix(cal, ws, steps, k, i, 0, start, end);
    if DownBeforeKept(w, i, 0, start, end) {
      RunIsSound(cal, ws, steps, k);
      RunKeepsLog(cal, ws, steps, k);
      assert Consistent(cal, w.db.monitors[i], w.past[i]);
      var x :| start <= x < FirstKept(marks, 0, end) && DownAt(w.past[i].entries, x);
      NothingDownBefore(w.past[i].entries, x);
    }
  }

  // A monitor none of whose downs and ups before the end were pruned: exact exactly when
  // no down monitor was resumed before the end.
  lemma RollupExactIffNoResumedOutage(cal: Calendar, ws: seq<World>, steps: seq<Step>, k: nat, i: nat, start: Time, end: Time)
    requires Run(cal, ws, steps) && k < |ws| && Trackable(ws[k], i) && StoredFrom(ws[k], i, 0, end) && start < end
    ensures RollupDowntime(ws[k].db.events, i, start, end) == DownSeconds(ws[k].past[i].entries, start, end)
            <==> !ResumedOutage(MarksOf(ws[k].log, i), end)
  {
    var marks := MarksOf(ws[k].log, i);
    assert marks[0..] == marks;
    NothingMissed(cal, ws, steps, k, i, start, end);
    RollupExactIff(cal, ws, steps, k, i, 0, start, end);
  }

  // Without a resumed outage among the kept marks the query never exceeds the window and
  // adds up over adjacent windows, although each query cuts the log at its own end.
  lemma RollupIsAdditive(cal: Calendar, ws: seq<World>, steps: seq<Step>, k: nat, i: nat, n: nat, start: Time, mid: Time, end: Time)
    requires Run(cal, ws, steps) && k < |ws| && Trackable(ws[k], i) && StoredFrom(ws[k], i, n, end) && start < mid < end
    requires !ResumedOutage(MarksOf(ws[k].log, i)[n..], end)
    ensures RollupDowntime(ws[k].db.events, i, start, end) ==
            RollupDowntime(ws[k].db.events, i, start, mid) + RollupDowntime(ws[k].db.events, i, mid, end)
    ensures 0 <= RollupDowntime(ws[k].db.events, i, start, end) <= end - start
  {
    var w := ws[k];
    EarlierEnd(MarksOf(w.log, i), Kept(w, i), n, mid, end);
    RollupWithoutOvercount(cal, ws, steps, k, i, n, start, end);
    RollupWithoutOvercount(cal, ws, steps, k, i, n, start, mid);
    RollupWithoutOvercount(cal, ws, steps, k, i, n, mid, end);
    DownSecondsBounded(w.past[i].entries, start, mid, end);
    SplitSeconds(Masked(MarksOf(w.log, i), Kept(w, i)), start, mid, end);
  }

  lemma EarlierEnd(marks: seq<Mark>, kept: seq<bool>, n: nat, mid: Time, end: Time)
    requires |kept| == |marks| && KeptFrom(marks, kept, n, end) && mid <= end
    ensures KeptFrom(marks, kept, n, mid)
    ensures !ResumedOutage(marks[n..], end) ==> !ResumedOutage(marks[n..], mid)
  {
    forall k | 0 <= k < |marks|
      ensures KeptAt(marks, kept, k, n, mid)
    {
      assert KeptAt(marks, kept, k, n, end);
    }
  }

  lemma RollupWithoutOvercount(cal: Calendar, ws: seq<World>, steps: seq<Step>, k: nat, i: nat, n: nat, start: Time, end: Time)
    requires Run(cal, ws, steps) && k < |ws| && Trackable(ws[k], i) && StoredFrom(ws[k], i, n, end) && start < end
    requires !ResumedOutage(MarksOf(ws[k].log, i)[n..], end)
    ensures RollupDowntime(ws[k].db.events, i, start, end) ==
            DownSeconds(ws[k].past[i].entries, start, end) - Missed(ws[k], i, start, end)
    ensures RollupDowntime(ws[k].db.events, i, start, end) >= 0
  {
    RollupIsDownSecondsPlusOvercount(cal, ws, steps, k, i, n, start, end);
    MissedOfSuffix(cal, ws, steps, k, i, n, start, end);
    RollupIsDownSecondsLessMissedPlusOvercounted(cal, ws, steps, k, i, start, end);
    OvercountIsResumedOutages(MarksOf(ws[k].log, i)[n..], start, end);
  }

  // ------------------------------------------------------------- what pruning leaves

  // Monitor i's down and up events older than the cutoff go, and no other.
  predicate PrunesAll(log: seq<Event>, pruned: set<nat>, doomed: set<nat>, i: nat, cutoff: Time) {
    forall k :: 0 <= k < |log| ==> PrunedAt(log, pruned, doomed, k, i, cutoff)
  }

  predicate PrunedAt(log: seq<Event>, pruned: set<nat>, doomed: set<nat>, k: nat, i: nat, cutoff: Time)
    requires k < |log|
  {
    log[k].monitor == i && IsTransition(log[k].typ) && log[k].id !in pruned ==> (log[k].id in doomed <==> log[k].at < cutoff)
  }

  lemma {:induction false} KeptAfterPrune(log: seq<Event>, pruned: set<nat>, doomed: set<nat>, i: nat, cutoff: Time, k: nat)
    requires PrunesAll(log, pruned, doomed, i, cutoff) && k < |MarksOf(log, i)| && IsTransition(MarksOf(log, i)[k].typ)
    ensures KeptOf(log, pruned + doomed, i)[k] <==> KeptOf(log, pruned, i)[k] && MarksOf(log, i)[k].at >= cutoff
  {
    var l := |log| - 1;
    var front, e := log[..l], log[l];
    assert PrunedAt(log, pruned, doomed, l, i, cutoff);
    if k < |MarksOf(front, i)| {
      assert PrunesAll(front, pruned, doomed, i, cutoff) by {
        forall j | 0 <= j < l ensures PrunedAt(front, pruned, doomed, j, i, cutoff) {
          assert PrunedAt(log, pruned, doomed, j, i, cutoff);
        }
      }
      KeptAfterPrune(front, pruned, doomed, i, cutoff, k);
    }
  }

  // Number of marks before the cutoff.
  function Older(marks: seq<Mark>, cutoff: Time): (n: nat)
    ensures n <= |marks|
  {
    if |marks| == 0 then 0
    else if marks[|marks| - 1].at < cutoff then |marks| else Older(marks[..|marks| - 1], cutoff)
  }

  lemma {:induction false} OlderIsPrefix(marks: seq<Mark>, cutoff: Time, k: nat)
    requires Increasing(marks) && k < |marks|
    ensures k < Older(marks, cutoff) <==> marks[k].at < cutoff
  {
    var l := |marks| - 1;
    if marks[l].at >= cutoff && k < l { OlderIsPrefix(marks[..l], cutoff, k); }
  }

  // A completed prune leaves a suffix of a monitor's downs and ups, if there was one before
  // and none of those older than the cutoff has a pending alert.
  lemma CompletedPruneLeavesSuffix(cal: Calendar, w: World, doomed: set<nat>, cutoff: Time, i: nat, n: nat, end: Time) returns (m: nat)
    requires LogOk(w) && Enabled(w, Prune(doomed, cutoff)) && StoredFrom(w, i, n, end) && Increasing(MarksOf(w.log, i))
    requires PrunesAll(w.log, w.pruned, doomed, i, cutoff)
    ensures StoredFrom(Do(cal, w, Prune(doomed, cutoff)), i, m, end)
    ensures m >= n && forall k :: n <= k < m ==> MarksOf(w.log, i)[k].at < cutoff
  {
    var marks, kept, after := MarksOf(w.log, i), Kept(w, i), KeptOf(w.log, w.pruned + doomed, i);
    var older := Older(marks, cutoff);
    m := if older > n then older else n;
    forall k | 0 <= k < |marks|
      ensures KeptAt(marks, after, k, m, end)
    {
      assert KeptAt(marks, kept, k, n, end);
      OlderIsPrefix(marks, cutoff, k);
      if IsTransition(marks[k].typ) { KeptAfterPrune(w.log, w.pruned, doomed, i, cutoff, k); }
    }
    forall k | n <= k < m
      ensures marks[k].at < cutoff
    {
      OlderIsPrefix(marks, cutoff, k);
    }
  }

  lemma {:induction false} AllKept(log: seq<Event>, i: nat)
    ensures forall k :: 0 <= k < |KeptOf(log, {}, i)| ==> KeptOf(log, {}, i)[k]
  {
    if |log| > 0 { AllKept(log[..|log| - 1], i); }
  }

  lemma NothingPruned(w: World, i: nat, end: Time)
    requires w.pruned == {}
    ensures StoredFrom(w, i, 0, end)
  {
    AllKept(w.log, i);
    forall k | 0 <= k < |MarksOf(w.log, i)|
      ensures KeptAt(MarksOf(w.log, i), Kept(w, i), k, 0, end)
    {
    }
  }
}
