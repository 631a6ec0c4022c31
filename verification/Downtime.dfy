/** The downtime rollup query and the recovery duration, against the seconds a
  * monitor's state column was `down`.
  */
module Downtime {
  import opened Model
  import opened Engine
  import opened Timeline

  // ------------------------------------------------------ the state column, by second

  // Whether the state left by the last transaction at or before second x is `down`.
  predicate DownAt(entries: seq<Entry>, x: Time) {
    |entries| > 0 &&
    var last := entries[|entries| - 1];
    if last.at <= x then last.state.Down? else DownAt(entries[..|entries| - 1], x)
  }

  // Seconds of [start, end) during which the state was `down`.
  function DownSeconds(entries: seq<Entry>, start: Time, end: Time): nat
    decreases end - start
  {
    if start >= end then 0
    else (if DownAt(entries, start) then 1 else 0) + DownSeconds(entries, start + 1, end)
  }

  // Event times strictly increase per monitor; transactions are in time order.
  predicate Increasing(marks: seq<Mark>) {
    forall j, k :: 0 <= j < k < |marks| ==> marks[j].at < marks[k].at
  }

  predicate InOrder(entries: seq<Entry>) {
    (forall j, k :: 0 <= j < k < |entries| ==> entries[j].at <= entries[k].at) && Increasing(Marks(entries))
  }

  // ------------------------------------------------------------- the rollup query

  predicate IsTransition(t: EventType) {
    t.DownEvent? || t.UpEvent?
  }

  // The `transitions` rows of one monitor: its down and up events before the window's end.
  function TransitionsOf(events: seq<Event>, i: nat, end: Time): seq<Mark> {
    if |events| == 0 then []
    else
      var e := events[|events| - 1];
      TransitionsOf(events[..|events| - 1], i, end) +
      if e.monitor == i && IsTransition(e.typ) && e.at < end then [Mark(e.at, e.typ)] else []
  }

  // LEAD: the next transition closes the outage if it is an `up`, else it stays open to the end.
  function ResolvedAt(t: seq<Mark>, k: nat, end: Time): Time {
    if k + 1 < |t| && t[k + 1].typ.UpEvent? then t[k + 1].at else end
  }

  function Max(a: int, b: int): int { if a >= b then a else b }

  function Min(a: int, b: int): int { if a <= b then a else b }

  // One outage clamped to the window; the WHERE clause drops outages outside it.
  function Overlap(downAt: Time, resolvedAt: Time, start: Time, end: Time): int {
    if resolvedAt > start && downAt < end then Max(0, Min(resolvedAt, end) - Max(downAt, start)) else 0
  }

  function Contribution(t: seq<Mark>, k: nat, start: Time, end: Time): int
    requires k < |t|
  {
    if t[k].typ.DownEvent? then Overlap(t[k].at, ResolvedAt(t, k, end), start, end) else 0
  }

  // SUM over the first n transitions.
  function SumOutages(t: seq<Mark>, n: nat, start: Time, end: Time): int
    requires n <= |t|
  {
    if n == 0 then 0 else SumOutages(t, n - 1, start, end) + Contribution(t, n - 1, start, end)
  }

  function RollupDowntime(events: seq<Event>, i: nat, start: Time, end: Time): int {
    var t := TransitionsOf(events, i, end);
    SumOutages(t, |t|, start, end)
  }

  // ------------------------------------------------------------------ marks, by second

  predicate MarkedDownAt(marks: seq<Mark>, x: Time) {
    |marks| > 0 &&
    var last := marks[|marks| - 1];
    if last.at <= x then last.typ.DownEvent? else MarkedDownAt(marks[..|marks| - 1], x)
  }

  lemma {:induction false} MarksInTime(emits: seq<EventType>, at: Time)
    ensures forall k :: 0 <= k < |MarksIn(emits, at)| ==> MarksIn(emits, at)[k].at == at
  {
    if |emits| > 0 { MarksInTime(emits[1..], at); }
  }

  lemma {:induction false} MarksNoLater(entries: seq<Entry>, bound: Time)
    requires forall k :: 0 <= k < |entries| ==> entries[k].at <= bound
    ensures forall k :: 0 <= k < |Marks(entries)| ==> Marks(entries)[k].at <= bound
  {
    if |entries| > 0 {
      MarksNoLater(entries[..|entries| - 1], bound);
      MarksInTime(entries[|entries| - 1].emits, entries[|entries| - 1].at);
    }
  }

  lemma {:induction false} DropLaterMarks(marks: seq<Mark>, more: seq<Mark>, x: Time)
    requires forall k :: 0 <= k < |more| ==> more[k].at > x
    ensures MarkedDownAt(marks + more, x) == MarkedDownAt(marks, x)
  {
    if |more| == 0 {
      assert marks + more == marks;
    } else {
      assert (marks + more)[..|marks + more| - 1] == marks + more[..|more| - 1];
      DropLaterMarks(marks, more[..|more| - 1], x);
    }
  }

  lemma AllMarksCount(marks: seq<Mark>, x: Time)
    requires forall k :: 0 <= k < |marks| ==> marks[k].at <= x
    ensures MarkedDownAt(marks, x) == DownNow(marks)
  {
  }

  // The state column and the marks agree on every second.
  lemma {:induction false} StateFollowsMarks(entries: seq<Entry>, x: Time)
    requires Agrees(entries) && forall j, k :: 0 <= j < k < |entries| ==> entries[j].at <= entries[k].at
    ensures DownAt(entries, x) == MarkedDownAt(Marks(entries), x)
  {
    if |entries| > 0 {
      var front, last := entries[..|entries| - 1], entries[|entries| - 1];
      if last.at <= x {
        MarksNoLater(entries, x);
        AllMarksCount(Marks(entries), x);
      } else {
        MarksInTime(last.emits, last.at);
        DropLaterMarks(Marks(front), MarksIn(last.emits, last.at), x);
        StateFollowsMarks(front, x);
      }
    }
  }

  // Seconds of [start, end) whose latest mark is a `down`.
  function MarkedSeconds(marks: seq<Mark>, start: Time, end: Time): nat
    decreases end - start
  {
    if start >= end then 0
    else (if MarkedDownAt(marks, start) then 1 else 0) + MarkedSeconds(marks, start + 1, end)
  }

  lemma {:induction false} SecondsFollowMarks(entries: seq<Entry>, start: Time, end: Time)
    requires Agrees(entries) && InOrder(entries)
    ensures DownSeconds(entries, start, end) == MarkedSeconds(Marks(entries), start, end)
    decreases end - start
  {
    if start < end {
      StateFollowsMarks(entries, start);
      SecondsFollowMarks(entries, start + 1, end);
    }
  }

  lemma {:induction false} SplitSeconds(marks: seq<Mark>, start: Time, mid: Time, end: Time)
    requires start <= mid <= end
    ensures MarkedSeconds(marks, start, end) == MarkedSeconds(marks, start, mid) + MarkedSeconds(marks, mid, end)
    decreases mid - start
  {
    if start < mid { SplitSeconds(marks, start + 1, mid, end); }
  }

  lemma {:induction false} SameSeconds(a: seq<Mark>, b: seq<Mark>, start: Time, end: Time)
    requires forall x :: start <= x < end ==> MarkedDownAt(a, x) == MarkedDownAt(b, x)
    ensures MarkedSeconds(a, start, end) == MarkedSeconds(b, start, end)
    decreases end - start
  {
    if start < end { SameSeconds(a, b, start + 1, end); }
  }

  lemma {:induction false} ConstantSeconds(marks: seq<Mark>, down: bool, start: Time, end: Time)
    requires start <= end && forall x :: start <= x < end ==> MarkedDownAt(marks, x) == down
    ensures MarkedSeconds(marks, start, end) == if down then end - start else 0
    decreases end - start
  {
    if start < end { ConstantSeconds(marks, down, start + 1, end); }
  }

  // Seconds from x to the window's end.
  function Tail(x: Time, start: Time, end: Time): int { end - Max(start, x) }

  // What one more mark, later than all others, does to the down seconds of a window.
  lemma AppendMarkSeconds(q: seq<Mark>, p: Mark, start: Time, end: Time)
    requires start <= end && forall k :: 0 <= k < |q| ==> q[k].at < p.at
    ensures p.at >= end ==> MarkedSeconds(q + [p], start, end) == MarkedSeconds(q, start, end)
    ensures p.at < end ==> MarkedSeconds(q + [p], start, end) - MarkedSeconds(q, start, end) ==
                           Tail(p.at, start, end) * ((if p.typ.DownEvent? then 1 else 0) - if DownNow(q) then 1 else 0)
  {
    var mid := Max(start, Min(p.at, end));
    forall x | x < p.at
      ensures MarkedDownAt(q + [p], x) == MarkedDownAt(q, x)
    {
      DropLaterMarks(q, [p], x);
    }
    SplitSeconds(q + [p], start, mid, end);
    SplitSeconds(q, start, mid, end);
    SameSeconds(q + [p], q, start, Min(mid, p.at));
    if p.at < end {
      if start < p.at { SameSeconds(q + [p], q, start, mid); }
      forall x | p.at <= x
        ensures MarkedDownAt(q + [p], x) == p.typ.DownEvent? && MarkedDownAt(q, x) == DownNow(q)
      {
        AllMarksCount(q, x);
      }
      ConstantSeconds(q + [p], p.typ.DownEvent?, mid, end);
      ConstantSeconds(q, DownNow(q), mid, end);
    } else {
      SameSeconds(q + [p], q, start, end);
    }
  }

  // ------------------------------------------------------------ the query, by marks

  // The query's transitions, computed from the marks.
  function Transitions(marks: seq<Mark>, end: Time): seq<Mark> {
    if |marks| == 0 then []
    else
      var p := marks[|marks| - 1];
      Transitions(marks[..|marks| - 1], end) + if IsTransition(p.typ) && p.at < end then [p] else []
  }

  lemma {:induction false} SumOfPrefix(t: seq<Mark>, p: Mark, n: nat, start: Time, end: Time)
    requires n < |t| || n == 0
    ensures SumOutages(t + [p], n, start, end) == SumOutages(t, n, start, end)
  {
    if n > 0 { SumOfPrefix(t, p, n - 1, start, end); }
  }

  // What one more transition does to the query's sum: an `up` closes an outage only
  // directly after its `down`.
  lemma AppendTransition(t: seq<Mark>, p: Mark, start: Time, end: Time)
    requires start <= end && p.at < end && IsTransition(p.typ) && (|t| > 0 ==> t[|t| - 1].at < p.at)
    ensures SumOutages(t + [p], |t| + 1, start, end) - SumOutages(t, |t|, start, end) ==
            if p.typ.DownEvent? then Tail(p.at, start, end) else if DownNow(t) then -Tail(p.at, start, end) else 0
  {
    var n := |t|;
    if n > 0 { SumOfPrefix(t, p, n - 1, start, end); }
  }

  // Seconds from each resume of a down monitor to the end of the window: the outage
  // is over, but the query sees no `up` event.
  function Overcount(marks: seq<Mark>, start: Time, end: Time): int {
    if |marks| == 0 then 0
    else
      var n := |marks| - 1;
      Overcount(marks[..n], start, end) +
      if marks[n].typ.ResumeEvent? && DownNow(marks[..n]) && marks[n].at < end then Tail(marks[n].at, start, end) else 0
  }

  lemma {:induction false} LastTransition(q: seq<Mark>, end: Time)
    requires |q| > 0 && q[|q| - 1].at < end && Increasing(q)
    ensures IsTransition(q[|q| - 1].typ) ==> |Transitions(q, end)| > 0 &&
                                              Transitions(q, end)[|Transitions(q, end)| - 1] == q[|q| - 1]
    ensures forall k :: 0 <= k < |Transitions(q, end)| ==> Transitions(q, end)[k].at <= q[|q| - 1].at
  {
    var front := q[..|q| - 1];
    if |front| > 0 { LastTransition(front, end); }
  }

  lemma AlternatingPrefix(marks: seq<Mark>, n: nat)
    requires Alternating(marks) && n <= |marks|
    ensures Alternating(marks[..n])
  {
    forall k | 0 <= k < n
      ensures Follows(marks[..n], k)
    {
      assert Follows(marks, k);
    }
  }

  // The query reports the true down seconds plus the overcount, on any alternating log.
  lemma {:induction false} QueryIsSecondsPlusOvercount(marks: seq<Mark>, start: Time, end: Time)
    requires Alternating(marks) && Increasing(marks) && start <= end
    ensures SumOutages(Transitions(marks, end), |Transitions(marks, end)|, start, end) ==
            MarkedSeconds(marks, start, end) + Overcount(marks, start, end)
  {
    if |marks| == 0 {
      ConstantSeconds(marks, false, start, end);
    } else {
      var n := |marks| - 1;
      var q, p := marks[..n], marks[n];
      assert marks == q + [p];
      AlternatingPrefix(marks, n);
      assert Follows(marks, n);
      QueryIsSecondsPlusOvercount(q, start, end);
      AppendMarkSeconds(q, p, start, end);
      if p.at < end && IsTransition(p.typ) {
        if n > 0 { LastTransition(q, end); }
        AppendTransition(Transitions(q, end), p, start, end);
      } else {
        assert Transitions(q, end) + [] == Transitions(q, end);
      }
    }
  }

  predicate ResumesOutage(marks: seq<Mark>, j: nat)
    requires 0 < j < |marks|
  {
    marks[j].typ.ResumeEvent? && marks[j - 1].typ.DownEvent?
  }

  // A down monitor was resumed before `end`.
  ghost predicate ResumedOutage(marks: seq<Mark>, end: Time) {
    exists k :: 0 < k < |marks| && ResumesOutage(marks, k) && marks[k].at < end
  }

  lemma {:induction false} OvercountIsResumedOutages(marks: seq<Mark>, start: Time, end: Time)
    requires start < end
    ensures Overcount(marks, start, end) >= 0
    ensures Overcount(marks, start, end) > 0 <==> ResumedOutage(marks, end)
  {
    if |marks| > 0 {
      var n := |marks| - 1;
      var q := marks[..n];
      OvercountIsResumedOutages(q, start, end);
      if marks[n].typ.ResumeEvent? && DownNow(q) { assert ResumesOutage(marks, n); }
      if ResumedOutage(q, end) {
        var k :| 0 < k < |q| && ResumesOutage(q, k) && q[k].at < end;
        assert ResumesOutage(marks, k);
      }
      if ResumedOutage(marks, end) {
        var k :| 0 < k < |marks| && ResumesOutage(marks, k) && marks[k].at < end;
        if k < n { assert ResumesOutage(q, k); }
      }
    }
  }

  lemma {:induction false} DownSecondsBounded(entries: seq<Entry>, start: Time, mid: Time, end: Time)
    requires start <= mid <= end
    ensures DownSeconds(entries, start, end) <= end - start
    ensures DownSeconds(entries, start, end) == DownSeconds(entries, start, mid) + DownSeconds(entries, mid, end)
    decreases end - start
  {
    if start < mid {
      DownSecondsBounded(entries, start + 1, mid, end);
    } else if start < end {
      DownSecondsBounded(entries, start + 1, start + 1, end);
    }
  }

  // A monitor whose history is serialized and in time order.
  ghost predicate Trackable(w: World, i: nat) {
    i < |w.past| && w.past[i].serial && InOrder(w.past[i].entries)
  }
}
