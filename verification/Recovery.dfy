/** The recovery duration and the event a reminder refers to, against the outage itself. */
module Recovery {
  import opened Model
  import opened Schedule
  import opened Outbox
  import opened Engine
  import opened Timeline
  import opened Locks
  import opened Log
  import opened Downtime

  predicate IsMarkOf(e: Event, i: nat) {
    e.monitor == i && IsMark(e.typ)
  }

  lemma {:induction false} MarksPrefix(log: seq<Event>, i: nat, n: nat)
    requires n <= |log|
    ensures MarksOf(log[..n], i) <= MarksOf(log, i)
    decreases |log|
  {
    if n < |log| {
      MarksPrefix(log[..|log| - 1], i, n);
      assert log[..|log| - 1][..n] == log[..n];
    } else {
      assert log[..n] == log;
    }
  }

  // The last mark of a log, as the event that made it.
  lemma {:induction false} LastMarkEvent(log: seq<Event>, i: nat) returns (a: nat)
    requires |MarksOf(log, i)| > 0
    ensures a < |log| && IsMarkOf(log[a], i)
    ensures MarksOf(log, i) == MarksOf(log[..a], i) + [Mark(log[a].at, log[a].typ)]
    ensures forall k :: a < k < |log| ==> !IsMarkOf(log[k], i)
  {
    var n := |log| - 1;
    if IsMarkOf(log[n], i) {
      a := n;
    } else {
      a := LastMarkEvent(log[..n], i);
      assert log[..n][..a] == log[..a];
      assert MarksOf(log[..n], i) + [] == MarksOf(log[..n], i);
    }
  }

  // Where the mark of a log position stands among the marks.
  lemma MarkPosition(log: seq<Event>, i: nat, a: nat)
    requires a < |log| && IsMarkOf(log[a], i)
    ensures |MarksOf(log[..a], i)| < |MarksOf(log[..a + 1], i)| <= |MarksOf(log, i)|
    ensures MarksOf(log, i)[|MarksOf(log[..a], i)|] == Mark(log[a].at, log[a].typ)
  {
    assert log[..a + 1][..a] == log[..a];
    MarksPrefix(log, i, a + 1);
  }

  // Marks of one monitor at different log positions have different times.
  lemma MarksInLogOrder(log: seq<Event>, i: nat, a: nat, b: nat)
    requires Increasing(MarksOf(log, i)) && a < b < |log| && IsMarkOf(log[a], i) && IsMarkOf(log[b], i)
    ensures log[a].at < log[b].at
  {
    MarkPosition(log, i, a);
    MarkPosition(log, i, b);
    MarksPrefix(log[..b], i, a + 1);
    assert log[..b][..a + 1] == log[..a + 1];
  }

  // Between two consecutive marks the earlier one decides.
  lemma {:induction false} MarkInForce(marks: seq<Mark>, n: nat, x: Time)
    requires Increasing(marks) && n <= |marks|
    requires n > 0 ==> marks[n - 1].at <= x
    requires n < |marks| ==> x < marks[n].at
    ensures MarkedDownAt(marks, x) == DownNow(marks[..n])
    decreases |marks|
  {
    if n < |marks| {
      var last := |marks| - 1;
      assert marks[n].at <= marks[last].at;
      assert marks[..last][..n] == marks[..n];
      MarkInForce(marks[..last], n, x);
    } else {
      assert marks[..n] == marks;
    }
  }

  // Before an `up` event the log's last mark is a `down`.
  lemma UpFollowsDown(log: seq<Event>, i: nat, b: nat)
    requires b < |log| && IsMarkOf(log[b], i) && log[b].typ.UpEvent? && Alternating(MarksOf(log, i))
    ensures DownNow(MarksOf(log[..b], i))
    ensures MarksOf(log[..b], i) + [Mark(log[b].at, UpEvent)] <= MarksOf(log, i)
  {
    var before, marks := MarksOf(log[..b], i), MarksOf(log, i);
    assert log[..b + 1][..b] == log[..b];
    MarksPrefix(log, i, b + 1);
    var n := |before|;
    assert MarksOf(log[..b + 1], i) == before + [Mark(log[b].at, UpEvent)];
    assert marks[n] == Mark(log[b].at, UpEvent);
    assert Follows(marks, n);
  }

  // The down event that opened the outage an `up` event closes.
  lemma OpeningOf(log: seq<Event>, i: nat, b: nat) returns (a: nat)
    requires b < |log| && IsMarkOf(log[b], i) && log[b].typ.UpEvent? && Alternating(MarksOf(log, i))
    ensures a < b && IsMarkOf(log[a], i) && log[a].typ.DownEvent?
    ensures forall k :: a < k < b ==> !IsMarkOf(log[k], i)
    ensures |MarksOf(log[..a], i)| + 1 < |MarksOf(log, i)|
    ensures MarksOf(log, i)[|MarksOf(log[..a], i)|] == Mark(log[a].at, DownEvent)
    ensures MarksOf(log, i)[|MarksOf(log[..a], i)| + 1] == Mark(log[b].at, UpEvent)
  {
    UpFollowsDown(log, i, b);
    var before := log[..b];
    a := LastMarkEvent(before, i);
    assert before[..a] == log[..a];
    var q, marks := MarksOf(before, i), MarksOf(log, i);
    assert q[|q| - 1] == marks[|q| - 1];
    forall k | a < k < b
      ensures !IsMarkOf(log[k], i)
    {
      assert before[k] == log[k];
    }
  }

  // The outage [d, u) is a maximal interval with the state column down.
  predicate MaximalOutage(entries: seq<Entry>, d: Time, u: Time) {
    d < u && (forall x :: d <= x < u ==> DownAt(entries, x)) && !DownAt(entries, d - 1) && !DownAt(entries, u)
  }

  // The state column at a second between two consecutive marks.
  lemma StateBetweenMarks(entries: seq<Entry>, n: nat, x: Time)
    requires Agrees(entries) && InOrder(entries) && n <= |Marks(entries)|
    requires n > 0 ==> Marks(entries)[n - 1].at <= x
    requires n < |Marks(entries)| ==> x < Marks(entries)[n].at
    ensures DownAt(entries, x) <==> n > 0 && Marks(entries)[n - 1].typ.DownEvent?
  {
    MarkInForce(Marks(entries), n, x);
    StateFollowsMarks(entries, x);
  }

  lemma OutageIsMaximal(entries: seq<Entry>, n: nat)
    requires Agrees(entries) && InOrder(entries) && Alternating(Marks(entries)) && n + 1 < |Marks(entries)|
    requires Marks(entries)[n].typ.DownEvent? && Marks(entries)[n + 1].typ.UpEvent?
    ensures MaximalOutage(entries, Marks(entries)[n].at, Marks(entries)[n + 1].at)
  {
    var marks := Marks(entries);
    forall x | marks[n].at <= x < marks[n + 1].at
      ensures DownAt(entries, x)
    {
      StateBetweenMarks(entries, n + 1, x);
    }
    assert Follows(marks, n);
    StateBetweenMarks(entries, n, marks[n].at - 1);
    StateBetweenMarks(entries, n + 2, marks[n + 1].at);
  }

  // The latest stored down event up to the recovery is the opening event, or an older one.
  lemma FoundIsNoLater(log: seq<Event>, i: nat, a: nat, b: nat, e: Event)
    requires a < b < |log| && IsMarkOf(log[a], i) && IsMarkOf(log[b], i) && log[b].typ.UpEvent?
    requires forall k :: a < k < b ==> !IsMarkOf(log[k], i)
    requires Increasing(MarksOf(log, i)) && e in log && DownBefore(e, i, Some(log[b].at))
    ensures e == log[a] || e.at < log[a].at
  {
    var c :| 0 <= c < |log| && log[c] == e;
    if c < a { MarksInLogOrder(log, i, c, a); }
    if b < c { MarksInLogOrder(log, i, b, c); }
  }

  // The stored query finds the opening event exactly when it is stored.
  lemma QueryFindsOpening(log: seq<Event>, stored: seq<Event>, i: nat, a: nat, b: nat)
    requires a < b < |log| && forall e :: e in stored ==> e in log
    requires IsMarkOf(log[a], i) && log[a].typ.DownEvent? && IsMarkOf(log[b], i) && log[b].typ.UpEvent?
    requires forall k :: a < k < b ==> !IsMarkOf(log[k], i)
    requires Increasing(MarksOf(log, i))
    ensures ResolveDowntime(stored, i, log[b].at) == log[b].at - log[a].at <==> log[a] in stored
  {
    var found := LatestDown(stored, i, Some(log[b].at));
    MarksInLogOrder(log, i, a, b);
    if found.Some? { FoundIsNoLater(log, i, a, b, found.value); }
    assert DownBefore(log[a], i, Some(log[b].at));
  }

  // The same for one monitor's log and history.
  lemma OutageOf(log: seq<Event>, stored: seq<Event>, entries: seq<Entry>, i: nat, up: Event) returns (down: Event)
    requires Agrees(entries) && InOrder(entries) && Alternating(Marks(entries)) && MarksOf(log, i) == Marks(entries)
    requires up in log && up.monitor == i && up.typ.UpEvent? && forall e :: e in stored ==> e in log
    ensures down in log && down.monitor == i && down.typ.DownEvent? && MaximalOutage(entries, down.at, up.at)
    ensures ResolveDowntime(stored, i, up.at) == up.at - down.at <==> down in stored
  {
    var b :| 0 <= b < |log| && log[b] == up;
    var a := OpeningOf(log, i, b);
    down := log[a];
    OutageIsMaximal(entries, |MarksOf(log[..a], i)|);
    QueryFindsOpening(log, stored, i, a, b);
  }

  // For every `up` event of a serialized monitor, in every run with pauses, resumes and
  // pruning: the duration in the recovery mail is the length of the maximal interval of
  // state `down` ending at that event exactly when the event that opened it is stored.
  lemma RecoveryDurationIsOutageLength(cal: Calendar, ws: seq<World>, steps: seq<Step>, k: nat, i: nat, up: Event)
    returns (down: Event)
    requires Run(cal, ws, steps) && k < |ws| && Trackable(ws[k], i)
    requires up in ws[k].log && up.monitor == i && up.typ.UpEvent?
    ensures down in ws[k].log && down.monitor == i && down.typ.DownEvent?
    ensures MaximalOutage(ws[k].past[i].entries, down.at, up.at)
    ensures ResolveDowntime(ws[k].db.events, i, up.at) == up.at - down.at <==> down in ws[k].db.events
  {
    var w := ws[k];
    RunIsSound(cal, ws, steps, k);
    RunKeepsLog(cal, ws, steps, k);
    assert Consistent(cal, w.db.monitors[i], w.past[i]);
    down := OutageOf(w.log, w.db.events, w.past[i].entries, i, up);
  }

  // The down event of the outage a log is in.
  lemma CurrentOpening(log: seq<Event>, i: nat) returns (down: Event)
    requires DownNow(MarksOf(log, i)) && Increasing(MarksOf(log, i))
    ensures down in log && down.monitor == i && down.typ.DownEvent?
    ensures forall e :: e in log && IsMarkOf(e, i) && e.at >= down.at ==> e == down
  {
    var a := LastMarkEvent(log, i);
    down := log[a];
    forall e | e in log && IsMarkOf(e, i) && e.at >= down.at
      ensures e == down
    {
      var c :| 0 <= c < |log| && log[c] == e;
      if c < a { MarksInLogOrder(log, i, c, a); }
    }
  }

  // A reminder is only ever written for a monitor whose current outage has a down event
  // with no later down, up or resume; the reminder refers to that event exactly when it
  // is still stored.
  lemma ReminderNamesCurrentOutage(cal: Calendar, ws: seq<World>, steps: seq<Step>, k: nat, i: nat, now: Time)
    returns (down: Event)
    requires Run(cal, ws, steps) && k < |ws| && Trackable(ws[k], i)
    requires i < |ws[k].db.monitors| && WantsReminder(ws[k].db, i, now)
    ensures down in ws[k].log && down.monitor == i && down.typ.DownEvent?
    ensures forall e :: e in ws[k].log && IsMarkOf(e, i) && e.at >= down.at ==> e == down
    ensures LatestDown(ws[k].db.events, i, None).value == down <==> down in ws[k].db.events
  {
    var w := ws[k];
    RunIsSound(cal, ws, steps, k);
    RunKeepsLog(cal, ws, steps, k);
    assert Consistent(cal, w.db.monitors[i], w.past[i]);
    CurrentFollowsMarks(w.past[i].entries);
    down := CurrentOpening(w.log, i);
    if down in w.db.events {
      assert DownBefore(down, i, None);
    }
  }
}
