/** What every run guarantees about a monitor's state, deadline and missed deadlines. */
module Guarantees {
  import opened Model
  import opened Schedule
  import opened Rows
  import opened Engine
  import opened Columns
  import opened Timeline
  import opened Locks
  import opened Log

  // ------------------------------------------------------------ state and timeline

  // After every transaction of monitor i the state was `down` exactly when the latest
  // of the monitor's down, up and resume events was a down; ups directly follow downs
  // and no two downs are adjacent.
  ghost predicate TimelineHolds(w: World, i: nat)
    requires i < |w.past|
  {
    Agrees(w.past[i].entries) && Alternating(MarksOf(w.log, i))
  }

  // The outcomes recorded for monitor i by the first k steps all came from a snapshot
  // that agreed with the row on being down.
  ghost predicate ProbesAgree(ws: seq<World>, steps: seq<Step>, k: nat, i: nat)
    requires |ws| == |steps| + 1 && k <= |steps|
  {
    forall j :: 0 <= j < k ==> ProbeAgrees(ws[j], steps[j], i)
  }

  predicate ProbeAgrees(w: World, s: Step, i: nat) {
    s.Probe? && s.i == i && i < |w.db.monitors| ==> AgreesOnDown(w.db.monitors[i], s.outcome)
  }

  lemma {:induction false} EvaluateKeepsSerial(w: World, rows: seq<Claimed>, at: Time)
    requires Sized(w) && forall k :: 0 <= k < |rows| ==> rows[k].id < |w.db.monitors|
    ensures |EvaluateRows(w, rows, at).past| == |w.past|
    ensures forall i :: 0 <= i < |w.past| ==> EvaluateRows(w, rows, at).past[i].serial == w.past[i].serial
    decreases |rows|
  {
    if |rows| > 0 {
      var c := EvaluateChange(rows[0].row, w.db.monitors[rows[0].id]);
      EvaluateKeepsSerial(Touch(w, rows[0].id, c, Evaluated, at), rows[1..], at);
    }
  }

  lemma CommitKeepsSerial(cal: Calendar, w: World, r: nat)
    requires Enabled(w, Commit(r))
    ensures |Do(cal, w, Commit(r)).past| == |w.past|
    ensures forall i :: 0 <= i < |w.past| ==> Do(cal, w, Commit(r)).past[i].serial == w.past[i].serial
  {
    EvaluateKeepsSerial(w.(claims := w.claims - {r}), w.claims[r].rows, w.claims[r].at);
  }

  lemma ProbeTracksSerial(cal: Calendar, w: World, s: Step, i: nat)
    requires Enabled(w, s) && s.Probe? && i < |w.past|
    ensures Do(cal, w, s).past[i].serial == (w.past[i].serial && ProbeAgrees(w, s, i)) && |Do(cal, w, s).past| == |w.past|
  {
  }

  lemma OthersKeepSerial(cal: Calendar, w: World, s: Step, i: nat)
    requires Enabled(w, s) && !s.Probe? && !s.Commit? && i < |Do(cal, w, s).past|
    ensures i < |w.past| ==> Do(cal, w, s).past[i].serial == w.past[i].serial
    ensures i >= |w.past| ==> Do(cal, w, s).past[i].serial
  {
  }

  lemma StepTracksSerial(cal: Calendar, w: World, s: Step, i: nat)
    requires Enabled(w, s) && i < |Do(cal, w, s).past|
    ensures i < |w.past| ==> Do(cal, w, s).past[i].serial == (w.past[i].serial && ProbeAgrees(w, s, i))
    ensures i >= |w.past| ==> Do(cal, w, s).past[i].serial && !s.Probe?
  {
    if s.Commit? {
      CommitKeepsSerial(cal, w, s.replica);
    } else if s.Probe? {
      if i < |w.past| { ProbeTracksSerial(cal, w, s, i); } else { ProbeTracksSerial(cal, w, s, s.i); }
    } else {
      OthersKeepSerial(cal, w, s, i);
    }
  }

  lemma StepKeepsMonitors(cal: Calendar, w: World, s: Step)
    requires Enabled(w, s)
    ensures |w.past| <= |Do(cal, w, s).past|
  {
    if s.Commit? {
      EvaluateKeepsSerial(w.(claims := w.claims - {s.replica}), w.claims[s.replica].rows, w.claims[s.replica].at);
    }
  }

  // Whether the flag of monitor i after k steps says what the probes recorded so far did.
  ghost predicate SerialTracks(ws: seq<World>, steps: seq<Step>, k: nat, i: nat)
    requires |ws| == |steps| + 1 && k <= |steps|
  {
    if i < |ws[k].past| then ws[k].past[i].serial <==> ProbesAgree(ws, steps, k, i) else ProbesAgree(ws, steps, k, i)
  }

  lemma OneMoreProbe(ws: seq<World>, steps: seq<Step>, k: nat, i: nat)
    requires |ws| == |steps| + 1 && k < |steps|
    ensures ProbesAgree(ws, steps, k + 1, i) <==> ProbesAgree(ws, steps, k, i) && ProbeAgrees(ws[k], steps[k], i)
  {
  }

  lemma RunStepTracksSerial(cal: Calendar, ws: seq<World>, steps: seq<Step>, k: nat, i: nat)
    requires |ws| == |steps| + 1 && k < |steps| && StepsTo(cal, ws[k], steps[k], ws[k + 1])
    requires |ws[k].past| == |ws[k].db.monitors| && SerialTracks(ws, steps, k, i)
    ensures SerialTracks(ws, steps, k + 1, i)
  {
    OneMoreProbe(ws, steps, k, i);
    StepKeepsMonitors(cal, ws[k], steps[k]);
    if i < |ws[k + 1].past| { StepTracksSerial(cal, ws[k], steps[k], i); }
  }

  lemma {:induction false} SerialIffProbesAgree(cal: Calendar, ws: seq<World>, steps: seq<Step>, k: nat, i: nat)
    requires Run(cal, ws, steps) && k < |ws|
    ensures i < |ws[k].past| ==> (ws[k].past[i].serial <==> ProbesAgree(ws, steps, k, i))
    ensures i >= |ws[k].past| ==> ProbesAgree(ws, steps, k, i)
  {
    if k > 0 {
      SerialIffProbesAgree(cal, ws, steps, k - 1, i);
      assert StepsTo(cal, ws[k - 1], steps[k - 1], ws[k - 1 + 1]);
      RunStepTracksSerial(cal, ws, steps, k - 1, i);
    }
  }

  // In every run, with any number of scheduler replicas: the timeline holds exactly when
  // every recorded probe agreed with its row on being down, so always for heartbeats.
  lemma TimelineHoldsIffProbesAgree(cal: Calendar, ws: seq<World>, steps: seq<Step>, k: nat, i: nat)
    requires Run(cal, ws, steps) && k < |ws| && i < |ws[k].past| == |ws[k].db.monitors|
    ensures TimelineHolds(ws[k], i) <==> ProbesAgree(ws, steps, k, i)
    ensures ws[k].db.monitors[i].kind.Heartbeat? ==> TimelineHolds(ws[k], i)
    ensures TimelineHolds(ws[k], i) ==> (ws[k].db.monitors[i].state.Down? <==> DownNow(MarksOf(ws[k].log, i)))
  {
    RunIsSound(cal, ws, steps, k);
    RunKeepsLog(cal, ws, steps, k);
    SerialIffProbesAgree(cal, ws, steps, k, i);
    assert Consistent(cal, ws[k].db.monitors[i], ws[k].past[i]);
    if TimelineHolds(ws[k], i) { CurrentFollowsMarks(ws[k].past[i].entries); }
  }

  // The row's last check-in, pause and mute flags follow from its history, and a
  // heartbeat's fail_streak counts its failed check-ins and missed deadlines since the
  // last success, through pauses and resumes.
  lemma ColumnsFollowHistory(cal: Calendar, ws: seq<World>, steps: seq<Step>, k: nat, i: nat)
    requires Run(cal, ws, steps) && k < |ws| && i < |ws[k].past| == |ws[k].db.monitors|
    ensures Carries(ws[k].db.monitors[i], ColumnsOf(ws[k].past[i].entries, ws[k].db.monitors[i].autoResume))
  {
    RunIsSound(cal, ws, steps, k);
    assert Consistent(cal, ws[k].db.monitors[i], ws[k].past[i]);
  }

  // ---------------------------------------------------------------------- deadlines

  // A scheduled heartbeat monitor has a deadline exactly while it is up or late; any
  // other monitor never has one.
  lemma DeadlineSetIffArmed(cal: Calendar, ws: seq<World>, steps: seq<Step>, k: nat, i: nat)
    requires Run(cal, ws, steps) && k < |ws| && i < |ws[k].db.monitors|
    ensures var m := ws[k].db.monitors[i];
            m.nextDeadline.Some? <==> Scheduled(m) && (m.state.Up? || m.state.Late?)
  {
    RunIsSound(cal, ws, steps, k);
    assert Consistent(cal, ws[k].db.monitors[i], ws[k].past[i]);
  }

  // The last arming in a history, and what the scheduler did since.
  lemma {:induction false} LastArming(entries: seq<Entry>) returns (a: nat)
    requires WatchOf(entries).armed.Some?
    ensures a < |entries| && Arms(entries[a]) && entries[a].at == WatchOf(entries).armed.value
    ensures forall j :: a < j < |entries| ==> !Arms(entries[j])
    ensures WatchOf(entries).downs == 0 ==> forall j :: a < j < |entries| ==> !MissedBySchedule(entries[j])
    ensures WatchOf(entries).lates == 0 ==> forall j :: a < j < |entries| ==> !BecameLate(entries[j])
  {
    var n := |entries| - 1;
    if Arms(entries[n]) {
      a := n;
    } else {
      a := LastArming(entries[..n]);
    }
  }

  // The one late since the last arming.
  lemma {:induction false} OnlyLate(entries: seq<Entry>) returns (l: nat)
    requires WatchOf(entries).armed.Some? && WatchOf(entries).lates == 1
    ensures l < |entries| && BecameLate(entries[l])
    ensures WatchOf(entries[..l]) == WatchOf(entries).(lates := 0, downs := WatchOf(entries[..l]).downs)
    ensures forall j :: l < j < |entries| ==> !BecameLate(entries[j]) && !Arms(entries[j])
  {
    var n := |entries| - 1;
    if BecameLate(entries[n]) {
      l := n;
    } else {
      l := OnlyLate(entries[..n]);
      assert entries[..n][..l] == entries[..l];
    }
  }

  // When the armed deadline of a missed schedule ran out.
  function Expiry(cal: Calendar, m: Monitor, armed: Time): Time
    requires m.scheduleKind.Some?
  {
    Occurrence(cal, m, armed) + Grace(m)
  }

  // Nothing armed the monitor or took it down by schedule strictly between two entries.
  predicate Undisturbed(entries: seq<Entry>, a: nat, b: nat)
    requires b <= |entries|
  {
    forall j :: a < j < b ==> !Arms(entries[j]) && !MissedBySchedule(entries[j])
  }

  // Never early, and once per arming: whenever the scheduler takes a monitor down, a
  // success or a resume armed it before, nothing armed it or took it down by schedule
  // since, and the armed occurrence plus grace has passed. In between it was made late
  // exactly once, after the occurrence.
  lemma NeverEarly(cal: Calendar, ws: seq<World>, steps: seq<Step>, k: nat, i: nat, b: nat) returns (a: nat, l: nat)
    requires Run(cal, ws, steps) && k < |ws| && i < |ws[k].past| == |ws[k].db.monitors|
    requires b < |ws[k].past[i].entries| && MissedBySchedule(ws[k].past[i].entries[b])
    ensures ValidSchedule(cal, ws[k].db.monitors[i])
    ensures var m, entries := ws[k].db.monitors[i], ws[k].past[i].entries;
            a < l < b && Arms(entries[a]) && Undisturbed(entries, a, b) &&
            entries[b].at > Expiry(cal, m, entries[a].at) && entries[l].at > Occurrence(cal, m, entries[a].at) &&
            (forall j :: a < j < b ==> (BecameLate(entries[j]) <==> j == l))
  {
    RunIsSound(cal, ws, steps, k);
    var m, entries := ws[k].db.monitors[i], ws[k].past[i].entries;
    assert Consistent(cal, m, ws[k].past[i]);
    assert Timely(cal, m, WatchOf(entries[..b]), entries[b]);
    a, l := WalkedThroughLate(cal, m, entries, b);
  }

  // The last arming and the one late after it.
  lemma ArmedThenLate(cal: Calendar, m: Monitor, before: seq<Entry>) returns (a: nat, l: nat)
    requires OnTime(cal, m, before) && ValidSchedule(cal, m)
    requires WatchOf(before).armed.Some? && WatchOf(before).lates == 1 && WatchOf(before).downs == 0
    ensures a < l < |before| && Arms(before[a]) && before[a].at == WatchOf(before).armed.value
    ensures Undisturbed(before, a, |before|) && before[l].at > Occurrence(cal, m, before[a].at) && BecameLate(before[l])
    ensures WatchOf(before[..l]).armed.Some? && WatchOf(before[..l]).lates == 0
    ensures forall j :: l < j < |before| ==> !BecameLate(before[j])
  {
    a := LastArming(before);
    l := OnlyLate(before);
    assert Timely(cal, m, WatchOf(before[..l]), before[l]);
  }

  lemma NoEarlierLate(before: seq<Entry>, a: nat, l: nat)
    requires a < l <= |before| && WatchOf(before[..l]).armed.Some? && WatchOf(before[..l]).lates == 0
    requires forall j :: a < j < l ==> !Arms(before[j])
    ensures forall j :: a < j < l ==> !BecameLate(before[j])
  {
    var first := LastArming(before[..l]);
    assert before[..l][first] == before[first];
    forall j | a < j < l
      ensures !BecameLate(before[j])
    {
      assert before[..l][j] == before[j];
    }
  }

  lemma OnTimePrefix(cal: Calendar, m: Monitor, entries: seq<Entry>, b: nat)
    requires OnTime(cal, m, entries) && b <= |entries|
    ensures OnTime(cal, m, entries[..b])
  {
    forall j | 0 <= j < b
      ensures Timely(cal, m, WatchOf(entries[..b][..j]), entries[..b][j])
    {
      assert entries[..b][..j] == entries[..j];
      assert Timely(cal, m, WatchOf(entries[..j]), entries[j]);
    }
  }

  lemma WalkedThroughLate(cal: Calendar, m: Monitor, entries: seq<Entry>, b: nat) returns (a: nat, l: nat)
    requires OnTime(cal, m, entries) && b < |entries| && MissedBySchedule(entries[b]) && ValidSchedule(cal, m)
    ensures a < l < b && Arms(entries[a]) && Undisturbed(entries, a, b)
    ensures entries[b].at > Expiry(cal, m, entries[a].at) && entries[l].at > Occurrence(cal, m, entries[a].at)
    ensures forall j :: a < j < b ==> (BecameLate(entries[j]) <==> j == l)
  {
    var before := entries[..b];
    assert Timely(cal, m, WatchOf(before), entries[b]);
    OnTimePrefix(cal, m, entries, b);
    a, l := ArmedThenLate(cal, m, before);
    NoEarlierLate(before, a, l);
    assert forall j :: 0 <= j < b ==> before[j] == entries[j];
  }

  // A resume, or with auto_resume a success or failure report.
  predicate EndsPause(e: Entry, autoResume: bool) {
    e.source.Resumption? || (autoResume && (e.source == Reported(Success) || e.source == Reported(Fail)))
  }

  lemma {:induction false} PauseLasts(entries: seq<Entry>, p: nat, n: nat, autoResume: bool)
    requires p < n <= |entries| && entries[p].emits == [PauseEvent] && !EndsPause(entries[p], autoResume)
    requires forall r :: p < r < n ==> !EndsPause(entries[r], autoResume)
    ensures ColumnsOf(entries[..n], autoResume).pausedAt.Some?
  {
    assert entries[..n][..n - 1] == entries[..n - 1];
    if p < n - 1 { PauseLasts(entries, p, n - 1, autoResume); }
  }

  // A pause holds the scheduler off: whenever it makes a monitor late or takes it down
  // after a pause, a resume or an auto-resuming report lies in between, with any number of
  // replicas.
  lemma PausedIsLeftAlone(cal: Calendar, ws: seq<World>, steps: seq<Step>, k: nat, i: nat, p: nat, b: nat) returns (r: nat)
    requires Run(cal, ws, steps) && k < |ws| && i < |ws[k].past| == |ws[k].db.monitors|
    requires p < b < |ws[k].past[i].entries|
    requires ws[k].past[i].entries[p].emits == [PauseEvent] && ws[k].past[i].entries[p].source.Flagged?
    requires ws[k].past[i].entries[b].source.Evaluated?
    ensures p < r < b && EndsPause(ws[k].past[i].entries[r], ws[k].db.monitors[i].autoResume)
  {
    RunIsSound(cal, ws, steps, k);
    var m, entries := ws[k].db.monitors[i], ws[k].past[i].entries;
    assert Consistent(cal, m, ws[k].past[i]);
    if r :| p < r < b && EndsPause(entries[r], m.autoResume) {
      return r;
    }
    PauseLasts(entries, p, b, m.autoResume);
    assert false;
  }

  // And at every moment the scheduler acts, the pause column of the history is empty.
  lemma ActsOnlyUnpaused(cal: Calendar, ws: seq<World>, steps: seq<Step>, k: nat, i: nat)
    requires Run(cal, ws, steps) && k < |ws| && i < |ws[k].past| == |ws[k].db.monitors|
    ensures forall b :: 0 <= b < |ws[k].past[i].entries| && ws[k].past[i].entries[b].source.Evaluated? ==>
              ColumnsOf(ws[k].past[i].entries[..b], ws[k].db.monitors[i].autoResume).pausedAt.None?
  {
    RunIsSound(cal, ws, steps, k);
    assert Consistent(cal, ws[k].db.monitors[i], ws[k].past[i]);
  }

  // For a period schedule the expiry is the arming plus period plus grace, hence at
  // least 120 seconds after it; for a cron schedule it lies more than the minimum
  // grace after the arming.
  // In both cases it is the schedule's own deadline for a check-in at the arming.
  lemma ExpiryBounds(cal: Calendar, m: Monitor, armed: Time)
    requires cal.Forward() && ValidSchedule(cal, m)
    ensures NextDeadline(cal, ScheduleConfig(m), Some(armed), armed) == Ok(Expiry(cal, m, armed))
    ensures m.scheduleKind == Some(Period) ==>
              m.periodS.Some? && m.graceS.Some? && Expiry(cal, m, armed) == armed + m.periodS.value + m.graceS.value &&
              Expiry(cal, m, armed) >= armed + 120
    ensures m.scheduleKind == Some(Cron) ==>
              m.graceS.Some? && Expiry(cal, m, armed) == cal.cronNext(m.cronExpr, m.tz, armed) + m.graceS.value &&
              Expiry(cal, m, armed) > armed + 60
  {
  }

  // Two scheduler downs of one monitor have an arming between them.
  lemma OneDownPerArming(cal: Calendar, ws: seq<World>, steps: seq<Step>, k: nat, i: nat, b: nat, c: nat) returns (a: nat)
    requires Run(cal, ws, steps) && k < |ws| && i < |ws[k].past| == |ws[k].db.monitors|
    requires b < c < |ws[k].past[i].entries|
    requires MissedBySchedule(ws[k].past[i].entries[b]) && MissedBySchedule(ws[k].past[i].entries[c])
    ensures b < a < c && Arms(ws[k].past[i].entries[a])
  {
    var l;
    a, l := NeverEarly(cal, ws, steps, k, i, c);
  }
}
