/** The soak audit's check for two consecutive transitions of one type. */
module Audit {
  import opened Model
  import opened Schedule
  import opened Engine
  import opened Timeline
  import opened Locks
  import opened Log
  import opened Downtime
  import opened Rollup

  // Two consecutive transitions of the same type.
  ghost predicate Duplicate(t: seq<Mark>) {
    exists k :: 0 < k < |t| && t[k].typ == t[k - 1].typ
  }

  // A monitor that was resumed while down has gone down again.
  ghost predicate DownAgain(marks: seq<Mark>, end: Time) {
    exists j, l :: 0 < j < l < |marks| && ResumesOutage(marks, j) && marks[l].typ.DownEvent? && marks[l].at < end
  }

  // A stretch of an alternating log: only its first mark may lack the one before it.
  predicate AlternatesOn(marks: seq<Mark>) {
    (|marks| > 0 ==> IsMark(marks[0].typ)) && forall k :: 0 < k < |marks| ==> Follows(marks, k)
  }

  lemma AlternatesOnPrefix(marks: seq<Mark>, n: nat)
    requires AlternatesOn(marks) && n <= |marks|
    ensures AlternatesOn(marks[..n])
  {
    forall k | 0 < k < n
      ensures Follows(marks[..n], k)
    {
      assert Follows(marks, k);
    }
  }

  lemma SuffixAlternates(marks: seq<Mark>, n: nat)
    requires Alternating(marks) && Increasing(marks) && n <= |marks|
    ensures AlternatesOn(marks[n..]) && Increasing(marks[n..])
  {
    if n < |marks| { assert Follows(marks, n); }
    forall k | 0 < k < |marks[n..]|
      ensures Follows(marks[n..], k)
    {
      assert Follows(marks, n + k);
    }
  }

  // The latest marks are resumes, of an outage or of nothing.
  predicate OpenResumed(marks: seq<Mark>) {
    |marks| > 0 &&
    var front, last := marks[..|marks| - 1], marks[|marks| - 1];
    last.typ.ResumeEvent? && (DownNow(front) || OpenResumed(front))
  }

  lemma {:induction false} LastTransitionIsDown(marks: seq<Mark>, end: Time)
    requires AlternatesOn(marks) && Increasing(marks) && (|marks| > 0 ==> marks[|marks| - 1].at < end)
    ensures |Transitions(marks, end)| > 0 && Transitions(marks, end)[|Transitions(marks, end)| - 1].typ.DownEvent?
            <==> DownNow(marks) || OpenResumed(marks)
  {
    if |marks| > 0 {
      var n := |marks| - 1;
      AlternatesOnPrefix(marks, n);
      assert n > 0 ==> Follows(marks, n);
      LastTransitionIsDown(marks[..n], end);
    }
  }

  lemma {:induction false} OpenResumedOutage(marks: seq<Mark>) returns (j: nat)
    requires OpenResumed(marks)
    ensures 0 < j < |marks| && ResumesOutage(marks, j)
    ensures forall l :: j <= l < |marks| ==> marks[l].typ.ResumeEvent?
  {
    var n := |marks| - 1;
    if DownNow(marks[..n]) {
      j := n;
    } else {
      j := OpenResumedOutage(marks[..n]);
    }
  }

  // After a resumed outage without a later down there are only resumes.
  lemma {:induction false} OnlyResumesSince(marks: seq<Mark>, j: nat)
    requires AlternatesOn(marks) && 0 < j < |marks| && ResumesOutage(marks, j)
    requires forall l :: j < l < |marks| ==> !marks[l].typ.DownEvent?
    ensures OpenResumed(marks)
    decreases |marks|
  {
    var n := |marks| - 1;
    if j < n {
      AlternatesOnPrefix(marks, n);
      assert n > 0 ==> Follows(marks, n);
      OnlyResumesSince(marks[..n], j);
    }
  }

  lemma {:induction false} DuplicateIffDownAgain(marks: seq<Mark>, end: Time)
    requires AlternatesOn(marks) && Increasing(marks)
    ensures Duplicate(Transitions(marks, end)) <==> DownAgain(marks, end)
  {
    if |marks| > 0 {
      var n := |marks| - 1;
      var q, p := marks[..n], marks[n];
      AlternatesOnPrefix(marks, n);
      DuplicateIffDownAgain(q, end);
      FrontDownAgain(marks, end);
      if p.at < end && !p.typ.ResumeEvent? {
        LastStepRepeats(marks, end);
      } else {
        assert Transitions(q, end) + [] == Transitions(q, end);
      }
    }
  }

  lemma FrontDownAgain(marks: seq<Mark>, end: Time)
    requires |marks| > 0
    ensures DownAgain(marks, end) <==>
            (DownAgain(marks[..|marks| - 1], end) ||
             (marks[|marks| - 1].typ.DownEvent? && marks[|marks| - 1].at < end &&
              exists j :: 0 < j < |marks| - 1 && ResumesOutage(marks, j)))
  {
    var n := |marks| - 1;
    var q := marks[..n];
    if DownAgain(q, end) {
      var j, l :| 0 < j < l < |q| && ResumesOutage(q, j) && q[l].typ.DownEvent? && q[l].at < end;
      assert ResumesOutage(marks, j) && marks[l] == q[l];
    }
    if DownAgain(marks, end) {
      var j, l :| 0 < j < l < |marks| && ResumesOutage(marks, j) && marks[l].typ.DownEvent? && marks[l].at < end;
      if l < n { assert ResumesOutage(q, j) && q[l] == marks[l]; }
    }
  }

  // After a resumed outage a log has only resumes, or another down.
  lemma ResumedBefore(q: seq<Mark>, j: nat, end: Time)
    requires AlternatesOn(q) && Increasing(q) && 0 < j < |q| && ResumesOutage(q, j) && q[|q| - 1].at < end
    ensures OpenResumed(q) || DownAgain(q, end)
  {
    if forall l :: j < l < |q| ==> !q[l].typ.DownEvent? {
      OnlyResumesSince(q, j);
    } else {
      var l :| j < l < |q| && q[l].typ.DownEvent?;
      assert q[l].at <= q[|q| - 1].at;
    }
  }

  lemma LastStepRepeats(marks: seq<Mark>, end: Time)
    requires AlternatesOn(marks) && Increasing(marks) && |marks| > 0
    requires marks[|marks| - 1].at < end && !marks[|marks| - 1].typ.ResumeEvent?
    requires Duplicate(Transitions(marks[..|marks| - 1], end)) <==> DownAgain(marks[..|marks| - 1], end)
    ensures Duplicate(Transitions(marks, end)) <==> DownAgain(marks, end)
  {
    var n := |marks| - 1;
    var q, p := marks[..n], marks[n];
    AlternatesOnPrefix(marks, n);
    assert n > 0 ==> Follows(marks, n);
    LastTransitionIsDown(q, end);
    FrontDownAgain(marks, end);
    AppendDuplicate(Transitions(q, end), p);
    TransitionTypes(q, end);
    if p.typ.DownEvent? {
      if OpenResumed(q) {
        var j := OpenResumedOutage(q);
        assert ResumesOutage(marks, j);
      } else if j :| 0 < j < n && ResumesOutage(marks, j) {
        assert ResumesOutage(q, j);
        ResumedBefore(q, j, end);
      }
    }
  }

  lemma AppendDuplicate(t: seq<Mark>, p: Mark)
    ensures Duplicate(t + [p]) <==> Duplicate(t) || (|t| > 0 && t[|t| - 1].typ == p.typ)
  {
    var u := t + [p];
    if Duplicate(t) {
      var k :| 0 < k < |t| && t[k].typ == t[k - 1].typ;
      assert u[k].typ == u[k - 1].typ;
    }
    if |t| > 0 && t[|t| - 1].typ == p.typ { assert u[|t|].typ == u[|t| - 1].typ; }
    if Duplicate(u) {
      var k :| 0 < k < |u| && u[k].typ == u[k - 1].typ;
      if k < |t| { assert t[k].typ == t[k - 1].typ; }
    }
  }

  lemma {:induction false} TransitionTypes(marks: seq<Mark>, end: Time)
    ensures forall k :: 0 <= k < |Transitions(marks, end)| ==> IsTransition(Transitions(marks, end)[k].typ)
  {
    if |marks| > 0 { TransitionTypes(marks[..|marks| - 1], end); }
  }

  // The audit finds two consecutive events of one type among a monitor's stored downs and
  // ups before `end`, which are those of its log from mark n on, exactly when a resumed
  // outage among those marks was followed by another down.
  lemma AuditFindsDuplicateIffDownAgain(cal: Calendar, ws: seq<World>, steps: seq<Step>, k: nat, i: nat, n: nat, end: Time)
    requires Run(cal, ws, steps) && k < |ws| && Trackable(ws[k], i) && StoredFrom(ws[k], i, n, end)
    ensures Duplicate(TransitionsOf(ws[k].db.events, i, end)) <==> DownAgain(MarksOf(ws[k].log, i)[n..], end)
  {
    var w := ws[k];
    RunIsSound(cal, ws, steps, k);
    RunKeepsLog(cal, ws, steps, k);
    assert Consistent(cal, w.db.monitors[i], w.past[i]);
    StoredTransitions(w.log, w.pruned, i, end);
    TransitionsOfSuffix(MarksOf(w.log, i), Kept(w, i), n, end);
    SuffixAlternates(MarksOf(w.log, i), n);
    DuplicateIffDownAgain(MarksOf(w.log, i)[n..], end);
  }
}
