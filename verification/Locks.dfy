/** Every reachable world is consistent: claims hold locks on unchanged rows, and
  * every monitor agrees with its history, in any interleaving of replicas.
  */
module Locks {
  import opened Model
  import opened Schedule
  import opened Rows
  import opened Outbox
  import opened Engine
  import opened Timeline

  // The claimed rows still carry the values the claim read, and were due then.
  ghost predicate RowsMatch(ms: seq<Monitor>, rows: seq<Claimed>, at: Time) {
    (forall k :: 0 <= k < |rows| ==> rows[k].id < |ms| && ms[rows[k].id] == rows[k].row && Due(rows[k].row, at)) &&
    (forall j, k :: 0 <= j < k < |rows| ==> rows[j].id != rows[k].id)
  }

  ghost predicate LocksOk(w: World) {
    (forall r :: r in w.claims ==> RowsMatch(w.db.monitors, w.claims[r].rows, w.claims[r].at)) &&
    (forall r, s, i :: r in w.claims && s in w.claims && HasRow(w.claims[r], i) && HasRow(w.claims[s], i) ==> r == s)
  }

  ghost predicate HistoriesOk(cal: Calendar, w: World) {
    Sized(w) && forall i :: 0 <= i < |w.past| ==> Consistent(cal, w.db.monitors[i], w.past[i])
  }

  ghost predicate Sound(cal: Calendar, w: World) {
    LocksOk(w) && HistoriesOk(cal, w)
  }

  lemma TouchKeepsLocks(w: World, i: nat, c: Change, source: Source, at: Time)
    requires LocksOk(w) && Sized(w) && i < |w.db.monitors| && !Locked(w, i)
    ensures LocksOk(Touch(w, i, c, source, at))
  {
    var v := Touch(w, i, c, source, at);
    forall r | r in v.claims
      ensures RowsMatch(v.db.monitors, v.claims[r].rows, v.claims[r].at)
    {
      forall k | 0 <= k < |v.claims[r].rows|
        ensures v.claims[r].rows[k].id != i
      {
        assert HasRow(w.claims[r], v.claims[r].rows[k].id);
      }
    }
  }

  lemma TouchKeepsHistories(cal: Calendar, w: World, i: nat, c: Change, source: Source, at: Time)
    requires HistoriesOk(cal, w) && i < |w.db.monitors| && !source.Probed?
    requires Legal(cal, w.db.monitors[i], c, Entry(at, source, c.row.state, Types(c.emits)))
    ensures HistoriesOk(cal, Touch(w, i, c, source, at))
  {
    var m, p, e := w.db.monitors[i], w.past[i], Entry(at, source, c.row.state, Types(c.emits));
    LegalHasOneMark(cal, m, c, e);
    ConsistentStep(cal, m, p, c, e, p.serial);
  }

  lemma TouchKeepsSound(cal: Calendar, w: World, i: nat, c: Change, source: Source, at: Time)
    requires Sound(cal, w) && i < |w.db.monitors| && !Locked(w, i) && !source.Probed?
    requires Legal(cal, w.db.monitors[i], c, Entry(at, source, c.row.state, Types(c.emits)))
    ensures Sound(cal, Touch(w, i, c, source, at))
  {
    TouchKeepsLocks(w, i, c, source, at);
    TouchKeepsHistories(cal, w, i, c, source, at);
  }

  ghost predicate RowsFree(w: World, rows: seq<Claimed>) {
    forall k :: 0 <= k < |rows| ==> !Locked(w, rows[k].id)
  }

  // Evaluating the first claimed row leaves the others as they were read, and unlocked.
  lemma RestStaysClaimed(w: World, rows: seq<Claimed>, c: Change, at: Time)
    requires Sized(w) && |rows| > 0 && RowsMatch(w.db.monitors, rows, at) && RowsFree(w, rows)
    ensures var v := Touch(w, rows[0].id, c, Evaluated, at);
            RowsMatch(v.db.monitors, rows[1..], at) && RowsFree(v, rows[1..])
  {
    var v := Touch(w, rows[0].id, c, Evaluated, at);
    forall k | 0 <= k < |rows[1..]|
      ensures !Locked(v, rows[1..][k].id)
    {
      assert rows[1..][k] == rows[k + 1] && !Locked(w, rows[k + 1].id);
    }
  }

  lemma {:induction false} EvaluateRowsSound(cal: Calendar, w: World, rows: seq<Claimed>, at: Time)
    requires Sound(cal, w) && RowsMatch(w.db.monitors, rows, at) && RowsFree(w, rows)
    ensures Sound(cal, EvaluateRows(w, rows, at))
    decreases |rows|
  {
    if |rows| > 0 {
      var c := EvaluateChange(rows[0].row, rows[0].row);
      assert !Locked(w, rows[0].id);
      TouchKeepsSound(cal, w, rows[0].id, c, Evaluated, at);
      RestStaysClaimed(w, rows, c, at);
      EvaluateRowsSound(cal, Touch(w, rows[0].id, c, Evaluated, at), rows[1..], at);
    }
  }

  lemma CommitKeepsSound(cal: Calendar, w: World, r: nat)
    requires Sound(cal, w) && Enabled(w, Commit(r))
    ensures Sound(cal, Do(cal, w, Commit(r)))
  {
    var v := w.(claims := w.claims - {r});
    var rows := w.claims[r].rows;
    forall k | 0 <= k < |rows|
      ensures !Locked(v, rows[k].id)
    {
      assert HasRow(w.claims[r], rows[k].id);
    }
    EvaluateRowsSound(cal, v, rows, w.claims[r].at);
  }

  lemma ClaimKeepsSound(cal: Calendar, w: World, r: nat, ids: seq<nat>, at: Time)
    requires Sound(cal, w) && Enabled(w, ClaimDue(r, ids, at))
    ensures Sound(cal, Do(cal, w, ClaimDue(r, ids, at)))
  {
    var v := Do(cal, w, ClaimDue(r, ids, at));
    var c := v.claims[r];
    forall i | HasRow(c, i)
      ensures !Locked(w, i)
    {
      var k :| 0 <= k < |c.rows| && c.rows[k].id == i;
      assert ids[k] == i;
    }
    forall q | q in v.claims
      ensures RowsMatch(v.db.monitors, v.claims[q].rows, v.claims[q].at)
    {
    }
    forall q, s, i | q in v.claims && s in v.claims && HasRow(v.claims[q], i) && HasRow(v.claims[s], i)
      ensures q == s
    {
      assert q in w.claims && q != r && HasRow(w.claims[q], i) ==> Locked(w, i);
      assert s in w.claims && s != r && HasRow(w.claims[s], i) ==> Locked(w, i);
    }
  }

  lemma ProbeKeepsConsistent(cal: Calendar, m: Monitor, p: Past, o: ProbeOutcome, at: Time)
    requires Consistent(cal, m, p) && m.kind.Http?
    ensures var c := ProbeChange(m, o);
            Consistent(cal, c.row, Past(p.entries + [Entry(at, Probed, c.row.state, Types(c.emits))], p.serial && AgreesOnDown(m, o)))
  {
    var c := ProbeChange(m, o);
    ProbeIsMarkedIff(m, o, at);
    ConsistentStep(cal, m, p, c, Entry(at, Probed, c.row.state, Types(c.emits)), p.serial && AgreesOnDown(m, o));
  }

  lemma ProbeKeepsLocks(w: World, i: nat, o: ProbeOutcome, at: Time)
    requires LocksOk(w) && Sized(w) && i < |w.db.monitors| && !Locked(w, i)
    ensures LocksOk(Touch(Probing(w, i, o, at), i, ProbeChange(w.db.monitors[i], o), Probed, at))
  {
    var v := Probing(w, i, o, at);
    assert v.claims == w.claims && v.db.monitors == w.db.monitors;
    TouchKeepsLocks(v, i, ProbeChange(w.db.monitors[i], o), Probed, at);
  }

  lemma ProbeKeepsHistories(cal: Calendar, w: World, i: nat, o: ProbeOutcome, at: Time)
    requires HistoriesOk(cal, w) && i < |w.db.monitors| && w.db.monitors[i].kind.Http?
    ensures HistoriesOk(cal, Touch(Probing(w, i, o, at), i, ProbeChange(w.db.monitors[i], o), Probed, at))
  {
    var v := Touch(Probing(w, i, o, at), i, ProbeChange(w.db.monitors[i], o), Probed, at);
    assert Consistent(cal, w.db.monitors[i], w.past[i]);
    ProbeKeepsConsistent(cal, w.db.monitors[i], w.past[i], o, at);
    forall j | 0 <= j < |v.past|
      ensures Consistent(cal, v.db.monitors[j], v.past[j])
    {
      if j != i { assert v.past[j] == w.past[j] && v.db.monitors[j] == w.db.monitors[j]; }
    }
  }

  lemma ProbeKeepsSound(cal: Calendar, w: World, i: nat, o: ProbeOutcome, at: Time)
    requires Sound(cal, w) && Enabled(w, Probe(i, o, at))
    ensures Sound(cal, Do(cal, w, Probe(i, o, at)))
  {
    ProbeKeepsLocks(w, i, o, at);
    ProbeKeepsHistories(cal, w, i, o, at);
  }

  lemma CheckInKeepsSound(cal: Calendar, w: World, i: nat, kind: CheckinKind, at: Time)
    requires Sound(cal, w) && Enabled(w, CheckIn(i, kind, at))
    ensures Sound(cal, Do(cal, w, CheckIn(i, kind, at)))
  {
    match CheckinChange(cal, w.db.monitors[i], kind, at)
    case Err(_) =>
    case Ok(c) =>
      var v := AddCheckin(w, i, kind, at);
      TouchKeepsSound(cal, v, i, c, Reported(kind), at);
  }

  lemma FlagKeepsSound(cal: Calendar, w: World, s: Step)
    requires Sound(cal, w) && Enabled(w, s) && (s.Pause? || s.Mute? || s.Resume?)
    ensures Sound(cal, Do(cal, w, s))
  {
    var m := w.db.monitors[s.i];
    match s
    case Pause(i, at) => TouchKeepsSound(cal, w, i, PauseChange(m, at), Flagged, at);
    case Mute(i, muted, at) => TouchKeepsSound(cal, w, i, MuteChange(m, muted), Flagged, at);
    case Resume(i, at) =>
      var r := ResumeChange(cal, m, at);
      if r.Ok? { TouchKeepsSound(cal, w, i, r.value, Resumption, at); }
  }

  lemma FailureKeepsConsistent(cal: Calendar, m: Monitor, p: Past, reason: FailReason, at: Time)
    requires Consistent(cal, m, p)
    ensures Consistent(cal, m, p.(entries := p.entries + [Entry(at, DeliveryFailure, m.state, [AlertFailedEvent])]))
  {
    var emit := FailureEvent(reason);
    var e := Entry(at, DeliveryFailure, m.state, [AlertFailedEvent]);
    assert Types([emit]) == [AlertFailedEvent];
    LegalHasOneMark(cal, m, Change(m, [emit]), e);
    ConsistentStep(cal, m, p, Change(m, [emit]), e, p.serial);
  }

  // A world that differs only in one monitor's history.
  lemma HistoryKeepsSound(cal: Calendar, w: World, v: World, i: nat)
    requires Sound(cal, w) && v.claims == w.claims && v.db.monitors == w.db.monitors
    requires i < |w.past| == |v.past| && v.past == w.past[i := v.past[i]] && Consistent(cal, v.db.monitors[i], v.past[i])
    ensures Sound(cal, v)
  {
    forall j | 0 <= j < |v.past|
      ensures Consistent(cal, v.db.monitors[j], v.past[j])
    {
      if j != i { assert Consistent(cal, w.db.monitors[j], w.past[j]); }
    }
  }

  lemma DispatchHistory(w: World, send: SendResult, at: Time, recorded: bool)
    requires Sized(w) && |w.jobs| > 0 && w.jobs[0].monitor < |w.db.monitors|
    ensures var v, i := DispatchStep(w, send, at, recorded), w.jobs[0].monitor;
            v.claims == w.claims && v.db.monitors == w.db.monitors && |v.past| == |w.past| && v.past == w.past[i := v.past[i]] &&
            (v.past[i] == w.past[i] ||
             v.past[i] == w.past[i].(entries := w.past[i].entries + [Entry(at, DeliveryFailure, w.db.monitors[i].state, [AlertFailedEvent])]))
  {
  }

  lemma DispatchKeepsSound(cal: Calendar, w: World, send: SendResult, at: Time, recorded: bool)
    requires Sound(cal, w) && |w.jobs| > 0 && w.jobs[0].monitor < |w.db.monitors|
    ensures Sound(cal, DispatchStep(w, send, at, recorded))
  {
    var i := w.jobs[0].monitor;
    DispatchHistory(w, send, at, recorded);
    assert Consistent(cal, w.db.monitors[i], w.past[i]);
    FailureKeepsConsistent(cal, w.db.monitors[i], w.past[i], Rejected, at);
    HistoryKeepsSound(cal, w, DispatchStep(w, send, at, recorded), i);
  }

  lemma StepKeepsSound(cal: Calendar, w: World, s: Step)
    requires Sound(cal, w) && Enabled(w, s)
    ensures Sound(cal, Do(cal, w, s))
  {
    match s
    case CheckIn(i, kind, at) => CheckInKeepsSound(cal, w, i, kind, at);
    case ClaimDue(r, ids, at) => ClaimKeepsSound(cal, w, r, ids, at);
    case Commit(r) => CommitKeepsSound(cal, w, r);
    case Pause(_, _) => FlagKeepsSound(cal, w, s);
    case Mute(_, _, _) => FlagKeepsSound(cal, w, s);
    case Resume(_, _) => FlagKeepsSound(cal, w, s);
    case Probe(i, o, at) => ProbeKeepsSound(cal, w, i, o, at);
    case DispatchNext(send, at, recorded) => DispatchKeepsSound(cal, w, send, at, recorded);
    case _ =>
  }

  lemma {:induction false} RunIsSound(cal: Calendar, ws: seq<World>, steps: seq<Step>, k: nat)
    requires Run(cal, ws, steps) && k < |ws|
    ensures Sound(cal, ws[k])
  {
    if k > 0 {
      RunIsSound(cal, ws, steps, k - 1);
      assert StepsTo(cal, ws[k - 1], steps[k - 1], ws[k - 1 + 1]);
      StepKeepsSound(cal, ws[k - 1], steps[k - 1]);
    }
  }
}
