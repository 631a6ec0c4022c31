/** The event table against the full log: ids count the events written, the table
  * holds exactly the events not pruned, and each monitor's marks are those of its history.
  */
module Log {
  import opened Model
  import opened Schedule
  import opened Rows
  import opened Outbox
  import opened Engine
  import opened Timeline

  // The down, up and resume events of monitor i, in log order.
  function MarksOf(events: seq<Event>, i: nat): seq<Mark> {
    if |events| == 0 then []
    else MarksOf(events[..|events| - 1], i) + MarkOf(events[|events| - 1], i)
  }

  function MarkOf(e: Event, i: nat): seq<Mark> {
    if e.monitor == i && IsMark(e.typ) then [Mark(e.at, e.typ)] else []
  }

  ghost predicate LogOk(w: World) {
    Sized(w) &&
    |w.log| == w.db.nextEvent && (forall k :: 0 <= k < |w.log| ==> w.log[k].id == k) &&
    (forall id :: id in w.pruned ==> id < w.db.nextEvent) &&
    w.db.events == KeepEvents(w.log, w.pruned) &&
    (forall i :: 0 <= i < |w.past| ==> MarksOf(w.log, i) == Marks(w.past[i].entries)) &&
    (forall e :: e in w.log ==> e.monitor < |w.past|)
  }

  lemma {:induction false} MarksOfStamp(log: seq<Event>, first: nat, i: nat, emits: seq<Emit>, at: Time, j: nat)
    ensures MarksOf(log + Stamp(first, i, emits, at), j) ==
            MarksOf(log, j) + if i == j then MarksIn(Types(emits), at) else []
    decreases |emits|
  {
    if |emits| == 0 {
      assert log + Stamp(first, i, emits, at) == log;
    } else {
      var e := Event(first, i, emits[0].typ, emits[0].message, emits[0].meta, at);
      var rest := Stamp(first + 1, i, emits[1..], at);
      assert log + Stamp(first, i, emits, at) == (log + [e]) + rest;
      assert (log + [e])[..|log|] == log;
      assert Types(emits)[1..] == Types(emits[1..]);
      MarksOfStamp(log + [e], first + 1, i, emits[1..], at, j);
    }
  }

  lemma {:induction false} KeepStamp(log: seq<Event>, doomed: set<nat>, first: nat, i: nat, emits: seq<Emit>, at: Time)
    requires forall id :: id in doomed ==> id < first
    ensures KeepEvents(log + Stamp(first, i, emits, at), doomed) == KeepEvents(log, doomed) + Stamp(first, i, emits, at)
    decreases |emits|
  {
    if |emits| == 0 {
      assert log + Stamp(first, i, emits, at) == log;
    } else {
      var e := Event(first, i, emits[0].typ, emits[0].message, emits[0].meta, at);
      var rest := Stamp(first + 1, i, emits[1..], at);
      assert log + Stamp(first, i, emits, at) == (log + [e]) + rest;
      assert (log + [e])[..|log|] == log;
      KeepStamp(log + [e], doomed, first + 1, i, emits[1..], at);
    }
  }

  lemma {:induction false} KeepTwice(log: seq<Event>, first: set<nat>, second: set<nat>)
    ensures KeepEvents(KeepEvents(log, first), second) == KeepEvents(log, first + second)
  {
    if |log| > 0 {
      var front, e := log[..|log| - 1], log[|log| - 1];
      KeepTwice(front, first, second);
      if e.id !in first {
        assert KeepEvents(log, first)[..|KeepEvents(log, first)| - 1] == KeepEvents(front, first);
      }
    }
  }

  lemma {:induction false} StampIds(first: nat, i: nat, emits: seq<Emit>, at: Time)
    ensures |Stamp(first, i, emits, at)| == |emits|
    ensures forall k :: 0 <= k < |emits| ==>
              Stamp(first, i, emits, at)[k] == Event(first + k, i, emits[k].typ, emits[k].message, emits[k].meta, at)
    decreases |emits|
  {
    if |emits| > 0 { StampIds(first + 1, i, emits[1..], at); }
  }

  lemma WriteKeepsMarks(log: seq<Event>, entries: seq<Entry>, first: nat, i: nat, emits: seq<Emit>, e: Entry, j: nat)
    requires MarksOf(log, j) == Marks(entries) && e.emits == Types(emits)
    ensures MarksOf(log + Stamp(first, i, emits, e.at), j) == Marks(if i == j then entries + [e] else entries)
  {
    MarksOfStamp(log, first, i, emits, e.at, j);
    assert (entries + [e])[..|entries|] == entries;
    assert MarksOf(log, j) + [] == MarksOf(log, j);
  }

  // Writing events, with or without a new monitor row, and recording them in the history.
  lemma WriteKeepsLog(w: World, v: World, i: nat, emits: seq<Emit>, e: Entry)
    requires LogOk(w) && Sized(v) && |v.past| == |w.past| && i < |w.past|
    requires v.log == w.log + Stamp(w.db.nextEvent, i, emits, e.at) && v.pruned == w.pruned
    requires v.db.events == w.db.events + Stamp(w.db.nextEvent, i, emits, e.at)
    requires v.db.nextEvent == w.db.nextEvent + |emits|
    requires v.past[i].entries == w.past[i].entries + [e] && e.emits == Types(emits)
    requires forall j :: 0 <= j < |w.past| && j != i ==> v.past[j] == w.past[j]
    ensures LogOk(v)
  {
    StampIds(w.db.nextEvent, i, emits, e.at);
    KeepStamp(w.log, w.pruned, w.db.nextEvent, i, emits, e.at);
    forall j | 0 <= j < |v.past|
      ensures MarksOf(v.log, j) == Marks(v.past[j].entries)
    {
      WriteKeepsMarks(w.log, w.past[j].entries, w.db.nextEvent, i, emits, e, j);
    }
  }

  lemma TouchKeepsLog(w: World, i: nat, c: Change, source: Source, at: Time)
    requires LogOk(w) && i < |w.past|
    ensures LogOk(Touch(w, i, c, source, at))
  {
    WriteKeepsLog(w, Touch(w, i, c, source, at), i, c.emits, Entry(at, source, c.row.state, Types(c.emits)));
  }

  lemma {:induction false} EvaluateRowsKeepLog(w: World, rows: seq<Claimed>, at: Time)
    requires LogOk(w) && forall k :: 0 <= k < |rows| ==> rows[k].id < |w.db.monitors|
    ensures LogOk(EvaluateRows(w, rows, at))
    decreases |rows|
  {
    if |rows| > 0 {
      var c := EvaluateChange(rows[0].row, w.db.monitors[rows[0].id]);
      TouchKeepsLog(w, rows[0].id, c, Evaluated, at);
      EvaluateRowsKeepLog(Touch(w, rows[0].id, c, Evaluated, at), rows[1..], at);
    }
  }

  lemma {:induction false} NoMarks(log: seq<Event>, i: nat)
    requires forall e :: e in log ==> e.monitor != i
    ensures MarksOf(log, i) == []
  {
    if |log| > 0 { NoMarks(log[..|log| - 1], i); }
  }

  lemma DispatchKeepsLog(cal: Calendar, w: World, send: SendResult, at: Time, recorded: bool)
    requires LogOk(w) && Enabled(w, DispatchNext(send, at, recorded))
    ensures LogOk(Do(cal, w, DispatchNext(send, at, recorded)))
  {
    var job := w.jobs[0];
    if recorded && Judge(job, send).GiveUp? {
      var emits := [FailureEvent(Judge(job, send).reason)];
      assert Types(emits) == [AlertFailedEvent];
      WriteKeepsLog(w, Do(cal, w, DispatchNext(send, at, recorded)), job.monitor, emits,
                    Entry(at, DeliveryFailure, w.db.monitors[job.monitor].state, [AlertFailedEvent]));
    }
  }

  lemma FlagKeepsLog(cal: Calendar, w: World, s: Step)
    requires LogOk(w) && Enabled(w, s) && (s.Pause? || s.Mute? || s.Resume?)
    ensures LogOk(Do(cal, w, s))
  {
    match s
    case Pause(i, at) => TouchKeepsLog(w, i, PauseChange(w.db.monitors[i], at), Flagged, at);
    case Mute(i, muted, at) => TouchKeepsLog(w, i, MuteChange(w.db.monitors[i], muted), Flagged, at);
    case Resume(i, at) =>
      var r := ResumeChange(cal, w.db.monitors[i], at);
      if r.Ok? { TouchKeepsLog(w, i, r.value, Resumption, at); }
  }

  lemma ReportKeepsLog(cal: Calendar, w: World, s: Step)
    requires LogOk(w) && Enabled(w, s) && (s.CheckIn? || s.Probe?)
    ensures LogOk(Do(cal, w, s))
  {
    match s
    case CheckIn(i, kind, at) =>
      var r := CheckinChange(cal, w.db.monitors[i], kind, at);
      if r.Ok? { TouchKeepsLog(AddCheckin(w, i, kind, at), i, r.value, Reported(kind), at); }
    case Probe(i, o, at) =>
      TouchKeepsLog(Probing(w, i, o, at), i, ProbeChange(w.db.monitors[i], o), Probed, at);
  }

  lemma StepKeepsLog(cal: Calendar, w: World, s: Step)
    requires LogOk(w) && Enabled(w, s)
    ensures LogOk(Do(cal, w, s))
  {
    if s.Pause? || s.Mute? || s.Resume? {
      FlagKeepsLog(cal, w, s);
    } else if s.CheckIn? || s.Probe? {
      ReportKeepsLog(cal, w, s);
    } else {
      match s
      case Create(_) => NoMarks(w.log, |w.past|);
      case Commit(r) => EvaluateRowsKeepLog(w.(claims := w.claims - {r}), w.claims[r].rows, w.claims[r].at);
      case DispatchNext(send, at, recorded) => DispatchKeepsLog(cal, w, send, at, recorded);
      case Prune(doomed, _) => KeepTwice(w.log, w.pruned, doomed);
      case _ =>
    }
  }

  lemma {:induction false} RunKeepsLog(cal: Calendar, ws: seq<World>, steps: seq<Step>, k: nat)
    requires Run(cal, ws, steps) && k < |ws|
    ensures LogOk(ws[k])
  {
    if k > 0 {
      RunKeepsLog(cal, ws, steps, k - 1);
      assert StepsTo(cal, ws[k - 1], steps[k - 1], ws[k - 1 + 1]);
      StepKeepsLog(cal, ws[k - 1], steps[k - 1]);
    }
  }
}
