/** What a monitor's history says about its row: the state is `down` exactly when
  * the latest of its down / up / resume events is `down`, and the deadline is the
  * one armed last.
  */
module Timeline {
  import opened Model
  import opened Schedule
  import opened Rows
  import opened Engine
  import opened Columns

  // A down, up or resume event of one monitor.
  datatype Mark = Mark(at: Time, typ: EventType)

  predicate IsMark(t: EventType) {
    t.DownEvent? || t.UpEvent? || t.ResumeEvent?
  }

  function MarksIn(emits: seq<EventType>, at: Time): seq<Mark> {
    if |emits| == 0 then []
    else (if IsMark(emits[0]) then [Mark(at, emits[0])] else []) + MarksIn(emits[1..], at)
  }

  function Marks(entries: seq<Entry>): seq<Mark> {
    if |entries| == 0 then []
    else
      var last := entries[|entries| - 1];
      Marks(entries[..|entries| - 1]) + MarksIn(last.emits, last.at)
  }

  predicate DownNow(marks: seq<Mark>) {
    |marks| > 0 && marks[|marks| - 1].typ.DownEvent?
  }

  predicate Follows(marks: seq<Mark>, k: nat)
    requires k < |marks|
  {
    match marks[k].typ
    case UpEvent => k > 0 && marks[k - 1].typ.DownEvent?
    case DownEvent => k == 0 || !marks[k - 1].typ.DownEvent?
    case ResumeEvent => true
    case _ => false
  }

  // Every up directly follows a down, and no two downs are adjacent.
  predicate Alternating(marks: seq<Mark>) {
    forall k :: 0 <= k < |marks| ==> Follows(marks, k)
  }

  // After every transaction of the history, state and latest mark agree.
  predicate Agrees(entries: seq<Entry>) {
    |entries| == 0 ||
    (Agrees(entries[..|entries| - 1]) && (entries[|entries| - 1].state.Down? <==> DownNow(Marks(entries))))
  }

  function Current(entries: seq<Entry>): State {
    if |entries| == 0 then New else entries[|entries| - 1].state
  }

  predicate HistoryOk(m: Monitor, p: Past) {
    m.state == Current(p.entries) &&
    (m.kind.Heartbeat? ==> p.serial) &&
    (p.serial <==> Agrees(p.entries) && Alternating(Marks(p.entries)))
  }

  // ---------------------------------------------------------------- deadlines

  predicate Arms(e: Entry) {
    e.source == Reported(Success) || e.source == Resumption
  }

  predicate MissedBySchedule(e: Entry) {
    e.source.Evaluated? && e.state.Down?
  }

  predicate BecameLate(e: Entry) {
    e.source.Evaluated? && e.state.Late?
  }

  // When the deadline was last armed, and the scheduler's lates and downs since.
  datatype Watch = Watch(armed: Option<Time>, lates: nat, downs: nat)

  function NextWatch(w: Watch, e: Entry): Watch {
    if Arms(e) then Watch(Some(e.at), 0, 0)
    else Watch(w.armed, w.lates + (if BecameLate(e) then 1 else 0), w.downs + if MissedBySchedule(e) then 1 else 0)
  }

  function WatchOf(entries: seq<Entry>): Watch {
    if |entries| == 0 then Watch(None, 0, 0)
    else NextWatch(WatchOf(entries[..|entries| - 1]), entries[|entries| - 1])
  }

  // The occurrence that an arming at time `a` waits for.
  function Occurrence(cal: Calendar, m: Monitor, a: Time): Time
    requires m.scheduleKind.Some?
  {
    match NextOccurrence(cal, ScheduleConfig(m), Some(a), a)
    case Err(_) => a
    case Ok(t) => t
  }

  predicate ValidSchedule(cal: Calendar, m: Monitor) {
    Scheduled(m) && Validate(cal, ScheduleConfig(m)).None?
  }

  // The deadline a row must carry under its watch.
  predicate DeadlineFits(cal: Calendar, m: Monitor, w: Watch) {
    (m.state.New? || m.state.Down? ==> m.nextDeadline.None?) &&
    (!Scheduled(m) ==> m.nextDeadline.None?) &&
    (Scheduled(m) && (m.state.Up? || m.state.Late?) ==>
       ValidSchedule(cal, m) && w.armed.Some? && w.downs == 0 && w.lates == (if m.state.Late? then 1 else 0) &&
       m.nextDeadline == Some(Occurrence(cal, m, w.armed.value) + if m.state.Late? then Grace(m) else 0))
  }

  predicate DeadlineOk(cal: Calendar, m: Monitor, entries: seq<Entry>) {
    DeadlineFits(cal, m, WatchOf(entries))
  }

  // The scheduler makes a monitor late after the armed occurrence, and takes it down
  // after the occurrence plus grace, each once for an arming and in this order.
  predicate Timely(cal: Calendar, m: Monitor, w: Watch, e: Entry) {
    (BecameLate(e) || MissedBySchedule(e) ==>
       ValidSchedule(cal, m) && w.armed.Some? && w.downs == 0 && w.lates == (if MissedBySchedule(e) then 1 else 0) &&
       e.at > Occurrence(cal, m, w.armed.value) + if MissedBySchedule(e) then Grace(m) else 0)
  }

  predicate OnTime(cal: Calendar, m: Monitor, entries: seq<Entry>) {
    forall b :: 0 <= b < |entries| ==> Timely(cal, m, WatchOf(entries[..b]), entries[b])
  }

  predicate SameConfig(m: Monitor, n: Monitor) {
    m.kind == n.kind && m.scheduleKind == n.scheduleKind && m.periodS == n.periodS && m.cronExpr == n.cronExpr &&
    m.tz == n.tz && m.graceS == n.graceS && m.autoResume == n.autoResume && m.reminderEveryS == n.reminderEveryS
  }

  ghost predicate Consistent(cal: Calendar, m: Monitor, p: Past) {
    HistoryOk(m, p) && DeadlineOk(cal, m, p.entries) && OnTime(cal, m, p.entries) &&
    Carries(m, ColumnsOf(p.entries, m.autoResume)) && LeavesPausedAlone(p.entries, m.autoResume)
  }

  // The scheduler moved the monitor only while it was not paused.
  predicate LeavesPausedAlone(entries: seq<Entry>, autoResume: bool) {
    forall b :: 0 <= b < |entries| ==> entries[b].source.Evaluated? ==> ColumnsOf(entries[..b], autoResume).pausedAt.None?
  }

  // ------------------------------------------------- one transaction, one monitor

  // The change and the entry that a transaction of the given source makes.
  ghost predicate Legal(cal: Calendar, m: Monitor, c: Change, e: Entry) {
    e.state == c.row.state && e.emits == Types(c.emits) &&
    match e.source
    case Reported(kind) => CheckinChange(cal, m, kind, e.at) == Ok(c)
    case Evaluated => Due(m, e.at) && c == EvaluateChange(m, m)
    case Flagged => c == PauseChange(m, e.at) || (exists muted :: c == MuteChange(m, muted))
    case Resumption => ResumeChange(cal, m, e.at) == Ok(c)
    case Probed => m.kind.Http? && exists o :: c == ProbeChange(m, o)
    case DeliveryFailure => c.row == m && e.emits == [AlertFailedEvent]
  }

  // What a transaction's marks say about the state it leaves.
  predicate Marked(before: State, after: State, marks: seq<Mark>) {
    (marks == [] && (before.Down? <==> after.Down?)) ||
    (|marks| == 1 && marks[0].typ.DownEvent? && !before.Down? && after.Down?) ||
    (|marks| == 1 && marks[0].typ.UpEvent? && before.Down? && !after.Down?) ||
    (|marks| == 1 && marks[0].typ.ResumeEvent? && !after.Down?)
  }

  lemma MarksOfOne(t: EventType, at: Time)
    ensures MarksIn([t], at) == if IsMark(t) then [Mark(at, t)] else []
  {
  }

  lemma CheckInIsMarked(cal: Calendar, m: Monitor, c: Change, e: Entry)
    requires Legal(cal, m, c, e) && e.source.Reported?
    ensures Marked(m.state, c.row.state, MarksIn(e.emits, e.at))
  {
    if |e.emits| == 1 { MarksOfOne(e.emits[0], e.at); }
  }

  lemma LegalIsMarked(cal: Calendar, m: Monitor, c: Change, e: Entry)
    requires Legal(cal, m, c, e) && !e.source.Probed? && !e.source.Reported?
    ensures Marked(m.state, c.row.state, MarksIn(e.emits, e.at))
  {
    if |e.emits| == 1 { MarksOfOne(e.emits[0], e.at); }
  }

  // A certificate warning is not a mark.
  lemma ProbeMarks(row: Monitor, o: ProbeOutcome, at: Time)
    ensures MarksIn(Types(ProbeChange(row, o).emits), at) == MarksIn(Types(TransitionEmits(o)), at)
  {
    var transition, tls := TransitionEmits(o), TlsEmits(o);
    TypesAppend(transition, tls);
    MarksInAppend(Types(transition), Types(tls), at);
    assert MarksIn(Types(tls), at) == [];
  }

  // A probe fits the history exactly when its snapshot agreed on being down.
  lemma ProbeIsMarkedIff(m: Monitor, o: ProbeOutcome, at: Time)
    ensures Marked(m.state, ProbeChange(m, o).row.state, MarksIn(Types(ProbeChange(m, o).emits), at)) <==> AgreesOnDown(m, o)
    ensures |MarksIn(Types(ProbeChange(m, o).emits), at)| <= 1
  {
    ProbeMarks(m, o, at);
    if |TransitionEmits(o)| == 1 {
      assert Types(TransitionEmits(o)) == [TransitionEmits(o)[0].typ];
      MarksOfOne(TransitionEmits(o)[0].typ, at);
    }
  }

  lemma {:induction false} TypesAppend(a: seq<Emit>, b: seq<Emit>)
    ensures Types(a + b) == Types(a) + Types(b)
  {
    if |a| == 0 {
      assert a + b == b;
    } else {
      assert (a + b)[1..] == a[1..] + b;
      TypesAppend(a[1..], b);
    }
  }

  lemma {:induction false} MarksInAppend(a: seq<EventType>, b: seq<EventType>, at: Time)
    ensures MarksIn(a + b, at) == MarksIn(a, at) + MarksIn(b, at)
  {
    if |a| == 0 {
      assert a + b == b;
    } else {
      assert (a + b)[1..] == a[1..] + b;
      MarksInAppend(a[1..], b, at);
    }
  }

  lemma {:induction false} MarksAreMarks(emits: seq<EventType>, at: Time)
    ensures forall k :: 0 <= k < |MarksIn(emits, at)| ==> IsMark(MarksIn(emits, at)[k].typ)
  {
    if |emits| > 0 { MarksAreMarks(emits[1..], at); }
  }

  lemma {:induction false} CurrentFollowsMarks(entries: seq<Entry>)
    requires Agrees(entries)
    ensures Current(entries).Down? <==> DownNow(Marks(entries))
  {
  }

  // One more transaction keeps the alternation exactly when its marks fit.
  lemma OneMoreMark(before: seq<Mark>, more: seq<Mark>, m: State, row: State)
    requires Alternating(before) && (m.Down? <==> DownNow(before))
    requires |more| <= 1 && forall k :: 0 <= k < |more| ==> IsMark(more[k].typ)
    ensures Marked(m, row, more) <==> Alternating(before + more) && (row.Down? <==> DownNow(before + more))
  {
    var after := before + more;
    forall k | 0 <= k < |before|
      ensures Follows(after, k)
    {
      assert Follows(before, k);
    }
    if |more| == 0 {
      assert after == before;
    } else {
      assert Alternating(after) <==> Follows(after, |before|);
    }
  }

  lemma FrontAlternates(before: seq<Mark>, more: seq<Mark>)
    requires Alternating(before + more)
    ensures Alternating(before)
  {
    forall k | 0 <= k < |before|
      ensures Follows(before, k)
    {
      assert Follows(before + more, k);
    }
  }

  // One more transaction keeps the history sound exactly when its marks fit.
  lemma HistoryStep(m: Monitor, p: Past, row: Monitor, e: Entry, serial: bool)
    requires HistoryOk(m, p) && row.kind == m.kind && e.state == row.state
    requires |MarksIn(e.emits, e.at)| <= 1
    requires serial <==> p.serial && Marked(m.state, row.state, MarksIn(e.emits, e.at))
    requires m.kind.Heartbeat? ==> serial
    ensures HistoryOk(row, Past(p.entries + [e], serial))
  {
    var entries, before, more := p.entries + [e], Marks(p.entries), MarksIn(e.emits, e.at);
    assert entries[..|entries| - 1] == p.entries && Marks(entries) == before + more;
    if p.serial {
      CurrentFollowsMarks(p.entries);
      MarksAreMarks(e.emits, e.at);
      OneMoreMark(before, more, m.state, row.state);
    } else if Agrees(entries) && Alternating(Marks(entries)) {
      FrontAlternates(before, more);
    }
  }

  lemma CheckInKeepsDeadline(cal: Calendar, m: Monitor, w: Watch, c: Change, e: Entry)
    requires DeadlineFits(cal, m, w) && Legal(cal, m, c, e) && e.source.Reported?
    ensures DeadlineFits(cal, c.row, NextWatch(w, e)) && SameConfig(m, c.row)
  {
  }

  lemma EvaluateKeepsDeadline(cal: Calendar, m: Monitor, w: Watch, c: Change, e: Entry)
    requires DeadlineFits(cal, m, w) && Legal(cal, m, c, e) && e.source.Evaluated?
    ensures DeadlineFits(cal, c.row, NextWatch(w, e)) && SameConfig(m, c.row)
  {
  }

  lemma FlagKeepsDeadline(cal: Calendar, m: Monitor, w: Watch, c: Change, e: Entry)
    requires DeadlineFits(cal, m, w) && Legal(cal, m, c, e) && (e.source.Flagged? || e.source.Resumption?)
    ensures DeadlineFits(cal, c.row, NextWatch(w, e)) && SameConfig(m, c.row)
  {
  }

  lemma ProbeKeepsDeadline(cal: Calendar, m: Monitor, w: Watch, c: Change, e: Entry)
    requires DeadlineFits(cal, m, w) && Legal(cal, m, c, e) && e.source.Probed?
    ensures DeadlineFits(cal, c.row, NextWatch(w, e)) && SameConfig(m, c.row)
  {
    var o :| c == ProbeChange(m, o);
    assert SameConfig(m, c.row) && c.row.nextDeadline == m.nextDeadline;
  }

  lemma FailureKeepsDeadline(cal: Calendar, m: Monitor, w: Watch, c: Change, e: Entry)
    requires DeadlineFits(cal, m, w) && Legal(cal, m, c, e) && e.source.DeliveryFailure?
    ensures DeadlineFits(cal, c.row, NextWatch(w, e)) && SameConfig(m, c.row)
  {
  }

  lemma DeadlineOkStep(cal: Calendar, m: Monitor, entries: seq<Entry>, c: Change, e: Entry)
    requires DeadlineOk(cal, m, entries) && Legal(cal, m, c, e)
    ensures DeadlineOk(cal, c.row, entries + [e]) && SameConfig(m, c.row)
  {
    assert (entries + [e])[..|entries|] == entries;
    var w := WatchOf(entries);
    if e.source.Reported? { CheckInKeepsDeadline(cal, m, w, c, e); }
    else if e.source.Evaluated? { EvaluateKeepsDeadline(cal, m, w, c, e); }
    else if e.source.Flagged? || e.source.Resumption? { FlagKeepsDeadline(cal, m, w, c, e); }
    else if e.source.Probed? { ProbeKeepsDeadline(cal, m, w, c, e); }
    else { FailureKeepsDeadline(cal, m, w, c, e); }
  }

  // The scheduler only moves a due row, whose deadline is the armed one.
  lemma DueIsTimely(cal: Calendar, m: Monitor, w: Watch, c: Change, e: Entry)
    requires DeadlineFits(cal, m, w) && Legal(cal, m, c, e)
    ensures Timely(cal, m, w, e)
  {
  }

  lemma OnTimeStep(cal: Calendar, m: Monitor, row: Monitor, entries: seq<Entry>, e: Entry)
    requires OnTime(cal, m, entries) && SameConfig(m, row) && Timely(cal, m, WatchOf(entries), e)
    ensures OnTime(cal, row, entries + [e])
  {
    var after := entries + [e];
    forall b | 0 <= b < |after|
      ensures Timely(cal, row, WatchOf(after[..b]), after[b])
    {
      if b < |entries| {
        assert after[..b] == entries[..b] && Timely(cal, m, WatchOf(entries[..b]), entries[b]);
      } else {
        assert after[..b] == entries;
      }
    }
  }

  lemma {:induction false} TypesAt(emits: seq<Emit>, k: nat)
    requires k < |emits|
    ensures Types(emits)[k] == emits[k].typ
  {
    if k > 0 { TypesAt(emits[1..], k - 1); }
  }

  // Every transaction moves the row's counters and flags as its entry says.
  lemma ReportMovesColumns(cal: Calendar, m: Monitor, before: Columns, c: Change, e: Entry)
    requires Carries(m, before) && Legal(cal, m, c, e) && e.source.Reported?
    ensures Carries(c.row, NextColumns(before, e, m.autoResume))
  {
    OneEmit(c.emits);
  }

  lemma EvaluationMovesColumns(cal: Calendar, m: Monitor, before: Columns, c: Change, e: Entry)
    requires Carries(m, before) && Legal(cal, m, c, e) && e.source.Evaluated?
    ensures Carries(c.row, NextColumns(before, e, m.autoResume))
  {
    OneEmit(c.emits);
  }

  lemma OneEmit(emits: seq<Emit>)
    ensures |emits| == 1 ==> Types(emits) == [emits[0].typ]
  {
    if |emits| == 1 { TypesAt(emits, 0); }
  }

  lemma FlagMovesColumns(cal: Calendar, m: Monitor, before: Columns, c: Change, e: Entry)
    requires Carries(m, before) && Legal(cal, m, c, e) && (e.source.Flagged? || e.source.Resumption?)
    ensures Carries(c.row, NextColumns(before, e, m.autoResume))
  {
    TypesAt(c.emits, 0);
    assert e.emits == [c.emits[0].typ];
  }

  lemma ProbeSetsNoFlag(m: Monitor, o: ProbeOutcome)
    ensures |ProbeChange(m, o).emits| > 0 ==>
              var typ := Types(ProbeChange(m, o).emits)[0]; typ.DownEvent? || typ.UpEvent? || typ.TlsExpiryEvent?
  {
    if |ProbeChange(m, o).emits| > 0 { TypesAt(ProbeChange(m, o).emits, 0); }
  }

  lemma OthersKeepColumns(cal: Calendar, m: Monitor, before: Columns, c: Change, e: Entry)
    requires Carries(m, before) && Legal(cal, m, c, e) && (e.source.Probed? || e.source.DeliveryFailure?)
    ensures Carries(c.row, NextColumns(before, e, m.autoResume))
  {
    if e.source.Probed? {
      var o :| c == ProbeChange(m, o);
      ProbeSetsNoFlag(m, o);
    }
  }

  lemma ColumnsStep(cal: Calendar, m: Monitor, entries: seq<Entry>, c: Change, e: Entry)
    requires Carries(m, ColumnsOf(entries, m.autoResume)) && Legal(cal, m, c, e)
    ensures Carries(c.row, ColumnsOf(entries + [e], m.autoResume))
  {
    assert (entries + [e])[..|entries|] == entries;
    var before := ColumnsOf(entries, m.autoResume);
    if e.source.Reported? { ReportMovesColumns(cal, m, before, c, e); }
    else if e.source.Evaluated? { EvaluationMovesColumns(cal, m, before, c, e); }
    else if e.source.Flagged? || e.source.Resumption? { FlagMovesColumns(cal, m, before, c, e); }
    else { OthersKeepColumns(cal, m, before, c, e); }
  }

  lemma LegalHasOneMark(cal: Calendar, m: Monitor, c: Change, e: Entry)
    requires Legal(cal, m, c, e) && !e.source.Probed?
    ensures Marked(m.state, c.row.state, MarksIn(e.emits, e.at)) && |MarksIn(e.emits, e.at)| <= 1
  {
    if e.source.Reported? { CheckInIsMarked(cal, m, c, e); } else { LegalIsMarked(cal, m, c, e); }
  }

  // A due row is not paused.
  lemma PauseStep(cal: Calendar, m: Monitor, entries: seq<Entry>, c: Change, e: Entry)
    requires LeavesPausedAlone(entries, m.autoResume) && Carries(m, ColumnsOf(entries, m.autoResume)) && Legal(cal, m, c, e)
    ensures LeavesPausedAlone(entries + [e], m.autoResume)
  {
    var after := entries + [e];
    forall b | 0 <= b < |after| && after[b].source.Evaluated?
      ensures ColumnsOf(after[..b], m.autoResume).pausedAt.None?
    {
      if b < |entries| {
        assert after[..b] == entries[..b] && after[b] == entries[b];
      } else {
        assert after[..b] == entries;
      }
    }
  }

  lemma ConsistentStep(cal: Calendar, m: Monitor, p: Past, c: Change, e: Entry, serial: bool)
    requires Consistent(cal, m, p) && Legal(cal, m, c, e)
    requires |MarksIn(e.emits, e.at)| <= 1 && (m.kind.Heartbeat? ==> serial)
    requires serial <==> p.serial && Marked(m.state, c.row.state, MarksIn(e.emits, e.at))
    ensures Consistent(cal, c.row, Past(p.entries + [e], serial)) && SameConfig(m, c.row)
  {
    DeadlineOkStep(cal, m, p.entries, c, e);
    DueIsTimely(cal, m, WatchOf(p.entries), c, e);
    OnTimeStep(cal, m, c.row, p.entries, e);
    HistoryStep(m, p, c.row, e, serial);
    ColumnsStep(cal, m, p.entries, c, e);
    PauseStep(cal, m, p.entries, c, e);
  }
}
