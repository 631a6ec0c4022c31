/** What a transaction leaves in the tables, in columns: the vocabulary in which the
  * store's methods state their effects.
  */
module Effects {
  import opened Model
  import opened Schedule
  import opened Rows

  datatype Transition = NoTransition | WentUp | WentDown

  // The timeline and the outbox are as they were.
  predicate Quiet(before: Db, after: Db) {
    after.events == before.events && after.alerts == before.alerts &&
    after.nextEvent == before.nextEvent && after.nextAlert == before.nextAlert
  }

  // One event of monitor i and no alert.
  predicate Noted(before: Db, after: Db, i: nat, typ: EventType, message: Message, at: Time) {
    after.events == before.events + [Event(before.nextEvent, i, typ, message, None, at)] &&
    after.nextEvent == before.nextEvent + 1 && after.alerts == before.alerts && after.nextAlert == before.nextAlert
  }

  // An event to be written, with its alert.
  datatype Notice = Notice(typ: EventType, message: Message, meta: Option<Instant>)

  // The given events of monitor i, in order, and for each a pending alert that refers to
  // it and is due at once.
  predicate Announced(before: Db, after: Db, i: nat, notices: seq<Notice>, at: Time) {
    var n := |notices|;
    |after.events| == |before.events| + n && |after.alerts| == |before.alerts| + n &&
    after.nextEvent == before.nextEvent + n && after.nextAlert == before.nextAlert + n &&
    before.events <= after.events && before.alerts <= after.alerts &&
    forall k :: 0 <= k < n ==> AnnouncedAt(before, after, i, notices[k], k, at)
  }

  predicate AnnouncedAt(before: Db, after: Db, i: nat, notice: Notice, k: nat, at: Time)
    requires |before.events| + k < |after.events| && |before.alerts| + k < |after.alerts|
  {
    after.events[|before.events| + k] == Event(before.nextEvent + k, i, notice.typ, notice.message, notice.meta, at) &&
    after.alerts[|before.alerts| + k] == Alert(before.nextAlert + k, i, before.nextEvent + k, Pending, 0, at, None, at, false)
  }

  // Only the timeline and the outbox before matter.
  lemma AnnouncedSince(before: Db, same: Db, after: Db, i: nat, notices: seq<Notice>, at: Time)
    requires Announced(same, after, i, notices, at) && Quiet(before, same)
    ensures Announced(before, after, i, notices, at)
  {
    forall k | 0 <= k < |notices|
      ensures AnnouncedAt(before, after, i, notices[k], k, at)
    {
      assert AnnouncedAt(same, after, i, notices[k], k, at);
    }
  }

  // Check-in and probe logs are as they were.
  predicate SameLogs(before: Db, after: Db) {
    after.checkins == before.checkins && after.probeResults == before.probeResults
  }

  // The notices as the events of a transaction.
  function AsEmits(notices: seq<Notice>): (emits: seq<Emit>)
    ensures |emits| == |notices|
  {
    if |notices| == 0 then []
    else [Emit(notices[0].typ, notices[0].message, notices[0].meta, true)] + AsEmits(notices[1..])
  }

  lemma {:induction false} NoticesAppend(a: seq<Notice>, b: seq<Notice>)
    ensures AsEmits(a + b) == AsEmits(a) + AsEmits(b)
  {
    if |a| == 0 {
      assert a + b == b;
    } else {
      assert (a + b)[1..] == a[1..] + b;
      NoticesAppend(a[1..], b);
    }
  }

  // Writing a transaction's alerting events announces them.
  lemma {:induction false} LogEventsAnnounce(db: Db, i: nat, notices: seq<Notice>, at: Time)
    ensures Announced(db, LogEvents(db, i, AsEmits(notices), at), i, notices, at)
    decreases |notices|
  {
    if |notices| > 0 {
      var next := LogEvent(db, i, AsEmits(notices)[0], at);
      LogEventsAnnounce(next, i, notices[1..], at);
      assert AsEmits(notices)[1..] == AsEmits(notices[1..]);
      AnnouncedTwice(db, next, LogEvents(next, i, AsEmits(notices[1..]), at), i, [notices[0]], notices[1..], at);
      assert [notices[0]] + notices[1..] == notices;
    }
  }

  lemma AnnouncedTwice(a: Db, b: Db, c: Db, i: nat, first: seq<Notice>, second: seq<Notice>, at: Time)
    requires Announced(a, b, i, first, at) && Announced(b, c, i, second, at)
    ensures Announced(a, c, i, first + second, at)
  {
    var n, both := |first|, first + second;
    forall k | 0 <= k < |both|
      ensures AnnouncedAt(a, c, i, both[k], k, at)
    {
      if k < n {
        assert AnnouncedAt(a, b, i, first[k], k, at);
      } else {
        assert AnnouncedAt(b, c, i, second[k - n], k - n, at);
      }
    }
  }

  // -------------------------------------------------------------------- check-ins

  // A recovery is announced, and a failure of a monitor that was not down.
  function NoticesOfCheckin(state: State, kind: CheckinKind): seq<Notice> {
    if kind.Success? && state.Down? then [Notice(UpEvent, Recovered, None)]
    else if kind.Fail? && !state.Down? then [Notice(DownEvent, ReportedFailure, None)]
    else []
  }

  lemma CheckinEmits(cal: Calendar, m: Monitor, kind: CheckinKind, now: Time)
    requires CheckinChange(cal, m, kind, now).Ok?
    ensures CheckinChange(cal, m, kind, now).value.emits == AsEmits(NoticesOfCheckin(m.state, kind))
  {
    if |NoticesOfCheckin(m.state, kind)| == 1 { OneNotice(NoticesOfCheckin(m.state, kind)[0]); }
  }

  lemma OneNotice(n: Notice)
    ensures AsEmits([n]) == [Emit(n.typ, n.message, n.meta, true)]
  {
  }

  // What the engine's check-in change announces.
  lemma CheckinAnnounces(cal: Calendar, db: Db, i: nat, kind: CheckinKind, now: Time)
    requires i < |db.monitors| && CheckinChange(cal, db.monitors[i], kind, now).Ok?
    ensures var c := CheckinChange(cal, db.monitors[i], kind, now).value;
            Announced(db, Apply(db.(checkins := db.checkins + [Checkin(i, kind, now)]), i, c, now), i,
                      NoticesOfCheckin(db.monitors[i].state, kind), now)
  {
    var c := CheckinChange(cal, db.monitors[i], kind, now).value;
    CheckinEmits(cal, db.monitors[i], kind, now);
    var logged := db.(checkins := db.checkins + [Checkin(i, kind, now)]);
    ChangeAnnounces(logged, i, c, NoticesOfCheckin(db.monitors[i].state, kind), now);
    AnnouncedSince(db, logged, Apply(logged, i, c, now), i, NoticesOfCheckin(db.monitors[i].state, kind), now);
  }

  lemma ChangeAnnounces(db: Db, i: nat, c: Change, notices: seq<Notice>, at: Time)
    requires i < |db.monitors| && c.emits == AsEmits(notices)
    ensures Announced(db, Apply(db, i, c, at), i, notices, at)
  {
    var start := db.(monitors := db.monitors[i := c.row]);
    LogEventsAnnounce(start, i, notices, at);
    AnnouncedSince(db, start, Apply(db, i, c, at), i, notices, at);
  }

  // ----------------------------------------------------------------------- probes

  // The certificate expires within fourteen days, and its expiry, to the second, is not the
  // one last warned about.
  predicate ExpiresSoon(o: ProbeOutcome) {
    o.tlsExpiresAt.Some? && o.tlsExpiresAt.value - o.now <= 1_209_600_000_000_000 &&
    (o.priorTlsWarned.Some? ==> o.priorTlsWarned.value / 1_000_000_000 != o.tlsExpiresAt.value / 1_000_000_000)
  }

  // The failure brings the streak that the prober saw to the threshold, two by default.
  predicate ConfirmsDown(o: ProbeOutcome) {
    !o.ok && o.priorFailStreak + 1 >= if o.failThreshold <= 0 then 2 else o.failThreshold
  }

  function TransitionNotices(o: ProbeOutcome): seq<Notice> {
    if ConfirmsDown(o) && o.priorState != Some(Down) then [Notice(DownEvent, ProbeFailed(o.error), None)]
    else if o.ok && o.priorState == Some(Down) then [Notice(UpEvent, Recovered, None)]
    else []
  }

  function ExpiryNotices(o: ProbeOutcome): seq<Notice> {
    if ExpiresSoon(o) then [Notice(TlsExpiryEvent, CertificateExpires, o.tlsExpiresAt)] else []
  }

  // One recorded probe: the log entry; the monitor up without a streak after a success, and
  // after a failure down when confirmed, else as the prober saw it; the next probe as the
  // prober planned it; and the events with their alerts.
  predicate ProbeRecorded(before: Db, after: Db, i: nat, o: ProbeOutcome, at: Time, state: State, transition: Transition)
    requires i < |before.monitors|
  {
    state == (if o.ok then Up else if ConfirmsDown(o) then Down else if o.priorState.Some? then o.priorState.value else Up) &&
    (transition.WentDown? <==> ConfirmsDown(o) && o.priorState != Some(Down)) &&
    (transition.WentUp? <==> o.ok && o.priorState == Some(Down)) &&
    after.monitors == before.monitors[i := ProbedRow(before.monitors[i], o, state)] &&
    after.probeResults == before.probeResults + [ProbeResult(i, o.ok, o.latencyMs, at)] && after.checkins == before.checkins &&
    Announced(before, after, i, TransitionNotices(o) + ExpiryNotices(o), at)
  }

  function ProbedRow(m: Monitor, o: ProbeOutcome, state: State): Monitor {
    m.(state := state, failStreak := if o.ok then 0 else o.priorFailStreak + 1, nextProbeAt := Some(o.nextProbeAt),
       tlsWarnedExpiresAt :=
         if ExpiresSoon(o) then Some(o.tlsExpiresAt.value - o.tlsExpiresAt.value % 1000) else m.tlsWarnedExpiresAt)
  }

  lemma ProbeEmitsNotices(m: Monitor, o: ProbeOutcome)
    ensures ProbeChange(m, o).emits == AsEmits(TransitionNotices(o) + ExpiryNotices(o))
  {
    NoticesAppend(TransitionNotices(o), ExpiryNotices(o));
    assert TransitionEmits(o) == AsEmits(TransitionNotices(o)) by {
      if |TransitionNotices(o)| == 1 { OneNotice(TransitionNotices(o)[0]); }
    }
    assert TlsEmits(o) == AsEmits(ExpiryNotices(o)) by {
      if |ExpiryNotices(o)| == 1 { OneNotice(ExpiryNotices(o)[0]); }
    }
  }

  lemma ProbedRowIsEngine(m: Monitor, o: ProbeOutcome)
    ensures ProbeChange(m, o).row == ProbedRow(m, o, ProbeChange(m, o).row.state)
    ensures ProbeChange(m, o).row.state ==
            if o.ok then Up else if ConfirmsDown(o) then Down else if o.priorState.Some? then o.priorState.value else Up
  {
  }

  lemma TransitionIsNoticed(o: ProbeOutcome)
    ensures TransitionEmits(o) == [Emit(DownEvent, ProbeFailed(o.error), None, true)] <==>
            ConfirmsDown(o) && o.priorState != Some(Down)
    ensures TransitionEmits(o) == [Emit(UpEvent, Recovered, None, true)] <==> o.ok && o.priorState == Some(Down)
  {
    if |TransitionEmits(o)| == 1 { assert TransitionEmits(o)[0].typ.DownEvent? <==> NextProbeState(o).0.Down?; }
  }

  lemma ChangeIsRecorded(db: Db, i: nat, c: Change, o: ProbeOutcome, at: Time, transition: Transition)
    requires i < |db.monitors| && c.row == ProbedRow(db.monitors[i], o, c.row.state)
    requires c.emits == AsEmits(TransitionNotices(o) + ExpiryNotices(o))
    requires c.row.state == if o.ok then Up else if ConfirmsDown(o) then Down else if o.priorState.Some? then o.priorState.value else Up
    requires transition.WentDown? <==> ConfirmsDown(o) && o.priorState != Some(Down)
    requires transition.WentUp? <==> o.ok && o.priorState == Some(Down)
    ensures ProbeRecorded(db, Apply(db.(probeResults := db.probeResults + [ProbeResult(i, o.ok, o.latencyMs, at)]), i, c, at),
                          i, o, at, c.row.state, transition)
  {
    var logged := db.(probeResults := db.probeResults + [ProbeResult(i, o.ok, o.latencyMs, at)]);
    ChangeAnnounces(logged, i, c, TransitionNotices(o) + ExpiryNotices(o), at);
    AnnouncedSince(db, logged, Apply(logged, i, c, at), i, TransitionNotices(o) + ExpiryNotices(o), at);
  }

  // The engine's probe change, in columns.
  lemma ProbeInColumns(db: Db, i: nat, o: ProbeOutcome, at: Time, transition: Transition)
    requires i < |db.monitors|
    requires transition.WentDown? <==> TransitionEmits(o) == [Emit(DownEvent, ProbeFailed(o.error), None, true)]
    requires transition.WentUp? <==> TransitionEmits(o) == [Emit(UpEvent, Recovered, None, true)]
    ensures var c := ProbeChange(db.monitors[i], o);
            ProbeRecorded(db, Apply(db.(probeResults := db.probeResults + [ProbeResult(i, o.ok, o.latencyMs, at)]), i, c, at),
                          i, o, at, c.row.state, transition)
  {
    var m := db.monitors[i];
    ProbeEmitsNotices(m, o);
    ProbedRowIsEngine(m, o);
    TransitionIsNoticed(o);
    ChangeIsRecorded(db, i, ProbeChange(m, o), o, at, transition);
  }
}
