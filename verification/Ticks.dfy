/** One scheduler transaction over the tables (backend/store/scheduler.go): which rows it
  * claims and what it leaves, column by column.
  */
module Ticks {
  import opened Model
  import opened Schedule
  import opened Rows
  import opened Engine
  import opened Selection

  function DueKeys(ms: seq<Monitor>, now: Time): (keys: seq<Option<Time>>)
    ensures |keys| == |ms|
    ensures forall i :: 0 <= i < |ms| ==> keys[i] == if Due(ms[i], now) then ms[i].nextDeadline else None
  {
    seq(|ms|, i requires 0 <= i < |ms| => if Due(ms[i], now) then ms[i].nextDeadline else None)
  }

  // claimDueMonitors, when no other replica holds locks.
  function DueIds(ms: seq<Monitor>, now: Time, limit: nat): (ids: seq<nat>)
    ensures forall k :: 0 <= k < |ids| ==> ids[k] < |ms| && Due(ms[ids[k]], now)
    ensures Distinct(ids) && |ids| <= limit
  {
    TakeEarliest(DueKeys(ms, now), limit)
  }

  // The scheduler transaction over claimed rows, on the database alone.
  function EvaluateDb(db: Db, rows: seq<Claimed>, at: Time): (r: Db)
    requires forall k :: 0 <= k < |rows| ==> rows[k].id < |db.monitors|
    ensures |r.monitors| == |db.monitors|
    decreases |rows|
  {
    if |rows| == 0 then db
    else
      var Claimed(i, claimed) := rows[0];
      EvaluateDb(Apply(db, i, EvaluateChange(claimed, db.monitors[i]), at), rows[1..], at)
  }

  lemma {:induction false} EvaluateDbIsEngine(w: World, rows: seq<Claimed>, at: Time)
    requires Sized(w) && forall k :: 0 <= k < |rows| ==> rows[k].id < |w.db.monitors|
    ensures EvaluateRows(w, rows, at).db == EvaluateDb(w.db, rows, at)
    decreases |rows|
  {
    if |rows| > 0 {
      var Claimed(i, claimed) := rows[0];
      EvaluateDbIsEngine(Touch(w, i, EvaluateChange(claimed, w.db.monitors[i]), Evaluated, at), rows[1..], at);
    }
  }

  lemma {:induction false} EvaluateDbFront(db: Db, rows: seq<Claimed>, at: Time, k: nat)
    requires k < |rows| && forall j :: 0 <= j < |rows| ==> rows[j].id < |db.monitors|
    ensures EvaluateDb(db, rows[..k + 1], at) ==
            Apply(EvaluateDb(db, rows[..k], at), rows[k].id,
                  EvaluateChange(rows[k].row, EvaluateDb(db, rows[..k], at).monitors[rows[k].id]), at)
    decreases k
  {
    if k == 0 {
      assert rows[..1] == [rows[0]] && rows[..1][1..] == [] && rows[..0] == [];
    } else {
      var Claimed(i, claimed) := rows[0];
      assert rows[..k + 1][1..] == rows[1..][..k] && rows[..k][1..] == rows[1..][..k - 1];
      EvaluateDbFront(Apply(db, i, EvaluateChange(claimed, db.monitors[i]), at), rows[1..], at, k - 1);
    }
  }

  // A row that the scheduler must act on, in columns: unpaused, in `up` or `late`, with a
  // deadline before `now`.
  predicate Overdue(m: Monitor, now: Time) {
    m.pausedAt.None? && (m.state.Up? || m.state.Late?) && m.nextDeadline.Some? && m.nextDeadline.value < now
  }

  // Distinct overdue rows by deadline, and one is left out only for `limit` others that are
  // due no later.
  ghost predicate EarliestOverdue(ms: seq<Monitor>, ids: seq<nat>, now: Time, limit: nat) {
    Distinct(ids) && |ids| <= limit && (forall k :: 0 <= k < |ids| ==> ids[k] < |ms| && Overdue(ms[ids[k]], now)) &&
    (forall j, k :: 0 <= j < k < |ids| ==> ms[ids[j]].nextDeadline.value <= ms[ids[k]].nextDeadline.value) &&
    (forall i :: 0 <= i < |ms| && i !in ids && Overdue(ms[i], now) ==>
       |ids| == limit && forall k :: 0 <= k < |ids| ==> ms[ids[k]].nextDeadline.value <= ms[i].nextDeadline.value)
  }

  lemma ClaimInColumns(ms: seq<Monitor>, now: Time, limit: nat)
    ensures EarliestOverdue(ms, DueIds(ms, now, limit), now, limit)
  {
    var ids, keys := DueIds(ms, now, limit), DueKeys(ms, now);
    forall j, k | 0 <= j < k < |ids|
      ensures ms[ids[j]].nextDeadline.value <= ms[ids[k]].nextDeadline.value
    {
      assert keys[ids[j]].value <= keys[ids[k]].value;
    }
    forall i | 0 <= i < |ms| && i !in ids && Overdue(ms[i], now)
      ensures |ids| == limit && forall k :: 0 <= k < |ids| ==> ms[ids[k]].nextDeadline.value <= ms[i].nextDeadline.value
    {
      assert keys[i].Some?;
      forall k | 0 <= k < |ids|
        ensures ms[ids[k]].nextDeadline.value <= ms[i].nextDeadline.value
      {
        assert keys[ids[k]].value <= keys[i].value;
      }
    }
  }

  // ------------------------------------------------------------- column by column

  // Each claimed row took one step and no other row changed: an `up` row is late, with
  // its grace added to the deadline; a `late` one is down, with no deadline.
  ghost predicate SteppedRows(before: seq<Monitor>, after: seq<Monitor>, ids: seq<nat>) {
    |after| == |before| && (forall k :: 0 <= k < |ids| ==> ids[k] < |before|) &&
    (forall i :: 0 <= i < |before| && i !in ids ==> after[i] == before[i]) &&
    (forall k :: 0 <= k < |ids| ==> SteppedRow(before[ids[k]], after[ids[k]]))
  }

  predicate SteppedRow(m: Monitor, n: Monitor) {
    m.nextDeadline.Some? &&
    (m.state.Up? ==>
       n == m.(state := Late, nextDeadline := Some(m.nextDeadline.value + if m.graceS.Some? then m.graceS.value else 0))) &&
    (m.state.Late? ==> n == m.(state := Down, nextDeadline := None, failStreak := m.failStreak + 1))
  }

  // One event for each claimed row, in order of the claim.
  ghost predicate StepEvents(db: Db, after: Db, ids: seq<nat>, now: Time) {
    (forall k :: 0 <= k < |ids| ==> ids[k] < |db.monitors|) &&
    |after.events| == |db.events| + |ids| && after.nextEvent == db.nextEvent + |ids| && db.events <= after.events &&
    (forall k :: 0 <= k < |ids| ==> EventAt(db, after, k) == StepEvent(db, ids, k, now))
  }

  // The k-th event written since.
  function EventAt(db: Db, after: Db, k: nat): Event
    requires |db.events| + k < |after.events|
  {
    after.events[|db.events| + k]
  }

  function StepEvent(db: Db, ids: seq<nat>, k: nat, now: Time): Event
    requires k < |ids| && ids[k] < |db.monitors|
  {
    var up := db.monitors[ids[k]].state.Up?;
    Event(db.nextEvent + k, ids[k], if up then LateEvent else DownEvent, if up then IsLate else MissedDeadline, None, now)
  }

  // The positions in the claim of the rows that were late, in order.
  function LatePositions(ms: seq<Monitor>, ids: seq<nat>): (lates: seq<nat>)
    requires forall k :: 0 <= k < |ids| ==> ids[k] < |ms|
    ensures forall t :: 0 <= t < |lates| ==> lates[t] < |ids|
  {
    if |ids| == 0 then []
    else
      var last := |ids| - 1;
      LatePositions(ms, ids[..last]) + if ms[ids[last]].state.Late? then [last] else []
  }

  lemma {:induction false} LatePositionsAreThose(ms: seq<Monitor>, ids: seq<nat>, k: nat)
    requires forall j :: 0 <= j < |ids| ==> ids[j] < |ms|
    ensures k in LatePositions(ms, ids) <==> k < |ids| && ms[ids[k]].state.Late?
    ensures forall t, u :: 0 <= t < u < |LatePositions(ms, ids)| ==> LatePositions(ms, ids)[t] < LatePositions(ms, ids)[u]
  {
    if |ids| > 0 { LatePositionsAreThose(ms, ids[..|ids| - 1], k); }
  }

  // One pending alert for each claimed row that was late, which refers to its event.
  ghost predicate StepAlerts(db: Db, after: Db, ids: seq<nat>, now: Time) {
    (forall k :: 0 <= k < |ids| ==> ids[k] < |db.monitors|) &&
    var lates := LatePositions(db.monitors, ids);
    |after.alerts| == |db.alerts| + |lates| && after.nextAlert == db.nextAlert + |lates| && db.alerts <= after.alerts &&
    forall t :: 0 <= t < |lates| ==> AlertAt(db, after, t) == StepAlert(db, ids, lates[t], t, now)
  }

  // The t-th alert written since.
  function AlertAt(db: Db, after: Db, t: nat): Alert
    requires |db.alerts| + t < |after.alerts|
  {
    after.alerts[|db.alerts| + t]
  }

  // The alert of the k-th event.
  function StepAlert(db: Db, ids: seq<nat>, k: nat, t: nat, now: Time): Alert
    requires k < |ids|
  {
    Alert(db.nextAlert + t, ids[k], db.nextEvent + k, Pending, 0, now, None, now, false)
  }

  ghost predicate Ticked(db: Db, after: Db, ids: seq<nat>, now: Time) {
    SteppedRows(db.monitors, after.monitors, ids) && StepEvents(db, after, ids, now) && StepAlerts(db, after, ids, now) &&
    after.checkins == db.checkins && after.probeResults == db.probeResults
  }

  lemma StepOneRow(before: seq<Monitor>, mid: seq<Monitor>, ids: seq<nat>, k: nat, now: Time)
    requires Distinct(ids) && k < |ids| && ids[k] < |before| && Due(before[ids[k]], now) && SteppedRows(before, mid, ids[..k])
    ensures mid[ids[k]] == before[ids[k]]
    ensures SteppedRows(before, mid[ids[k] := EvaluateChange(before[ids[k]], mid[ids[k]]).row], ids[..k + 1])
  {
    var i, next := ids[k], mid[ids[k] := EvaluateChange(before[ids[k]], mid[ids[k]]).row];
    var front, all := ids[..k], ids[..k + 1];
    assert i !in front && all == front + [i];
    forall j | 0 <= j < |before| && j !in all
      ensures next[j] == before[j]
    {
      assert j !in front && j != i;
    }
    forall j | 0 <= j < |all|
      ensures SteppedRow(before[all[j]], next[all[j]])
    {
      if j < k { assert SteppedRow(before[front[j]], mid[front[j]]); }
    }
  }

  lemma StepOneEvent(db: Db, mid: Db, after: Db, ids: seq<nat>, k: nat, now: Time)
    requires k < |ids| && ids[k] < |db.monitors| && StepEvents(db, mid, ids[..k], now)
    requires after.nextEvent == mid.nextEvent + 1
    requires after.events == mid.events + [StepEvent(db, ids, k, now)]
    ensures StepEvents(db, after, ids[..k + 1], now)
  {
    var front, all := ids[..k], ids[..k + 1];
    assert all == front + [ids[k]];
    forall j | 0 <= j < |all|
      ensures EventAt(db, after, j) == StepEvent(db, all, j, now)
    {
      if j < k { assert EventAt(db, mid, j) == StepEvent(db, front, j, now); }
    }
  }

  lemma StepOneAlert(db: Db, mid: Db, after: Db, ids: seq<nat>, k: nat, now: Time)
    requires k < |ids| && ids[k] < |db.monitors| && StepAlerts(db, mid, ids[..k], now)
    requires var late := db.monitors[ids[k]].state.Late?;
             after.nextAlert == (if late then mid.nextAlert + 1 else mid.nextAlert) &&
             after.alerts == mid.alerts + if late then [Alert(mid.nextAlert, ids[k], db.nextEvent + k, Pending, 0, now, None, now, false)] else []
    ensures StepAlerts(db, after, ids[..k + 1], now)
  {
    var front, all := ids[..k], ids[..k + 1];
    assert all == front + [ids[k]] && all[..k] == front;
    var lates, more := LatePositions(db.monitors, front), LatePositions(db.monitors, all);
    assert more == lates + if db.monitors[ids[k]].state.Late? then [k] else [];
    forall t | 0 <= t < |more|
      ensures AlertAt(db, after, t) == StepAlert(db, all, more[t], t, now)
    {
      if t < |lates| { assert AlertAt(db, mid, t) == StepAlert(db, front, lates[t], t, now); }
    }
  }

  // What evaluating one claimed row writes.
  lemma StepWrites(mid: Db, i: nat, m: Monitor, now: Time)
    requires i < |mid.monitors| && Due(m, now)
    ensures var after := Apply(mid, i, EvaluateChange(m, mid.monitors[i]), now);
            after.events == mid.events + [Event(mid.nextEvent, i, if m.state.Up? then LateEvent else DownEvent,
                                                if m.state.Up? then IsLate else MissedDeadline, None, now)] &&
            after.nextEvent == mid.nextEvent + 1 && after.checkins == mid.checkins && after.probeResults == mid.probeResults &&
            after.nextAlert == (if m.state.Late? then mid.nextAlert + 1 else mid.nextAlert) &&
            after.alerts == mid.alerts + if m.state.Late? then [Alert(mid.nextAlert, i, mid.nextEvent, Pending, 0, now, None, now, false)] else []
  {
    var c := EvaluateChange(m, mid.monitors[i]);
    LogOne(mid.(monitors := mid.monitors[i := c.row]), i, c.emits[0], now);
    assert c.emits == [c.emits[0]];
  }

  // One more row of the claim.
  lemma TickOneMore(db: Db, mid: Db, after: Db, ids: seq<nat>, k: nat, now: Time)
    requires Distinct(ids) && k < |ids| && ids[k] < |db.monitors| && Due(db.monitors[ids[k]], now) && |mid.monitors| == |db.monitors|
    requires after == Apply(mid, ids[k], EvaluateChange(db.monitors[ids[k]], mid.monitors[ids[k]]), now)
    requires Ticked(db, mid, ids[..k], now)
    ensures Ticked(db, after, ids[..k + 1], now)
  {
    StepOneRow(db.monitors, mid.monitors, ids, k, now);
    StepWrites(mid, ids[k], db.monitors[ids[k]], now);
    StepOneEvent(db, mid, after, ids, k, now);
    StepOneAlert(db, mid, after, ids, k, now);
  }

  // The tables after the first n claimed rows.
  function AfterRows(db: Db, ids: seq<nat>, n: nat, now: Time): Db
    requires n <= |ids| && forall k :: 0 <= k < |ids| ==> ids[k] < |db.monitors|
  {
    EvaluateDb(db, Engine.Snapshot(db.monitors, ids)[..n], now)
  }

  lemma AfterOneMore(db: Db, ids: seq<nat>, k: nat, now: Time)
    requires k < |ids| && forall j :: 0 <= j < |ids| ==> ids[j] < |db.monitors|
    ensures var mid := AfterRows(db, ids, k, now);
            |mid.monitors| == |db.monitors| &&
            AfterRows(db, ids, k + 1, now) == Apply(mid, ids[k], EvaluateChange(db.monitors[ids[k]], mid.monitors[ids[k]]), now)
  {
    EvaluateDbFront(db, Engine.Snapshot(db.monitors, ids), now, k);
  }

  // The scheduler transaction over due rows leaves the tables ticked.
  lemma {:induction false} TickInColumns(db: Db, ids: seq<nat>, n: nat, now: Time)
    requires Distinct(ids) && n <= |ids| && forall k :: 0 <= k < |ids| ==> ids[k] < |db.monitors| && Due(db.monitors[ids[k]], now)
    ensures Ticked(db, AfterRows(db, ids, n, now), ids[..n], now)
  {
    if n > 0 {
      var k := n - 1;
      TickInColumns(db, ids, k, now);
      AfterOneMore(db, ids, k, now);
      TickOneMore(db, AfterRows(db, ids, k, now), AfterRows(db, ids, k + 1, now), ids, k, now);
    }
  }
}
