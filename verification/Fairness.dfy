/** No starvation: how often the scheduler's claims can pass over a monitor that is due. */
module Fairness {
  import opened Model
  import opened Schedule
  import opened Rows
  import opened Engine
  import opened Timeline
  import opened Locks
  import opened Delivery

  // ------------------------------------------------------------------- the claim

  // ORDER BY next_deadline LIMIT: a due row is left out only for `limit` rows that are
  // no later.
  ghost predicate Earliest(ms: seq<Monitor>, locked: set<nat>, ids: seq<nat>, at: Time, limit: nat)
    requires forall k :: 0 <= k < |ids| ==> ids[k] < |ms| && Due(ms[ids[k]], at)
  {
    |ids| <= limit &&
    (forall i :: 0 <= i < |ms| && Due(ms[i], at) && i !in locked && i !in ids ==>
                   |ids| == limit && NoneLater(ms, ids, ms[i].nextDeadline.value))
  }

  ghost predicate NoneLater(ms: seq<Monitor>, ids: seq<nat>, deadline: Time) {
    forall k :: 0 <= k < |ids| ==> ids[k] < |ms| && ms[ids[k]].nextDeadline.Some? && ms[ids[k]].nextDeadline.value <= deadline
  }

  // --------------------------------------------------------------- the rank of a row

  // Passes the monitor may still take part in before its deadline exceeds the bound.
  function Weight(m: Monitor, bound: Time): nat {
    if Claimable(m) && m.nextDeadline.value <= bound then (if m.state.Up? then 2 else 1) else 0
  }

  function Share(ms: seq<Monitor>, locked: set<nat>, x: nat, bound: Time, i: nat): nat
    requires i < |ms|
  {
    var w := Weight(ms[i], bound);
    if i == x || w == 0 then 0 else if i in locked then w - 1 else w
  }

  // Claims of monitors other than x that can still come before x, among the first n rows.
  function Rank(ms: seq<Monitor>, locked: set<nat>, x: nat, bound: Time, n: nat): nat
    requires n <= |ms|
  {
    if n == 0 then 0 else Rank(ms, locked, x, bound, n - 1) + Share(ms, locked, x, bound, n - 1)
  }

  // Other claimable monitors with deadlines at or before the bound, among the first n rows.
  function Rivals(ms: seq<Monitor>, x: nat, bound: Time, n: nat): nat
    requires n <= |ms|
  {
    if n == 0 then 0
    else Rivals(ms, x, bound, n - 1) + if n - 1 != x && Weight(ms[n - 1], bound) > 0 then 1 else 0
  }

  lemma {:induction false} RankBound(ms: seq<Monitor>, locked: set<nat>, x: nat, bound: Time, n: nat)
    requires n <= |ms|
    ensures Rank(ms, locked, x, bound, n) <= 2 * Rivals(ms, x, bound, n)
  {
    if n > 0 { RankBound(ms, locked, x, bound, n - 1); }
  }

  lemma {:induction false} RankMonotone(ms: seq<Monitor>, locked: set<nat>, ns: seq<Monitor>, held: set<nat>,
                                        x: nat, bound: Time, n: nat)
    requires n <= |ms| <= |ns|
    requires forall i :: 0 <= i < n ==> Share(ns, held, x, bound, i) <= Share(ms, locked, x, bound, i)
    ensures Rank(ns, held, x, bound, n) <= Rank(ms, locked, x, bound, n)
  {
    if n > 0 { RankMonotone(ms, locked, ns, held, x, bound, n - 1); }
  }

  // Rows beyond the old table have no deadline.
  lemma {:induction false} RankOfNewRows(ns: seq<Monitor>, held: set<nat>, x: nat, bound: Time, n: nat, l: nat)
    requires n <= l <= |ns| && forall i :: n <= i < l ==> ns[i].nextDeadline.None?
    ensures Rank(ns, held, x, bound, l) == Rank(ns, held, x, bound, n)
  {
    if n < l { RankOfNewRows(ns, held, x, bound, n, l - 1); }
  }

  lemma {:induction false} LockOne(ms: seq<Monitor>, locked: set<nat>, x: nat, bound: Time, i: nat, n: nat)
    requires n <= |ms| && i < |ms| && i !in locked
    ensures Rank(ms, locked + {i}, x, bound, n) ==
            Rank(ms, locked, x, bound, n) - if i < n && i != x && Weight(ms[i], bound) > 0 then 1 else 0
  {
    if n > 0 {
      LockOne(ms, locked, x, bound, i, n - 1);
    }
  }

  function IdSet(ids: seq<nat>): set<nat> {
    set k | 0 <= k < |ids| :: ids[k]
  }

  // Locking rows lowers the rank by at most their number, and by exactly their number
  // when each of them could still come before x.
  lemma {:induction false} LockMany(ms: seq<Monitor>, locked: set<nat>, x: nat, bound: Time, ids: seq<nat>)
    requires Distinct(ids) && forall k :: 0 <= k < |ids| ==> ids[k] < |ms| && ids[k] !in locked
    ensures Rank(ms, locked, x, bound, |ms|) <= Rank(ms, locked + IdSet(ids), x, bound, |ms|) + |ids|
    ensures (forall k :: 0 <= k < |ids| ==> ids[k] != x && Weight(ms[ids[k]], bound) > 0) ==>
              Rank(ms, locked, x, bound, |ms|) == Rank(ms, locked + IdSet(ids), x, bound, |ms|) + |ids|
  {
    if |ids| == 0 {
      assert locked + IdSet(ids) == locked;
    } else {
      var front, i := ids[..|ids| - 1], ids[|ids| - 1];
      LockMany(ms, locked, x, bound, front);
      assert i !in IdSet(front);
      assert IdSet(ids) == IdSet(front) + {i} by {
        forall j | j in IdSet(ids) ensures j in IdSet(front) + {i} {
          var k :| 0 <= k < |ids| && ids[k] == j;
          if k < |front| { assert front[k] == j; }
        }
        forall j | j in IdSet(front) ensures j in IdSet(ids) {
          var k :| 0 <= k < |front| && front[k] == j;
          assert ids[k] == j;
        }
        assert ids[|ids| - 1] in IdSet(ids);
      }
      assert locked + IdSet(ids) == (locked + IdSet(front)) + {i};
      LockOne(ms, locked + IdSet(front), x, bound, i, |ms|);
    }
  }

  // -------------------------------------------------------------------- one step

  function Held(w: World): set<nat> {
    set i | 0 <= i < |w.db.monitors| && Locked(w, i)
  }

  function WorldRank(w: World, x: nat, bound: Time): nat {
    Rank(w.db.monitors, Held(w), x, bound, |w.db.monitors|)
  }

  // Monitor x carries this claimable row, and no replica has claimed it.
  predicate Waits(w: World, x: nat, row: Monitor) {
    x < |w.db.monitors| && w.db.monitors[x] == row && Claimable(row) && !Locked(w, x)
  }

  // The clock has passed the bound, and claims take the earliest rows.
  ghost predicate Orderly(w: World, s: Step, bound: Time, limit: nat)
    requires Enabled(w, s)
  {
    match s
    case CheckIn(_, _, at) => at > bound
    case Resume(_, at) => at > bound
    case ClaimDue(_, ids, at) => at > bound && Earliest(w.db.monitors, Held(w), ids, at, limit)
    case _ => true
  }

  ghost predicate SmallClaims(w: World, limit: nat) {
    forall r :: r in w.claims ==> |w.claims[r].rows| <= limit
  }

  // An occurrence armed now lies after now.
  lemma ArmedLater(cal: Calendar, m: Monitor, at: Time)
    requires cal.Forward()
    ensures var d := NextDeadlineFor(cal, m, at); d.Ok? && d.value.Some? ==> d.value.value > at
  {
  }

  lemma ArmingKeepsWeight(cal: Calendar, m: Monitor, s: Step, bound: Time)
    requires cal.Forward() && ((s.CheckIn? && CheckinChange(cal, m, s.kind, s.at).Ok?) || (s.Resume? && ResumeChange(cal, m, s.at).Ok?))
    requires s.at > bound
    ensures Weight((if s.CheckIn? then CheckinChange(cal, m, s.kind, s.at) else ResumeChange(cal, m, s.at)).value.row, bound) <= Weight(m, bound)
  {
    ArmedLater(cal, m, s.at);
  }

  // A transaction never arms a deadline at or before a bound that the clock has passed.
  lemma TransactionKeepsWeight(cal: Calendar, w: World, s: Step, bound: Time, limit: nat)
    requires Sound(cal, w) && cal.Forward() && Enabled(w, s) && IsTransaction(s) && Orderly(w, s, bound, limit)
    requires ChangeOf(cal, w, s).Ok?
    ensures Weight(ChangeOf(cal, w, s).value.row, bound) <= Weight(w.db.monitors[s.i], bound)
  {
    assert Consistent(cal, w.db.monitors[s.i], w.past[s.i]);
    if s.CheckIn? || s.Resume? { ArmingKeepsWeight(cal, w.db.monitors[s.i], s, bound); }
  }

  lemma TransactionRows(cal: Calendar, w: World, s: Step)
    requires Enabled(w, s) && IsTransaction(s)
    ensures Do(cal, w, s).claims == w.claims
    ensures Do(cal, w, s).db.monitors ==
            if ChangeOf(cal, w, s).Ok? then w.db.monitors[s.i := ChangeOf(cal, w, s).value.row] else w.db.monitors
  {
  }

  lemma NewRowRankAt(ms: seq<Monitor>, locked: set<nat>, i: nat, row: Monitor, x: nat, bound: Time)
    requires i < |ms| && Weight(row, bound) <= Weight(ms[i], bound)
    ensures Rank(ms[i := row], locked, x, bound, |ms|) <= Rank(ms, locked, x, bound, |ms|)
  {
    RankMonotone(ms, locked, ms[i := row], locked, x, bound, |ms|);
  }

  lemma SameHeld(w: World, v: World)
    requires w.claims == v.claims && |w.db.monitors| == |v.db.monitors|
    ensures Held(w) == Held(v)
  {
  }

  lemma TransactionRank(cal: Calendar, w: World, s: Step, x: nat, bound: Time, limit: nat)
    requires Sound(cal, w) && cal.Forward() && Enabled(w, s) && IsTransaction(s) && Orderly(w, s, bound, limit)
    ensures WorldRank(Do(cal, w, s), x, bound) <= WorldRank(w, x, bound)
  {
    TransactionRows(cal, w, s);
    SameHeld(w, Do(cal, w, s));
    if ChangeOf(cal, w, s).Ok? {
      TransactionKeepsWeight(cal, w, s, bound, limit);
      NewRowRankAt(w.db.monitors, Held(w), s.i, ChangeOf(cal, w, s).value.row, x, bound);
    }
  }

  // Rows that are written by a commit, and rows that are not.
  ghost predicate RowsEvaluated(before: seq<Monitor>, after: seq<Monitor>, rows: seq<Claimed>) {
    |after| == |before| &&
    (forall k :: 0 <= k < |rows| ==>
       rows[k].id < |after| && after[rows[k].id] == EvaluateChange(rows[k].row, rows[k].row).row) &&
    (forall i :: 0 <= i < |after| && (forall k :: 0 <= k < |rows| ==> rows[k].id != i) ==> after[i] == before[i])
  }

  lemma FirstRowEvaluated(before: seq<Monitor>, after: seq<Monitor>, rows: seq<Claimed>, at: Time)
    requires |rows| > 0 && RowsMatch(before, rows, at)
    requires RowsEvaluated(before[rows[0].id := EvaluateChange(rows[0].row, rows[0].row).row], after, rows[1..])
    ensures RowsEvaluated(before, after, rows)
  {
    var rest := rows[1..];
    assert forall k :: 0 < k < |rows| ==> rows[k] == rest[k - 1];
    forall i | 0 <= i < |after| && forall k :: 0 <= k < |rows| ==> rows[k].id != i
      ensures after[i] == before[i]
    {
      assert rows[0].id != i;
    }
    assert forall k :: 0 <= k < |rest| ==> rest[k].id != rows[0].id;
  }

  lemma RestMatches(before: seq<Monitor>, row: Monitor, rows: seq<Claimed>, at: Time)
    requires |rows| > 0 && RowsMatch(before, rows, at)
    ensures RowsMatch(before[rows[0].id := row], rows[1..], at)
  {
    assert forall k :: 0 <= k < |rows[1..]| ==> rows[1..][k] == rows[k + 1];
  }

  lemma {:induction false} EvaluateRowsMonitors(w: World, rows: seq<Claimed>, at: Time)
    requires Sized(w) && RowsMatch(w.db.monitors, rows, at)
    ensures RowsEvaluated(w.db.monitors, EvaluateRows(w, rows, at).db.monitors, rows)
    decreases |rows|
  {
    if |rows| > 0 {
      var c := EvaluateChange(rows[0].row, rows[0].row);
      RestMatches(w.db.monitors, c.row, rows, at);
      EvaluateRowsMonitors(Touch(w, rows[0].id, c, Evaluated, at), rows[1..], at);
      FirstRowEvaluated(w.db.monitors, EvaluateRows(w, rows, at).db.monitors, rows, at);
    }
  }

  // Evaluating a locked row does not raise its share of the rank.
  lemma EvaluatedShare(cal: Calendar, m: Monitor, p: Past, bound: Time)
    requires Consistent(cal, m, p) && Claimable(m)
    ensures Weight(EvaluateChange(m, m).row, bound) <= if Weight(m, bound) == 0 then 0 else Weight(m, bound) - 1
  {
  }

  lemma CommitShare(cal: Calendar, w: World, r: nat, ns: seq<Monitor>, held: set<nat>, x: nat, bound: Time, i: nat)
    requires Sound(cal, w) && r in w.claims && i < |w.db.monitors| == |ns|
    requires forall k :: 0 <= k < |w.claims[r].rows| && w.claims[r].rows[k].id == i ==>
                           ns[i] == EvaluateChange(w.claims[r].rows[k].row, w.claims[r].rows[k].row).row
    requires !HasRow(w.claims[r], i) ==> ns[i] == w.db.monitors[i] && (i in Held(w) ==> i in held)
    ensures Share(ns, held, x, bound, i) <= Share(w.db.monitors, Held(w), x, bound, i)
  {
    var rows := w.claims[r].rows;
    if HasRow(w.claims[r], i) {
      var k :| 0 <= k < |rows| && rows[k].id == i;
      assert RowsMatch(w.db.monitors, rows, w.claims[r].at);
      assert i in Held(w);
      EvaluatedShare(cal, w.db.monitors[i], w.past[i], bound);
    }
  }

  // Rows that a commit does not write stay locked by the other claims.
  lemma StillHeld(w: World, v: World, r: nat, i: nat)
    requires v.claims == w.claims - {r} && |v.db.monitors| == |w.db.monitors| && r in w.claims && !HasRow(w.claims[r], i)
    ensures i in Held(w) ==> i in Held(v)
  {
    if i in Held(w) {
      var q :| q in w.claims && HasRow(w.claims[q], i);
      assert q in v.claims && HasRow(v.claims[q], i);
    }
  }

  lemma CommittedRank(cal: Calendar, w: World, v: World, r: nat, x: nat, bound: Time)
    requires Sound(cal, w) && r in w.claims && v.claims == w.claims - {r} && |v.db.monitors| == |w.db.monitors|
    requires forall k :: 0 <= k < |w.claims[r].rows| ==>
               w.claims[r].rows[k].id < |v.db.monitors| &&
               v.db.monitors[w.claims[r].rows[k].id] == EvaluateChange(w.claims[r].rows[k].row, w.claims[r].rows[k].row).row
    requires forall i :: 0 <= i < |v.db.monitors| && !HasRow(w.claims[r], i) ==> v.db.monitors[i] == w.db.monitors[i]
    ensures WorldRank(v, x, bound) <= WorldRank(w, x, bound)
  {
    forall i | 0 <= i < |w.db.monitors|
      ensures Share(v.db.monitors, Held(v), x, bound, i) <= Share(w.db.monitors, Held(w), x, bound, i)
    {
      if !HasRow(w.claims[r], i) { StillHeld(w, v, r, i); }
      CommitShare(cal, w, r, v.db.monitors, Held(v), x, bound, i);
    }
    RankMonotone(w.db.monitors, Held(w), v.db.monitors, Held(v), x, bound, |w.db.monitors|);
  }

  lemma CommitRank(cal: Calendar, w: World, r: nat, x: nat, bound: Time)
    requires Sound(cal, w) && Enabled(w, Commit(r))
    ensures WorldRank(Do(cal, w, Commit(r)), x, bound) <= WorldRank(w, x, bound)
    ensures Do(cal, w, Commit(r)).claims == w.claims - {r}
  {
    EvaluateRowsMonitors(w.(claims := w.claims - {r}), w.claims[r].rows, w.claims[r].at);
    CommittedRank(cal, w, Do(cal, w, Commit(r)), r, x, bound);
  }

  function RowIds(rows: seq<Claimed>): (ids: seq<nat>)
    ensures |ids| == |rows| && forall k :: 0 <= k < |ids| ==> ids[k] == rows[k].id
  {
    seq(|rows|, k requires 0 <= k < |rows| => rows[k].id)
  }

  lemma HeldBeforeAbort(w: World, v: World, r: nat)
    requires LocksOk(w) && r in w.claims && v == w.(claims := w.claims - {r})
    ensures Held(w) == Held(v) + IdSet(RowIds(w.claims[r].rows))
  {
    var ids := RowIds(w.claims[r].rows);
    assert RowsMatch(w.db.monitors, w.claims[r].rows, w.claims[r].at);
    forall i | i in Held(w)
      ensures i in Held(v) + IdSet(ids)
    {
      var q :| q in w.claims && HasRow(w.claims[q], i);
      if q == r {
        var k :| 0 <= k < |ids| && w.claims[r].rows[k].id == i;
        assert ids[k] == i;
      } else {
        assert q in v.claims;
      }
    }
    forall i | i in IdSet(ids)
      ensures i in Held(w)
    {
      var k :| 0 <= k < |ids| && ids[k] == i;
      assert HasRow(w.claims[r], i);
    }
  }

  lemma AbortFrees(w: World, v: World, r: nat)
    requires LocksOk(w) && r in w.claims && v == w.(claims := w.claims - {r})
    ensures var ids := RowIds(w.claims[r].rows);
            Distinct(ids) && forall k :: 0 <= k < |ids| ==> ids[k] < |w.db.monitors| && ids[k] !in Held(v)
  {
    var ids := RowIds(w.claims[r].rows);
    assert RowsMatch(w.db.monitors, w.claims[r].rows, w.claims[r].at);
    forall k | 0 <= k < |ids|
      ensures ids[k] < |w.db.monitors| && ids[k] !in Held(v)
    {
      assert HasRow(w.claims[r], ids[k]);
    }
  }

  lemma AbortRank(cal: Calendar, w: World, r: nat, x: nat, bound: Time)
    requires Sound(cal, w) && Enabled(w, Abort(r))
    ensures WorldRank(Do(cal, w, Abort(r)), x, bound) <= WorldRank(w, x, bound) + |w.claims[r].rows|
  {
    var v, ids := w.(claims := w.claims - {r}), RowIds(w.claims[r].rows);
    HeldBeforeAbort(w, v, r);
    AbortFrees(w, v, r);
    LockMany(w.db.monitors, Held(v), x, bound, ids);
  }

  lemma ClaimHoldsOnly(cal: Calendar, w: World, r: nat, ids: seq<nat>, at: Time)
    requires Enabled(w, ClaimDue(r, ids, at))
    ensures Held(Do(cal, w, ClaimDue(r, ids, at))) <= Held(w) + IdSet(ids)
  {
    var v := Do(cal, w, ClaimDue(r, ids, at));
    forall i | i in Held(v)
      ensures i in Held(w) + IdSet(ids)
    {
      var q :| q in v.claims && HasRow(v.claims[q], i);
      if q == r {
        var k :| 0 <= k < |v.claims[r].rows| && v.claims[r].rows[k].id == i;
        assert ids[k] == i;
      } else {
        assert HasRow(w.claims[q], i);
      }
    }
  }

  lemma HeldAfterClaim(cal: Calendar, w: World, r: nat, ids: seq<nat>, at: Time)
    requires Enabled(w, ClaimDue(r, ids, at))
    ensures Held(Do(cal, w, ClaimDue(r, ids, at))) == Held(w) + IdSet(ids)
  {
    var v := Do(cal, w, ClaimDue(r, ids, at));
    ClaimHoldsOnly(cal, w, r, ids, at);
    forall i | i in IdSet(ids)
      ensures i in Held(v)
    {
      var k :| 0 <= k < |ids| && ids[k] == i;
      assert v.claims[r].rows[k].id == i;
      assert HasRow(v.claims[r], i);
    }
    forall i | i in Held(w)
      ensures i in Held(v)
    {
      var q :| q in w.claims && HasRow(w.claims[q], i);
      assert q in v.claims && HasRow(v.claims[q], i);
    }
  }

  // Every row that a claim takes instead of x still counts before x.
  lemma TakenBefore(ms: seq<Monitor>, locked: set<nat>, ids: seq<nat>, at: Time, x: nat, limit: nat)
    requires x < |ms| && Due(ms[x], at) && x !in locked && x !in ids
    requires forall k :: 0 <= k < |ids| ==> ids[k] < |ms| && Due(ms[ids[k]], at)
    requires Earliest(ms, locked, ids, at, limit)
    ensures |ids| == limit && forall k :: 0 <= k < |ids| ==> ids[k] != x && Weight(ms[ids[k]], ms[x].nextDeadline.value) > 0
  {
    assert NoneLater(ms, ids, ms[x].nextDeadline.value);
  }

  // A claim that passes over x takes `limit` rows that all come before x.
  lemma ClaimRank(cal: Calendar, w: World, r: nat, ids: seq<nat>, at: Time, x: nat, row: Monitor, limit: nat)
    requires Sound(cal, w) && Enabled(w, ClaimDue(r, ids, at)) && Waits(w, x, row)
    requires Orderly(w, ClaimDue(r, ids, at), row.nextDeadline.value, limit) && x !in ids
    ensures WorldRank(Do(cal, w, ClaimDue(r, ids, at)), x, row.nextDeadline.value) + limit ==
            WorldRank(w, x, row.nextDeadline.value)
    ensures |ids| == limit
  {
    TakenBefore(w.db.monitors, Held(w), ids, at, x, limit);
    HeldAfterClaim(cal, w, r, ids, at);
    LockMany(w.db.monitors, Held(w), x, row.nextDeadline.value, ids);
  }

  lemma CreateRank(cal: Calendar, w: World, m: Monitor, x: nat, bound: Time)
    requires Sound(cal, w) && Enabled(w, Create(m))
    ensures WorldRank(Do(cal, w, Create(m)), x, bound) <= WorldRank(w, x, bound)
  {
    NewRowRank(w.db.monitors, Held(w), Held(Do(cal, w, Create(m))), m, x, bound);
  }

  lemma NewRowRank(ms: seq<Monitor>, locked: set<nat>, held: set<nat>, m: Monitor, x: nat, bound: Time)
    requires m.nextDeadline.None? && locked <= held
    ensures Rank(ms + [m], held, x, bound, |ms| + 1) <= Rank(ms, locked, x, bound, |ms|)
  {
    RankOfNewRows(ms + [m], held, x, bound, |ms|, |ms| + 1);
    RankMonotone(ms, locked, ms + [m], held, x, bound, |ms|);
  }

  // ------------------------------------------------------------------------- runs

  function Claims(steps: seq<Step>): nat {
    if |steps| == 0 then 0 else Claims(steps[..|steps| - 1]) + if steps[|steps| - 1].ClaimDue? then 1 else 0
  }

  function Aborts(steps: seq<Step>): nat {
    if |steps| == 0 then 0 else Aborts(steps[..|steps| - 1]) + if steps[|steps| - 1].Abort? then 1 else 0
  }

  lemma OtherRows(cal: Calendar, w: World, s: Step)
    requires Enabled(w, s) && !IsTransaction(s) && !s.ClaimDue? && !s.Commit? && !s.Abort? && !s.Create?
    ensures Do(cal, w, s).db.monitors == w.db.monitors && Do(cal, w, s).claims == w.claims
  {
  }

  // One step while x waits: a claim lowers the rank by `limit`, an abort may give as
  // much back, and nothing else raises it.
  lemma StepRank(cal: Calendar, w: World, s: Step, x: nat, row: Monitor, limit: nat)
    requires Sound(cal, w) && cal.Forward() && Enabled(w, s) && Waits(w, x, row) && Waits(Do(cal, w, s), x, row)
    requires Orderly(w, s, row.nextDeadline.value, limit) && SmallClaims(w, limit)
    ensures WorldRank(Do(cal, w, s), x, row.nextDeadline.value) + (if s.ClaimDue? then limit else 0) <=
            WorldRank(w, x, row.nextDeadline.value) + if s.Abort? then limit else 0
    ensures SmallClaims(Do(cal, w, s), limit)
  {
    var bound := row.nextDeadline.value;
    if IsTransaction(s) {
      TransactionRows(cal, w, s);
      TransactionRank(cal, w, s, x, bound, limit);
    } else if s.ClaimDue? {
      if x in s.ids { ClaimLocks(cal, w, s.replica, s.ids, s.at, x); }
      ClaimRank(cal, w, s.replica, s.ids, s.at, x, row, limit);
    } else if s.Commit? {
      CommitRank(cal, w, s.replica, x, bound);
    } else if s.Abort? {
      AbortRank(cal, w, s.replica, x, bound);
    } else if s.Create? {
      CreateRank(cal, w, s.m, x, bound);
    } else {
      OtherRows(cal, w, s);
      SameHeld(w, Do(cal, w, s));
    }
  }

  lemma ClaimLocks(cal: Calendar, w: World, r: nat, ids: seq<nat>, at: Time, x: nat)
    requires Enabled(w, ClaimDue(r, ids, at)) && x in ids
    ensures Locked(Do(cal, w, ClaimDue(r, ids, at)), x)
  {
    var v := Do(cal, w, ClaimDue(r, ids, at));
    var k :| 0 <= k < |ids| && ids[k] == x;
    assert v.claims[r].rows[k].id == x;
    assert HasRow(v.claims[r], x);
  }

  // Monitor x waits from world k to world l, under an orderly scheduler whose clock has
  // passed its deadline.
  ghost predicate WaitsThrough(ws: seq<World>, steps: seq<Step>, k: nat, l: nat, x: nat, row: Monitor, limit: nat)
    requires k <= l < |ws| == |steps| + 1
  {
    SmallClaims(ws[k], limit) && (forall j :: k <= j <= l ==> Waits(ws[j], x, row)) &&
    (forall j :: k <= j < l ==> Enabled(ws[j], steps[j]) && Orderly(ws[j], steps[j], row.nextDeadline.value, limit))
  }

  lemma RunStepRank(cal: Calendar, ws: seq<World>, steps: seq<Step>, l: nat, x: nat, row: Monitor, limit: nat)
    requires Run(cal, ws, steps) && cal.Forward() && l < |steps| && Waits(ws[l], x, row) && Waits(ws[l + 1], x, row)
    requires Enabled(ws[l], steps[l]) && Orderly(ws[l], steps[l], row.nextDeadline.value, limit) && SmallClaims(ws[l], limit)
    ensures WorldRank(ws[l + 1], x, row.nextDeadline.value) + (if steps[l].ClaimDue? then limit else 0) <=
            WorldRank(ws[l], x, row.nextDeadline.value) + if steps[l].Abort? then limit else 0
    ensures SmallClaims(ws[l + 1], limit)
  {
    RunIsSound(cal, ws, steps, l);
    StepRank(cal, ws[l], steps[l], x, row, limit);
  }

  lemma Tally(limit: int, claims: int, aborts: int, claimed: bool, aborted: bool, first: int, before: int, after: int)
    requires before + limit * claims <= first + limit * aborts
    requires after + (if claimed then limit else 0) <= before + if aborted then limit else 0
    ensures after + limit * (claims + if claimed then 1 else 0) <= first + limit * (aborts + if aborted then 1 else 0)
  {
    assert limit * (claims + 1) == limit * claims + limit && limit * (aborts + 1) == limit * aborts + limit;
  }

  // What one step does to the rank while x waits.
  ghost predicate Falls(ws: seq<World>, steps: seq<Step>, j: nat, x: nat, bound: Time, limit: nat)
    requires j < |steps| && |ws| == |steps| + 1
  {
    SmallClaims(ws[j], limit) ==>
      SmallClaims(ws[j + 1], limit) &&
      WorldRank(ws[j + 1], x, bound) + (if steps[j].ClaimDue? then limit else 0) <=
      WorldRank(ws[j], x, bound) + if steps[j].Abort? then limit else 0
  }

  lemma {:induction false} RankFalls(ws: seq<World>, steps: seq<Step>, k: nat, l: nat, x: nat, bound: Time, limit: nat)
    requires k <= l < |ws| == |steps| + 1 && SmallClaims(ws[k], limit)
    requires forall j :: k <= j < l ==> Falls(ws, steps, j, x, bound, limit)
    ensures WorldRank(ws[l], x, bound) + limit * Claims(steps[k..l]) <= WorldRank(ws[k], x, bound) + limit * Aborts(steps[k..l])
    ensures SmallClaims(ws[l], limit)
    decreases l
  {
    if k < l {
      var front, s := steps[k..l - 1], steps[l - 1];
      RankFalls(ws, steps, k, l - 1, x, bound, limit);
      assert Falls(ws, steps, l - 1, x, bound, limit);
      assert steps[k..l] == front + [s] && (front + [s])[..|front|] == front;
      Tally(limit, Claims(front), Aborts(front), s.ClaimDue?, s.Abort?, WorldRank(ws[k], x, bound),
            WorldRank(ws[l - 1], x, bound), WorldRank(ws[l], x, bound));
    }
  }

  lemma {:induction false} Scale(limit: int, a: int, b: int)
    requires limit > 0 && a <= b
    ensures limit * a <= limit * b
    decreases b - a
  {
    if a < b {
      Scale(limit, a, b - 1);
      assert limit * b == limit * (b - 1) + limit;
    }
  }

  lemma Exceeds(limit: int, n: int, total: int)
    requires limit > 0 && n > total / limit
    ensures limit * n > total
  {
    var q := total / limit;
    Scale(limit, q + 1, n);
    assert limit * (q + 1) == limit * q + limit;
  }

  // No starvation, with any number of replicas and with check-ins, resumes and anything
  // else interleaved: while a due monitor waits, at most floor(2K / limit) claims pass
  // over it, one more for each aborted claim, where K counts the other claimable
  // monitors whose deadlines are no later. The next claim takes it.
  lemma NoStarvation(cal: Calendar, ws: seq<World>, steps: seq<Step>, k: nat, l: nat, x: nat, row: Monitor, limit: nat)
    requires Run(cal, ws, steps) && cal.Forward() && limit > 0 && k <= l < |ws|
    requires WaitsThrough(ws, steps, k, l, x, row, limit)
    ensures row.nextDeadline.Some?
    ensures Claims(steps[k..l]) <=
            2 * Rivals(ws[k].db.monitors, x, row.nextDeadline.value, |ws[k].db.monitors|) / limit + Aborts(steps[k..l])
  {
    assert Waits(ws[k], x, row);
    var bound := row.nextDeadline.value;
    forall j | k <= j < l
      ensures Falls(ws, steps, j, x, bound, limit)
    {
      if SmallClaims(ws[j], limit) {
        assert Waits(ws[j], x, row) && Waits(ws[j + 1], x, row);
        RunStepRank(cal, ws, steps, j, x, row, limit);
      }
    }
    RankFalls(ws, steps, k, l, x, bound, limit);
    AtMost(ws[k], x, bound, limit, Claims(steps[k..l]), Aborts(steps[k..l]));
  }

  lemma AtMost(w: World, x: nat, bound: Time, limit: nat, claims: nat, aborts: nat)
    requires limit > 0 && limit * claims <= WorldRank(w, x, bound) + limit * aborts
    ensures claims <= 2 * Rivals(w.db.monitors, x, bound, |w.db.monitors|) / limit + aborts
  {
    RankBound(w.db.monitors, Held(w), x, bound, |w.db.monitors|);
    assert limit * (claims - aborts) == limit * claims - limit * aborts;
    var rivals := Rivals(w.db.monitors, x, bound, |w.db.monitors|);
    if claims - aborts > 2 * rivals / limit { Exceeds(limit, claims - aborts, 2 * rivals); }
  }
}
