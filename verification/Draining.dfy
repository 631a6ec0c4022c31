/** Repeated scheduler passes at a fixed clock (backend/server/testclock.go). */
module Draining {
  import opened Model
  import opened Rows
  import opened Engine
  import opened Fairness
  import opened Ticks
  import opened Storage

  // Passes that due monitors can still take part in: two for `up`, one for `late`.
  function DueRank(ms: seq<Monitor>, now: Time): nat {
    Rank(ms, {}, |ms|, now - 1, |ms|)
  }

  function DueSet(ms: seq<Monitor>, now: Time): set<nat> {
    set i | 0 <= i < |ms| && Due(ms[i], now)
  }

  function OverdueSet(ms: seq<Monitor>, now: Time): set<nat> {
    set i | 0 <= i < |ms| && Overdue(ms[i], now)
  }

  // The claim is the one that the no-starvation theorem asks for.
  lemma ClaimIsEarliest(ms: seq<Monitor>, now: Time, limit: nat)
    ensures Earliest(ms, {}, DueIds(ms, now, limit), now, limit)
  {
    var ids, keys := DueIds(ms, now, limit), DueKeys(ms, now);
    forall i | 0 <= i < |ms| && Due(ms[i], now) && i !in ids
      ensures |ids| == limit && NoneLater(ms, ids, ms[i].nextDeadline.value)
    {
      assert keys[i].Some?;
      forall k | 0 <= k < |ids|
        ensures ms[ids[k]].nextDeadline.value <= ms[i].nextDeadline.value
      {
        assert keys[ids[k]].value <= keys[i].value;
      }
    }
  }

  // The monitors after one pass.
  ghost predicate Passed(ms: seq<Monitor>, ns: seq<Monitor>, ids: seq<nat>)
    requires forall k :: 0 <= k < |ids| ==> ids[k] < |ms|
  {
    |ns| == |ms| &&
    (forall k :: 0 <= k < |ids| ==> ns[ids[k]] == EvaluateChange(ms[ids[k]], ms[ids[k]]).row) &&
    (forall i :: 0 <= i < |ms| && i !in ids ==> ns[i] == ms[i])
  }

  // What evaluating the claimed rows does to the monitors.
  predicate EvaluatedFrom(ms: seq<Monitor>, before: seq<Monitor>, after: seq<Monitor>, ids: seq<nat>)
    requires forall k :: 0 <= k < |ids| ==> ids[k] < |ms|
  {
    |after| == |before| == |ms| &&
    (forall k :: 0 <= k < |ids| ==> after[ids[k]] == EvaluateChange(ms[ids[k]], ms[ids[k]]).row) &&
    (forall i :: 0 <= i < |ms| && i !in ids ==> after[i] == before[i])
  }

  lemma EvaluatedFirst(ms: seq<Monitor>, before: seq<Monitor>, after: seq<Monitor>, ids: seq<nat>)
    requires |ids| > 0 && Distinct(ids) && |before| == |ms| && forall k :: 0 <= k < |ids| ==> ids[k] < |ms|
    requires EvaluatedFrom(ms, before[ids[0] := EvaluateChange(ms[ids[0]], ms[ids[0]]).row], after, ids[1..])
    ensures EvaluatedFrom(ms, before, after, ids)
  {
    var rest := ids[1..];
    assert forall k :: 0 < k < |ids| ==> ids[k] == rest[k - 1];
    assert ids[0] !in rest;
    assert ids == [ids[0]] + rest;
  }

  lemma {:induction false} EvaluateDbMonitors(db: Db, ms: seq<Monitor>, ids: seq<nat>, at: Time)
    requires |db.monitors| == |ms| && Distinct(ids)
    requires forall k :: 0 <= k < |ids| ==> ids[k] < |ms| && db.monitors[ids[k]] == ms[ids[k]]
    ensures EvaluatedFrom(ms, db.monitors, EvaluateDb(db, Engine.Snapshot(ms, ids), at).monitors, ids)
    decreases |ids|
  {
    if |ids| > 0 {
      var i, rest := ids[0], ids[1..];
      assert Engine.Snapshot(ms, ids)[1..] == Engine.Snapshot(ms, rest);
      var next := Apply(db, i, EvaluateChange(ms[i], db.monitors[i]), at);
      forall k | 0 <= k < |rest|
        ensures rest[k] < |ms| && next.monitors[rest[k]] == ms[rest[k]]
      {
        assert rest[k] == ids[k + 1];
      }
      EvaluateDbMonitors(next, ms, rest, at);
      EvaluatedFirst(ms, db.monitors, EvaluateDb(db, Engine.Snapshot(ms, ids), at).monitors, ids);
    }
  }

  // Each pass lowers the rank by at least the number of monitors claimed.
  lemma PassLowersRank(ms: seq<Monitor>, ns: seq<Monitor>, ids: seq<nat>, now: Time)
    requires Distinct(ids) && forall k :: 0 <= k < |ids| ==> ids[k] < |ms| && Due(ms[ids[k]], now)
    requires Passed(ms, ns, ids)
    ensures DueRank(ns, now) + |ids| <= DueRank(ms, now)
  {
    LockMany(ms, {}, |ms|, now - 1, ids);
    assert {} + IdSet(ids) == IdSet(ids);
    var bound := now - 1;
    forall i | 0 <= i < |ms|
      ensures Share(ns, {}, |ms|, bound, i) <= Share(ms, IdSet(ids), |ms|, bound, i)
    {
      if i in ids {
        var k :| 0 <= k < |ids| && ids[k] == i;
        assert i in IdSet(ids);
      }
    }
    RankMonotone(ms, IdSet(ids), ns, {}, |ms|, now - 1, |ms|);
  }

  lemma {:induction false} RankPositive(ms: seq<Monitor>, now: Time, i: nat, n: nat)
    requires i < n <= |ms| && Due(ms[i], now)
    ensures Rank(ms, {}, |ms|, now - 1, n) > 0
  {
    if i < n - 1 { RankPositive(ms, now, i, n - 1); }
  }

  // A pass with fewer due monitors than its limit claims all of them.
  lemma ClaimsAll(ms: seq<Monitor>, now: Time, limit: nat)
    requires |DueSet(ms, now)| <= limit
    ensures forall i :: 0 <= i < |ms| && Due(ms[i], now) ==> i in DueIds(ms, now, limit)
    ensures |DueIds(ms, now, limit)| == |DueSet(ms, now)|
  {
    var ids, keys := DueIds(ms, now, limit), DueKeys(ms, now);
    IdSetSize(ids);
    assert IdSet(ids) <= DueSet(ms, now);
    var rest := DueSet(ms, now) - IdSet(ids);
    assert DueSet(ms, now) == IdSet(ids) + rest;
    forall i | 0 <= i < |ms| && Due(ms[i], now)
      ensures i in ids
    {
      assert keys[i].Some?;
      if |ids| == limit {
        assert |rest| == 0;
        assert i in IdSet(ids);
      }
    }
    forall i | i in DueSet(ms, now)
      ensures i in IdSet(ids)
    {
      assert i in ids;
    }
  }

  lemma {:induction false} IdSetSize(ids: seq<nat>)
    requires Distinct(ids)
    ensures |IdSet(ids)| == |ids|
  {
    if |ids| > 0 {
      var front, i := ids[..|ids| - 1], ids[|ids| - 1];
      IdSetSize(front);
      assert IdSet(ids) == IdSet(front) + {i} by {
        assert ids == front + [i];
        forall j | j in IdSet(front) ensures j in IdSet(ids) {
          var k :| 0 <= k < |front| && front[k] == j;
          assert ids[k] == j;
        }
        assert ids[|ids| - 1] in IdSet(ids);
      }
      assert i !in IdSet(front);
    }
  }

  function DueUpTo(ms: seq<Monitor>, now: Time, n: nat): set<nat>
    requires n <= |ms|
  {
    set i | 0 <= i < n && Due(ms[i], now)
  }

  lemma DueUpToGrows(ms: seq<Monitor>, now: Time, n: nat)
    requires 0 < n <= |ms|
    ensures |DueUpTo(ms, now, n)| == |DueUpTo(ms, now, n - 1)| + if Due(ms[n - 1], now) then 1 else 0
  {
    if Due(ms[n - 1], now) {
      assert DueUpTo(ms, now, n) == DueUpTo(ms, now, n - 1) + {n - 1};
    } else {
      assert DueUpTo(ms, now, n) == DueUpTo(ms, now, n - 1);
    }
  }

  lemma {:induction false} RankOfDue(ms: seq<Monitor>, now: Time, n: nat)
    requires n <= |ms|
    ensures Rank(ms, {}, |ms|, now - 1, n) <= 2 * |DueUpTo(ms, now, n)|
  {
    if n > 0 {
      RankOfDue(ms, now, n - 1);
      DueUpToGrows(ms, now, n);
    }
  }

  predicate OnlyLate(ms: seq<Monitor>, now: Time) {
    forall i :: 0 <= i < |ms| && Due(ms[i], now) ==> ms[i].state.Late?
  }

  // A pass that claims every due monitor leaves only late ones due, and a second such
  // pass leaves none.
  lemma PassOverAll(ms: seq<Monitor>, ns: seq<Monitor>, ids: seq<nat>, now: Time)
    requires forall k :: 0 <= k < |ids| ==> ids[k] < |ms| && Due(ms[ids[k]], now)
    requires Passed(ms, ns, ids) && forall i :: 0 <= i < |ms| && Due(ms[i], now) ==> i in ids
    ensures OnlyLate(ns, now) && DueSet(ns, now) <= DueSet(ms, now)
    ensures OnlyLate(ms, now) ==> DueSet(ns, now) == {}
  {
    forall i | 0 <= i < |ms| && Due(ns[i], now)
      ensures ns[i].state.Late? && Due(ms[i], now) && ms[i].state.Up?
    {
      if i in ids {
        var k :| 0 <= k < |ids| && ids[k] == i;
        assert ns[ids[k]] == EvaluateChange(ms[ids[k]], ms[ids[k]]).row;
      }
    }
  }

  // One pass of the store at the clock `now`.
  lemma StorePass(db: Db, now: Time, limit: nat)
    ensures var ids := DueIds(db.monitors, now, limit);
            Passed(db.monitors, EvaluateDb(db, Engine.Snapshot(db.monitors, ids), now).monitors, ids)
  {
    EvaluateDbMonitors(db, db.monitors, DueIds(db.monitors, now, limit), now);
  }

  // With few due monitors the third pass claims nothing.
  lemma ThirdPassClaimsNothing(db: Db, now: Time, limit: nat)
    requires |DueSet(db.monitors, now)| <= limit
    ensures var first := Pass(db, now, limit);
            var second := Pass(first, now, limit);
            DueIds(second.monitors, now, limit) == []
  {
    var first := Pass(db, now, limit);
    StorePass(db, now, limit);
    ClaimsAll(db.monitors, now, limit);
    PassOverAll(db.monitors, first.monitors, DueIds(db.monitors, now, limit), now);
    SubsetIsSmaller(DueSet(first.monitors, now), DueSet(db.monitors, now));
    StorePass(first, now, limit);
    ClaimsAll(first.monitors, now, limit);
    PassOverAll(first.monitors, Pass(first, now, limit).monitors, DueIds(first.monitors, now, limit), now);
    ClaimsAll(Pass(first, now, limit).monitors, now, limit);
  }

  function Pass(db: Db, now: Time, limit: nat): Db {
    EvaluateDb(db, Engine.Snapshot(db.monitors, DueIds(db.monitors, now, limit)), now)
  }

  lemma SubsetIsSmaller(a: set<nat>, b: set<nat>)
    requires a <= b
    ensures |a| <= |b|
  {
    assert b == a + (b - a);
  }

  const MAX_SCHEDULER_PASSES := 10
  const TEST_TICK_LIMIT: nat := 500

  // How far draining has come after p passes: every pass was full, or one pass has
  // claimed every due monitor, or nothing is due.
  predicate Progress(ms: seq<Monitor>, now: Time, rank: nat, p: nat) {
    TEST_TICK_LIMIT * p + DueRank(ms, now) <= rank ||
    (p > 0 && TEST_TICK_LIMIT * (p - 1) <= rank && OnlyLate(ms, now) && |DueSet(ms, now)| <= TEST_TICK_LIMIT) ||
    DueSet(ms, now) == {}
  }

  lemma PassProgresses(db: Db, now: Time, rank: nat, p: nat)
    requires Progress(db.monitors, now, rank, p)
    ensures Progress(Pass(db, now, TEST_TICK_LIMIT).monitors, now, rank, p + 1)
  {
    var ms, ids, ns := db.monitors, DueIds(db.monitors, now, TEST_TICK_LIMIT), Pass(db, now, TEST_TICK_LIMIT).monitors;
    StorePass(db, now, TEST_TICK_LIMIT);
    PassLowersRank(ms, ns, ids, now);
    if |DueSet(ms, now)| <= TEST_TICK_LIMIT {
      ClaimsAll(ms, now, TEST_TICK_LIMIT);
      PassOverAll(ms, ns, ids, now);
      SubsetIsSmaller(DueSet(ns, now), DueSet(ms, now));
    } else {
      FullPass(ms, now, TEST_TICK_LIMIT);
    }
  }

  lemma FullPass(ms: seq<Monitor>, now: Time, limit: nat)
    requires |DueSet(ms, now)| > limit
    ensures |DueIds(ms, now, limit)| == limit
  {
    var ids := DueIds(ms, now, limit);
    ClaimIsEarliest(ms, now, limit);
    if |ids| < limit {
      IdSetSize(ids);
      assert DueSet(ms, now) <= IdSet(ids) by {
        forall i | i in DueSet(ms, now) ensures i in IdSet(ids) {
          assert i in ids;
        }
      }
      SubsetIsSmaller(DueSet(ms, now), IdSet(ids));
    }
  }

  lemma NothingClaimedNothingDue(ms: seq<Monitor>, now: Time, limit: nat)
    requires limit > 0 && |DueIds(ms, now, limit)| == 0
    ensures DueSet(ms, now) == {}
  {
    ClaimIsEarliest(ms, now, limit);
  }

  lemma ProgressEnds(ms: seq<Monitor>, now: Time, rank: nat)
    requires Progress(ms, now, rank, MAX_SCHEDULER_PASSES) && rank < 9 * TEST_TICK_LIMIT
    ensures DueSet(ms, now) == {}
  {
  }

  // The scheduler part of the time-warp endpoint.
  class TestClock {
    var now: Time

    constructor (start: Time)
      ensures now == start
    {
      now := start;
    }

    // Moves the clock forward and drains the due monitors; the prober and alerter passes
    // that follow are not part of this method. With fewer than 2250 due monitors nothing is
    // due afterwards.
    method Advance(st: Store, seconds: int) returns (ok: bool)
      modifies this, st
      ensures ok <==> seconds > 0
      ensures !ok ==> now == old(now) && st.Snapshot() == old(st.Snapshot())
      ensures ok ==> now == old(now) + seconds && DueRank(st.monitors, now) <= DueRank(old(st.monitors), now)
      ensures ok && |OverdueSet(old(st.monitors), now)| < 2250 ==>
                forall i :: 0 <= i < |st.monitors| ==> !Overdue(st.monitors[i], now)
      ensures st.dailyStats == old(st.dailyStats)
    {
      if seconds <= 0 {
        return false;
      }
      now := now + seconds;
      ghost var rank := DueRank(st.monitors, now);
      RankOfDue(st.monitors, now, |st.monitors|);
      assert DueSet(st.monitors, now) == OverdueSet(st.monitors, now);
      assert DueUpTo(st.monitors, now, |st.monitors|) == DueSet(st.monitors, now);
      var p := 0;
      while p < MAX_SCHEDULER_PASSES
        invariant p <= MAX_SCHEDULER_PASSES && now == old(now) + seconds && st.dailyStats == old(st.dailyStats)
        invariant Progress(st.monitors, now, rank, p) && DueRank(st.monitors, now) <= rank
      {
        ghost var before := st.Snapshot();
        PassProgresses(before, now, rank, p);
        StorePass(before, now, TEST_TICK_LIMIT);
        var res, _ := st.EvaluateDueMonitors(now, TEST_TICK_LIMIT);
        assert st.Snapshot() == Pass(before, now, TEST_TICK_LIMIT);
        PassLowersRank(before.monitors, st.monitors, DueIds(before.monitors, now, TEST_TICK_LIMIT), now);
        p := p + 1;
        if res.claimed == 0 {
          NothingClaimedNothingDue(before.monitors, now, TEST_TICK_LIMIT);
          NothingDueStays(before, now);
          NoneOverdue(st.monitors, now);
          return true;
        }
      }
      if rank < 9 * TEST_TICK_LIMIT {
        ProgressEnds(st.monitors, now, rank);
        NoneOverdue(st.monitors, now);
      }
      ok := true;
    }
  }

  lemma NoneOverdue(ms: seq<Monitor>, now: Time)
    requires DueSet(ms, now) == {}
    ensures forall i :: 0 <= i < |ms| ==> !Overdue(ms[i], now)
  {
    forall i | 0 <= i < |ms|
      ensures !Overdue(ms[i], now)
    {
      assert i !in DueSet(ms, now);
    }
  }

  lemma NothingDueStays(db: Db, now: Time)
    requires DueSet(db.monitors, now) == {}
    ensures DueSet(Pass(db, now, TEST_TICK_LIMIT).monitors, now) == {}
  {
    StorePass(db, now, TEST_TICK_LIMIT);
    ClaimsAll(db.monitors, now, TEST_TICK_LIMIT);
    PassOverAll(db.monitors, Pass(db, now, TEST_TICK_LIMIT).monitors, DueIds(db.monitors, now, TEST_TICK_LIMIT), now);
  }
}
